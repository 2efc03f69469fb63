/** The blocks of a measurement model against one update with the blocks that pass the gate stacked. */
module EkfStacked {
  import opened BlockMatrices
  import opened EkfBlocks
  import opened EkfProtocol
  import opened EkfUpdates
  import opened GnssTightlyCoupled
  import opened Matrices

  // ---- All blocks as one measurement -------------------------------------------------------

  function Height(blocks: seq<Measurement>): nat {
    if blocks == [] then 0 else blocks[0].h.rows + Height(blocks[1..])
  }

  ghost function StackedRows(blocks: seq<Measurement>, n: nat): (h: Matrix)
    requires AllSound(blocks, n)
    ensures h.rows == Height(blocks) && h.cols == n
  {
    hide Below, Zero, PositiveDefinite, Symmetric;
    if blocks == [] then Zero(0, n) else Below(blocks[0].h, StackedRows(blocks[1..], n))
  }

  ghost function StackedInnovation(blocks: seq<Measurement>, n: nat): (dz: Matrix)
    requires AllSound(blocks, n)
    ensures dz.rows == Height(blocks) && dz.cols == 1
  {
    hide Below, Zero, PositiveDefinite, Symmetric;
    if blocks == [] then Zero(0, 1) else Below(blocks[0].dz, StackedInnovation(blocks[1..], n))
  }

  ghost function StackedNoise(blocks: seq<Measurement>, n: nat): (r: Matrix)
    requires AllSound(blocks, n)
    ensures Square(r, Height(blocks))
  {
    hide Corners, Zero, PositiveDefinite, Symmetric;
    if blocks == [] then Zero(0, 0) else Corners(blocks[0].r, StackedNoise(blocks[1..], n))
  }

  ghost function StackedWeight(blocks: seq<Measurement>, n: nat): (w: Matrix)
    requires AllSound(blocks, n)
    ensures Square(w, Height(blocks))
  {
    hide Corners, Zero, PositiveDefinite, Symmetric;
    if blocks == [] then Zero(0, 0) else Corners(Weight(blocks[0].r), StackedWeight(blocks[1..], n))
  }

  ghost function Stacked(blocks: seq<Measurement>, n: nat, sInverse: Matrix): Measurement
    requires AllSound(blocks, n)
  {
    Measurement(StackedRows(blocks, n), StackedInnovation(blocks, n), StackedNoise(blocks, n), sInverse)
  }

  /** sInverse inverts the innovation covariance of all blocks at once. */
  ghost predicate Inverts(p: Matrix, blocks: seq<Measurement>, sInverse: Matrix) {
    p.rows == p.cols && AllSound(blocks, p.rows) &&
    Inverse(InnovationCovariance(p, StackedRows(blocks, p.rows), StackedNoise(blocks, p.rows)), sInverse)
  }

  lemma EmptyMatrix(a: Matrix, b: Matrix)
    requires a.rows == b.rows == 0 && a.cols == b.cols
    ensures a == b
  {
    SameEntries(a, b);
  }

  lemma {:induction false} StackedNoiseInverse(blocks: seq<Measurement>, n: nat)
    requires AllSound(blocks, n)
    ensures Inverse(StackedNoise(blocks, n), StackedWeight(blocks, n))
    ensures Symmetric(StackedNoise(blocks, n))
  {
    hide Mul, Identity, Zero, Transpose, Corners, PositiveDefinite;
    if blocks == [] {
      var zero := Zero(0, 0);
      EmptyMatrix(Mul(zero, zero), Identity(0));
      EmptyMatrix(Transpose(zero), zero);
    } else {
      assert Sound(blocks[0], n);
      var r, w := blocks[0].r, Weight(blocks[0].r);
      var noise, weight := StackedNoise(blocks[1..], n), StackedWeight(blocks[1..], n);
      StackedNoiseInverse(blocks[1..], n);
      CornersMul(r, noise, w, weight);
      CornersMul(w, weight, r, noise);
      IdentityCorners(r.rows, noise.rows);
      TransposeCorners(r, noise);
    }
  }

  /** [A; B]^T diag(V, W) [X; Y] is A^T V X + B^T W Y. */
  lemma StackedProduct(a: Matrix, b: Matrix, v: Matrix, w: Matrix, x: Matrix, y: Matrix)
    requires a.cols == b.cols && x.cols == y.cols
    requires Square(v, a.rows) && Square(w, b.rows) && x.rows == a.rows && y.rows == b.rows
    ensures Mul(Mul(Transpose(Below(a, b)), Corners(v, w)), Below(x, y))
         == Add(Mul(Mul(Transpose(a), v), x), Mul(Mul(Transpose(b), w), y))
  {
    hide Mul, Below, Corners, Beside, Add, Transpose;
    MulAssoc(Transpose(Below(a, b)), Corners(v, w), Below(x, y));
    CornersTimesBelow(v, w, x, y);
    TransposeBelow(a, b);
    BesideTimesBelow(Transpose(a), Transpose(b), Mul(v, x), Mul(w, y));
    MulAssoc(Transpose(a), v, x);
    MulAssoc(Transpose(b), w, y);
  }

  lemma NothingStacked(n: nat, x: Matrix)
    requires x.rows == 0
    ensures Mul(Mul(Transpose(Zero(0, n)), Zero(0, 0)), x) == Zero(n, x.cols)
  {
    hide Mul, Zero;
    ZeroTransposed(0, n);
    ZeroMul(n, Zero(0, 0));
    ZeroMul(n, x);
  }

  /** What the stacked measurement knows is what its blocks know. */
  lemma {:induction false} StackedKnows(blocks: seq<Measurement>, n: nat)
    requires AllSound(blocks, n)
    ensures var h, w := StackedRows(blocks, n), StackedWeight(blocks, n);
            && Mul(Mul(Transpose(h), w), h) == Information(blocks, n)
            && Mul(Mul(Transpose(h), w), StackedInnovation(blocks, n)) == InformationVector(blocks, n)
  {
    hide Mul, Zero, Transpose, Corners, Below, Add, PositiveDefinite, Symmetric;
    if blocks == [] {
      NothingStacked(n, Zero(0, n));
      NothingStacked(n, Zero(0, 1));
    } else {
      var m, rest := blocks[0], blocks[1..];
      assert Sound(m, n);
      var h, w := StackedRows(rest, n), StackedWeight(rest, n);
      StackedKnows(rest, n);
      StackedProduct(m.h, h, Weight(m.r), w, m.h, h);
      StackedProduct(m.h, h, Weight(m.r), w, m.dz, StackedInnovation(rest, n));
    }
  }

  /** One update with all blocks stacked, from a zero error state. */
  lemma StackedUpdate(p: Matrix, blocks: seq<Measurement>, information: Matrix, sInverse: Matrix)
    requires Symmetric(p) && Ready(p, blocks) && Inverts(p, blocks, sInverse)
    requires Square(information, p.rows) && Mul(p, information) == Identity(p.rows)
    ensures Usable(Stacked(blocks, p.rows, sInverse), p)
    ensures Updated(Estimate(Zero(p.rows, 1), p), Stacked(blocks, p.rows, sInverse), 0.0)
         == Estimate(BatchMean(p, blocks), Posterior(p, blocks))
  {
    hide Mul, Zero, Transpose, Add, Identity, Joseph, Gain, StackedRows, StackedNoise, StackedWeight, StackedInnovation;
    hide Posterior, Information, InformationVector, AllSound, Symmetric;
    var n := p.rows;
    var h, r, w, dz := StackedRows(blocks, n), StackedNoise(blocks, n), StackedWeight(blocks, n),
                       StackedInnovation(blocks, n);
    var k, after, total := Gain(p, h, sInverse), Posterior(p, blocks), Add(information, Information(blocks, n));
    StackedNoiseInverse(blocks, n);
    StackedKnows(blocks, n);
    GainIsOptimal(p, h, r, sInverse);
    InformationForm(p, k, h, r, information, w);
    AfterInformation(p, blocks, information);
    InformationSymmetric(after, total);
    JosephShape(p, k, h, r);
    InverseUnique(after, Joseph(p, k, h, r), total);
    JosephReduced(p, k, h, r);
    StackedGain(after, k, h, r, w, dz);
    AddZero(Mul(k, dz));
  }

  lemma JosephShape(p: Matrix, k: Matrix, h: Matrix, r: Matrix)
    requires Shapes(p, h, r) && k.rows == p.rows && k.cols == h.rows
    ensures Square(Joseph(p, k, h, r), p.rows)
  {
  }

  /** K dz is P' H^T R^-1 dz once P' H^T is K R. */
  lemma StackedGain(after: Matrix, k: Matrix, h: Matrix, r: Matrix, w: Matrix, dz: Matrix)
    requires Square(after, h.cols) && k.rows == h.cols && k.cols == h.rows && Square(r, h.rows) && Inverse(r, w)
    requires Mul(after, Transpose(h)) == Mul(k, r) && dz.rows == h.rows
    ensures Mul(k, dz) == Mul(after, Mul(Mul(Transpose(h), w), dz))
  {
    hide Mul, Transpose, Identity;
    MulAssoc(k, r, w);
    MulIdentity(k);
    MulAssoc(after, Transpose(h), w);
    MulAssoc(after, Mul(Transpose(h), w), dz);
  }

  // ---- The blocks that pass ----------------------------------------------------------------

  function Passing(e: Estimate, blocks: seq<Measurement>, gate: real): (passing: seq<Measurement>)
    requires UsableBlocks(e, blocks, gate)
    decreases blocks
  {
    if blocks == [] then []
    else
      (if Gated(blocks[0], gate) then [] else [blocks[0]]) + Passing(Updated(e, blocks[0], gate), blocks[1..], gate)
  }

  /** The gated blocks are the passing ones, applied without a gate. */
  lemma {:induction false} PassingApplied(e: Estimate, blocks: seq<Measurement>, gate: real)
    requires UsableBlocks(e, blocks, gate) && AllSound(blocks, e.error.rows)
    ensures var p, passing := e.covariance, Passing(e, blocks, gate);
            && AllSound(passing, p.rows) && Ready(p, passing)
            && BlocksApplied(e, blocks, gate).0
               == Estimate(Add(e.error, SequentialMean(p, passing)), Posterior(p, passing))
    decreases blocks
  {
    hide Gain, Joseph, Sound, Usable, Add, Mul, Gated, Zero;
    var p := e.covariance;
    if blocks == [] {
      AddZero(e.error);
    } else {
      var m, next := blocks[0], Updated(e, blocks[0], gate);
      var tail := Passing(next, blocks[1..], gate);
      FirstShape(m, p);
      PassingApplied(next, blocks[1..], gate);
      if Gated(m, gate) {
        assert [] + tail == tail;
      } else {
        assert next.covariance == Next(p, m);
        var passing := [m] + tail;
        assert passing[1..] == tail;
        AddAssoc(e.error, Mul(Gain(p, m.h, m.sInverse), m.dz), SequentialMean(next.covariance, tail));
      }
    }
  }

  /** The blocks are accepted together exactly when one of them passes. */
  lemma {:induction false} AcceptedIffOnePasses(e: Estimate, blocks: seq<Measurement>, gate: real)
    requires UsableBlocks(e, blocks, gate)
    ensures BlocksApplied(e, blocks, gate).1
         == if Passing(e, blocks, gate) == [] then Outcome.Rejected else Outcome.Accepted
    decreases blocks
  {
    hide Updated, Usable, Gated;
    if blocks != [] {
      AcceptedIffOnePasses(Updated(e, blocks[0], gate), blocks[1..], gate);
    }
  }

  lemma FirstShape(m: Measurement, p: Matrix)
    requires Usable(m, p)
    ensures p.rows == p.cols == m.h.cols && m.sInverse.rows == m.sInverse.cols == m.h.rows
    ensures m.dz.rows == m.h.rows && m.dz.cols == 1
  {
  }

  lemma {:induction false} PassingBlind(e: Estimate, blocks: seq<Measurement>, gate: real, y: Matrix)
    requires UsableBlocks(e, blocks, gate) && AllSound(blocks, e.error.rows) && y.rows == e.error.rows
    requires Blind(blocks, y)
    ensures AllSound(Passing(e, blocks, gate), y.rows) && Blind(Passing(e, blocks, gate), y)
    decreases blocks
  {
    hide Gain, Joseph, PositiveDefinite, Symmetric, Invertible, Mul, Gated, Zero, Inverse;
    if blocks != [] {
      BlindSplit(blocks, y);
      PassingBlind(Updated(e, blocks[0], gate), blocks[1..], gate, y);
    }
  }

  lemma {:induction false} PassingOrthogonal(p: Matrix, e: Estimate, blocks: seq<Measurement>, gate: real)
    requires UsableBlocks(e, blocks, gate) && AllSound(blocks, e.error.rows) && Square(p, e.error.rows)
    requires Orthogonal(p, blocks)
    ensures AllSound(Passing(e, blocks, gate), p.rows) && Orthogonal(p, Passing(e, blocks, gate))
    decreases blocks
  {
    hide Gain, Joseph, PositiveDefinite, Symmetric, Invertible, Mul, Gated, Zero, Inverse, Orthogonal, Blind;
    if blocks == [] {
      NoBlocksOrthogonal(p);
    } else {
      var m, next := blocks[0], Updated(e, blocks[0], gate);
      var tail := Passing(next, blocks[1..], gate);
      OrthogonalSplit(p, blocks);
      FirstShape(m, e.covariance);
      PassingBlind(next, blocks[1..], gate, Mul(p, Transpose(m.h)));
      PassingOrthogonal(p, next, blocks[1..], gate);
      if Gated(m, gate) {
        assert [] + tail == tail;
      } else {
        var passing := [m] + tail;
        assert passing[1..] == tail;
        OrthogonalSplit(p, passing);
      }
    }
  }

  // ---- Small innovations pass every gate ---------------------------------------------------

  function Shrunk(blocks: seq<Measurement>, c: real): (small: seq<Measurement>)
    ensures |small| == |blocks|
    ensures forall i | 0 <= i < |blocks| :: small[i] == blocks[i].(dz := Scale(c, blocks[i].dz))
  {
    seq(|blocks|, i requires 0 <= i < |blocks| => blocks[i].(dz := Scale(c, blocks[i].dz)))
  }

  predicate NoneGated(blocks: seq<Measurement>, gate: real) {
    forall i | 0 <= i < |blocks| ::
      && blocks[i].sInverse.rows == blocks[i].sInverse.cols == blocks[i].dz.rows && blocks[i].dz.cols == 1
      && !Gated(blocks[i], gate)
  }

  lemma QuadraticScaled(s: Matrix, x: Matrix, c: real)
    requires s.rows == s.cols == x.rows && x.cols == 1
    ensures Quadratic(s, Scale(c, x)) == c * (c * Quadratic(s, x))
  {
    hide Mul, Scale, Transpose, At;
    var row := Transpose(x);
    TransposeScale(c, x);
    MulScale(c, row, s);
    MulScale(c, Mul(row, s), Scale(c, x));
    MulScale(c, Mul(row, s), x);
    ScaleAt(c, Mul(Mul(row, s), Scale(c, x)), 0, 0);
    ScaleAt(c, Mul(Mul(row, s), x), 0, 0);
  }

  predicate Within(d: real, q: real, gate: real) { d * (d * q) <= gate }

  /** Every factor of at most c, squared, keeps q within the gate. */
  lemma SmallFactor(q: real, gate: real) returns (c: real)
    requires gate > 0.0
    ensures 0.0 < c <= 1.0 && forall d | 0.0 < d <= c :: Within(d, q, gate)
  {
    c := if q <= gate then 1.0 else gate / q;
    assert q > gate ==> c * q == gate && c <= 1.0;
    forall d | 0.0 < d <= c ensures Within(d, q, gate) {
      SmallerFactor(d, c, q, gate);
    }
  }

  lemma SmallerFactor(d: real, c: real, q: real, gate: real)
    requires 0.0 < d <= c <= 1.0 && gate > 0.0 && (q <= gate || c * q <= gate)
    ensures Within(d, q, gate)
  {
    var dq := d * q;
    if q <= 0.0 {
      assert dq <= 0.0;
      assert d * dq <= 0.0;
    } else {
      assert 0.0 < dq;
      assert dq <= c * q && dq <= q;
      assert d * dq <= 1.0 * dq;
    }
  }

  lemma {:induction false} SmallPass(blocks: seq<Measurement>, gate: real) returns (c: real)
    requires forall i | 0 <= i < |blocks| ::
               blocks[i].sInverse.rows == blocks[i].sInverse.cols == blocks[i].dz.rows && blocks[i].dz.cols == 1
    ensures c > 0.0 && forall d | 0.0 < d <= c :: NoneGated(Shrunk(blocks, d), gate)
  {
    hide Quadratic, Scale;
    c := 1.0;
    if gate > 0.0 && blocks != [] {
      var m := blocks[0];
      var head := SmallFactor(Quadratic(m.sInverse, m.dz), gate);
      var rest := SmallPass(blocks[1..], gate);
      c := if head < rest then head else rest;
      forall d | 0.0 < d <= c ensures NoneGated(Shrunk(blocks, d), gate) {
        QuadraticScaled(m.sInverse, m.dz, d);
        assert Within(d, Quadratic(m.sInverse, m.dz), gate);
        var small := Shrunk(blocks, d);
        assert small[1..] == Shrunk(blocks[1..], d);
        assert !Gated(small[0], gate);
        assert forall i | 0 < i < |small| :: small[i] == small[1..][i - 1];
      }
    }
  }

  lemma {:induction false} NoneGatedAllPass(e: Estimate, blocks: seq<Measurement>, gate: real)
    requires Proper(e) && Ready(e.covariance, blocks) && NoneGated(blocks, gate)
    ensures UsableBlocks(e, blocks, gate) && Passing(e, blocks, gate) == blocks
    decreases blocks
  {
    hide Gain, Joseph, Usable, Mul, Gated, Add;
    if blocks != [] {
      var m := blocks[0];
      FirstShape(m, e.covariance);
      assert !Gated(m, gate);
      NoneGatedAllPass(Updated(e, m, gate), blocks[1..], gate);
    }
  }

  // ---- Both means are linear in the innovations --------------------------------------------

  lemma ShrunkIsVariant(blocks: seq<Measurement>, c: real)
    requires forall i | 0 <= i < |blocks| :: blocks[i].dz.cols == 1
    ensures Variant(blocks, Shrunk(blocks, c))
  {
  }

  lemma {:induction false} SequentialMeanScales(p: Matrix, blocks: seq<Measurement>, c: real)
    requires Ready(p, blocks) && AllSound(blocks, p.rows)
    ensures Ready(p, Shrunk(blocks, c)) && AllSound(Shrunk(blocks, c), p.rows)
    ensures SequentialMean(p, Shrunk(blocks, c)) == Scale(c, SequentialMean(p, blocks))
    decreases blocks
  {
    hide Mul, Add, Scale, Gain, Joseph, Next, Zero, PositiveDefinite, Symmetric, Variant;
    var small := Shrunk(blocks, c);
    ShrunkIsVariant(blocks, c);
    VariantIsReady(p, blocks, small);
    if blocks == [] {
      ScaleOfZero(c, p.rows, 1);
    } else {
      var m, p1 := blocks[0], Next(p, blocks[0]);
      assert small[1..] == Shrunk(blocks[1..], c);
      SameNext(p, m, small[0]);
      SequentialMeanScales(p1, blocks[1..], c);
      MulScale(c, Gain(p, m.h, m.sInverse), m.dz);
      ScaleAdd(c, Mul(Gain(p, m.h, m.sInverse), m.dz), SequentialMean(p1, blocks[1..]));
    }
  }

  lemma {:induction false} InformationVectorScales(blocks: seq<Measurement>, n: nat, c: real)
    requires AllSound(blocks, n) && AllSound(Shrunk(blocks, c), n)
    ensures InformationVector(Shrunk(blocks, c), n) == Scale(c, InformationVector(blocks, n))
  {
    hide Mul, Add, Scale, Zero, PositiveDefinite, Symmetric, Transpose, Weight;
    var small := Shrunk(blocks, c);
    if blocks == [] {
      ScaleOfZero(c, n, 1);
    } else {
      var m := blocks[0];
      assert Sound(m, n) && Sound(small[0], n);
      assert small[1..] == Shrunk(blocks[1..], c);
      InformationVectorScales(blocks[1..], n, c);
      MulScale(c, Weighted(m, n), m.dz);
      ScaleAdd(c, Mul(Weighted(m, n), m.dz), InformationVector(blocks[1..], n));
    }
  }

  lemma AgreementScales(p: Matrix, blocks: seq<Measurement>, c: real)
    requires Ready(p, blocks) && AllSound(blocks, p.rows) && c > 0.0
    requires Ready(p, Shrunk(blocks, c)) && AllSound(Shrunk(blocks, c), p.rows)
    requires SequentialMean(p, Shrunk(blocks, c)) == BatchMean(p, Shrunk(blocks, c))
    ensures SequentialMean(p, blocks) == BatchMean(p, blocks)
  {
    hide Mul, Scale, SequentialMean, InformationVector, Posterior, AllSound, Variant, Shrunk;
    var small := Shrunk(blocks, c);
    SequentialMeanScales(p, blocks, c);
    InformationVectorScales(blocks, p.rows, c);
    SoundShapes(blocks, p.rows);
    ShrunkIsVariant(blocks, c);
    VariantIsReady(p, blocks, small);
    MulScale(c, Posterior(p, blocks), InformationVector(blocks, p.rows));
    ScaledSame(c, SequentialMean(p, blocks), BatchMean(p, blocks));
  }

  lemma SoundShapes(blocks: seq<Measurement>, n: nat)
    requires AllSound(blocks, n)
    ensures forall i | 0 <= i < |blocks| :: blocks[i].dz.cols == 1 && blocks[i].h.cols == n
  {
  }

  // ---- Agreement ---------------------------------------------------------------------------

  /** The same rows and noises with any innovations, each block with the inverse it then needs. */
  predicate SameSensors(blocks: seq<Measurement>, other: seq<Measurement>) {
    && |other| == |blocks|
    && forall i | 0 <= i < |blocks| ::
         && other[i].h == blocks[i].h && other[i].r == blocks[i].r
         && other[i].dz.rows == blocks[i].dz.rows && other[i].dz.cols == 1
  }

  /** One call's blocks, from a zero error state, under the gate. */
  ghost predicate Runs(p: Matrix, blocks: seq<Measurement>, other: seq<Measurement>, gate: real, sInverse: Matrix) {
    && p.rows == p.cols && SameSensors(blocks, other) && UsableBlocks(Estimate(Zero(p.rows, 1), p), other, gate)
    && Inverts(p, Passing(Estimate(Zero(p.rows, 1), p), other, gate), sInverse)
  }

  ghost function InTurn(p: Matrix, blocks: seq<Measurement>, other: seq<Measurement>, gate: real, sInverse: Matrix)
    : Estimate
    requires Runs(p, blocks, other, gate, sInverse)
  {
    BlocksApplied(Estimate(Zero(p.rows, 1), p), other, gate).0
  }

  /** One update with the blocks that pass stacked. */
  ghost function AtOnce(p: Matrix, blocks: seq<Measurement>, other: seq<Measurement>, gate: real, sInverse: Matrix)
    : Estimate
    requires Runs(p, blocks, other, gate, sInverse)
  {
    var e := Estimate(Zero(p.rows, 1), p);
    Updated(e, Stacked(Passing(e, other, gate), p.rows, sInverse), 0.0)
  }

  lemma SameSensorsSound(blocks: seq<Measurement>, other: seq<Measurement>, n: nat)
    requires AllSound(blocks, n) && SameSensors(blocks, other)
    ensures AllSound(other, n)
  {
    hide PositiveDefinite, Symmetric, Invertible;
  }

  lemma BothUpdates(p: Matrix, blocks: seq<Measurement>, other: seq<Measurement>, gate: real, sInverse: Matrix,
                    information: Matrix)
    requires Symmetric(p) && AllSound(blocks, p.rows) && Runs(p, blocks, other, gate, sInverse)
    requires Square(information, p.rows) && Mul(p, information) == Identity(p.rows)
    ensures var passing := Passing(Estimate(Zero(p.rows, 1), p), other, gate);
            && Ready(p, passing)
            && InTurn(p, blocks, other, gate, sInverse) == Estimate(SequentialMean(p, passing), Posterior(p, passing))
            && AtOnce(p, blocks, other, gate, sInverse) == Estimate(BatchMean(p, passing), Posterior(p, passing))
  {
    hide Mul, Identity, Zero, SequentialMean, BatchMean, Posterior, UsableBlocks, BlocksApplied, Passing, AllSound;
    hide SameSensors, Stacked, Updated;
    var e := Estimate(Zero(p.rows, 1), p);
    SameSensorsSound(blocks, other, p.rows);
    PassingApplied(e, other, gate);
    AddZero(SequentialMean(p, Passing(e, other, gate)));
    StackedUpdate(p, Passing(e, other, gate), information, sInverse);
  }

  ghost predicate StatesAgree(p: Matrix, blocks: seq<Measurement>, gate: real) {
    forall other: seq<Measurement>, s: Matrix | Runs(p, blocks, other, gate, s) ::
      InTurn(p, blocks, other, gate, s).error == AtOnce(p, blocks, other, gate, s).error
  }

  lemma OrthogonalBlocksAgreeGated(p: Matrix, blocks: seq<Measurement>, gate: real, information: Matrix)
    requires Symmetric(p) && AllSound(blocks, p.rows) && Orthogonal(p, blocks)
    requires Square(information, p.rows) && Mul(p, information) == Identity(p.rows)
    ensures StatesAgree(p, blocks, gate)
  {
    hide Mul, Identity, Zero, SequentialMean, BatchMean, Posterior, UsableBlocks, Passing, AllSound, Orthogonal;
    hide InTurn, AtOnce, Inverts;
    forall other: seq<Measurement>, s: Matrix | Runs(p, blocks, other, gate, s)
      ensures InTurn(p, blocks, other, gate, s).error == AtOnce(p, blocks, other, gate, s).error
    {
      var e := Estimate(Zero(p.rows, 1), p);
      SameSensorsSound(blocks, other, p.rows);
      OrthogonalRowsOnly(p, blocks, other);
      PassingOrthogonal(p, e, other, gate);
      BothUpdates(p, blocks, other, gate, s, information);
      OrthogonalBlocksAgree(p, Passing(e, other, gate), information);
    }
  }

  /** Innovations small enough to pass the gate everywhere tell the two means apart as well as any. */
  lemma SmallInnovationsDecide(p: Matrix, blocks: seq<Measurement>, other: seq<Measurement>, gate: real,
                               information: Matrix, sInverse: Matrix)
    requires Symmetric(p) && Ready(p, blocks) && AllSound(blocks, p.rows) && Variant(blocks, other)
    requires Square(information, p.rows) && Mul(p, information) == Identity(p.rows)
    requires Inverts(p, blocks, sInverse) && StatesAgree(p, blocks, gate)
    ensures Ready(p, other) && AllSound(other, p.rows) && SequentialMean(p, other) == BatchMean(p, other)
  {
    hide Mul, Identity, Zero, SequentialMean, BatchMean, Posterior, UsableBlocks, Passing, AllSound, Usable;
    hide InTurn, AtOnce, Inverts, Shrunk, NoneGated, Variant, Runs;
    VariantIsReady(p, blocks, other);
    ReadyShapes(p, other);
    var c := SmallPass(other, gate);
    var small := Shrunk(other, c);
    ShrunkIsVariant(other, c);
    VariantIsReady(p, other, small);
    NoneGatedAllPass(Estimate(Zero(p.rows, 1), p), small, gate);
    VariantRuns(p, blocks, other, small, gate, sInverse);
    BothUpdates(p, blocks, small, gate, sInverse, information);
    AgreementScales(p, other, c);
  }

  lemma {:induction false} ReadyShapes(p: Matrix, blocks: seq<Measurement>)
    requires Ready(p, blocks)
    ensures forall i | 0 <= i < |blocks| ::
              blocks[i].sInverse.rows == blocks[i].sInverse.cols == blocks[i].dz.rows && blocks[i].dz.cols == 1
    decreases blocks
  {
    hide Usable, Next;
    if blocks != [] {
      FirstShape(blocks[0], p);
      ReadyShapes(Next(p, blocks[0]), blocks[1..]);
      assert forall i | 0 < i < |blocks| :: blocks[i] == blocks[1..][i - 1];
    }
  }

  lemma {:induction false} SameStack(blocks: seq<Measurement>, other: seq<Measurement>, n: nat)
    requires AllSound(blocks, n) && AllSound(other, n) && Variant(blocks, other)
    ensures StackedRows(other, n) == StackedRows(blocks, n) && StackedNoise(other, n) == StackedNoise(blocks, n)
  {
    hide Sound, Below, Corners;
    if blocks != [] {
      assert forall i | 0 <= i < |other[1..]| :: other[1..][i] == other[i + 1] && blocks[1..][i] == blocks[i + 1];
      SameStack(blocks[1..], other[1..], n);
    }
  }

  lemma VariantRuns(p: Matrix, blocks: seq<Measurement>, other: seq<Measurement>, small: seq<Measurement>, gate: real,
                    sInverse: Matrix)
    requires AllSound(blocks, p.rows) && AllSound(small, p.rows) && Variant(blocks, other) && Variant(other, small)
    requires Inverts(p, blocks, sInverse) && UsableBlocks(Estimate(Zero(p.rows, 1), p), small, gate)
    requires Passing(Estimate(Zero(p.rows, 1), p), small, gate) == small
    ensures Runs(p, blocks, small, gate, sInverse)
  {
    hide Mul, Zero, UsableBlocks, Passing, AllSound, StackedRows, StackedNoise, Inverse, InnovationCovariance;
    assert Variant(blocks, small);
    SameStack(blocks, small, p.rows);
  }

  /**
   * Under any gate: the blocks in turn give the covariance of one update with the passing blocks stacked, for all
   * innovations, and its error state for all innovations exactly when each H P vanishes on the transposed H of every
   * earlier block.
   */
  lemma BlocksAreOneUpdateIff(p: Matrix, blocks: seq<Measurement>, gate: real, information: Matrix, sInverse: Matrix)
    requires Symmetric(p) && Ready(p, blocks) && AllSound(blocks, p.rows) && Inverts(p, blocks, sInverse)
    requires Square(information, p.rows) && Mul(p, information) == Identity(p.rows)
    ensures forall other: seq<Measurement>, s: Matrix | Runs(p, blocks, other, gate, s) ::
              InTurn(p, blocks, other, gate, s).covariance == AtOnce(p, blocks, other, gate, s).covariance
    ensures StatesAgree(p, blocks, gate) <==> Orthogonal(p, blocks)
  {
    hide Mul, Identity, Zero, SequentialMean, BatchMean, Posterior, UsableBlocks, Passing, AllSound, Orthogonal;
    hide InTurn, AtOnce, Inverts, StatesAgree, Runs, Variant, Ready;
    SoundShapes(blocks, p.rows);
    forall other: seq<Measurement>, s: Matrix | Runs(p, blocks, other, gate, s)
      ensures InTurn(p, blocks, other, gate, s).covariance == AtOnce(p, blocks, other, gate, s).covariance
    {
      BothUpdates(p, blocks, other, gate, s, information);
    }
    if StatesAgree(p, blocks, gate) {
      forall other: seq<Measurement> | Variant(blocks, other)
        ensures Ready(p, other) && AllSound(other, p.rows) && SequentialMean(p, other) == BatchMean(p, other)
      {
        SmallInnovationsDecide(p, blocks, other, gate, information, sInverse);
      }
      MeansAgreeIffOrthogonal(p, blocks, information);
    } else if Orthogonal(p, blocks) {
      OrthogonalBlocksAgreeGated(p, blocks, gate, information);
    }
  }

  // ---- Blocks that read segments of the state ----------------------------------------------

  /** Consecutive places of the state, of which only some are observed. */
  datatype Segment = Segment(offset: nat, axes: seq<bool>)

  predicate InState(s: Segment, n: nat) { s.offset + |s.axes| <= n }

  /** A unit entry for each observed axis; the rows of the others are zero. */
  function SegmentRows(s: Segment, n: nat): (h: Matrix)
    ensures h.rows == |s.axes| && h.cols == n
  {
    Build(|s.axes|, n, (i, j) => if 0 <= i < |s.axes| && s.axes[i] && j == s.offset + i then 1.0 else 0.0)
  }

  lemma {:induction false} SegmentDot(s: Segment, x: Matrix, i: nat, j: int, k: nat)
    requires i < |s.axes| && InState(s, x.rows) && k <= x.rows
    ensures Dot(SegmentRows(s, x.rows), x, i, j, k)
         == if s.axes[i] && s.offset + i < k then At(x, s.offset + i, j) else 0.0
  {
    if k > 0 {
      SegmentDot(s, x, i, j, k - 1);
    }
  }

  lemma SegmentReads(s: Segment, x: Matrix, i: nat, j: nat)
    requires i < |s.axes| && InState(s, x.rows) && j < x.cols
    ensures At(Mul(SegmentRows(s, x.rows), x), i, j) == if s.axes[i] then At(x, s.offset + i, j) else 0.0
  {
    hide SegmentRows;
    SegmentDot(s, x, i, j, x.rows);
    ProductAt(SegmentRows(s, x.rows), x, i, j);
  }

  /** H_t P H_s^T holds the covariances of the axes that both observe. */
  lemma SegmentsCovary(p: Matrix, s: Segment, t: Segment, i: nat, j: nat)
    requires Symmetric(p) && InState(s, p.rows) && InState(t, p.rows) && i < |t.axes| && j < |s.axes|
    ensures At(Mul(SegmentRows(t, p.rows), Mul(p, Transpose(SegmentRows(s, p.rows)))), i, j)
         == if t.axes[i] && s.axes[j] then At(p, t.offset + i, s.offset + j) else 0.0
  {
    hide SegmentRows, Mul, Dot;
    var h := SegmentRows(s, p.rows);
    var pht := Mul(p, Transpose(h));
    SegmentReads(t, pht, i, j);
    TransposeMul(h, p);
    assert pht == Transpose(Mul(h, p));
    SegmentReads(s, p, j, t.offset + i);
    assert At(p, s.offset + j, t.offset + i) == At(Transpose(p), t.offset + i, s.offset + j);
  }

  /** Block i observes segment i. */
  predicate Observe(blocks: seq<Measurement>, segments: seq<Segment>, n: nat) {
    && |segments| == |blocks|
    && forall i | 0 <= i < |blocks| :: InState(segments[i], n) && blocks[i].h == SegmentRows(segments[i], n)
  }

  /** No axis that one segment observes is correlated with one that the other observes. */
  predicate Apart(p: Matrix, s: Segment, t: Segment) {
    forall i, j | 0 <= i < |t.axes| && 0 <= j < |s.axes| && t.axes[i] && s.axes[j] ::
      At(p, t.offset + i, s.offset + j) == 0.0
  }

  predicate Uncorrelated(p: Matrix, segments: seq<Segment>) {
    forall i, j | 0 <= i < j < |segments| :: Apart(p, segments[i], segments[j])
  }

  lemma SegmentsApart(p: Matrix, s: Segment, t: Segment)
    requires Symmetric(p) && InState(s, p.rows) && InState(t, p.rows)
    ensures Mul(SegmentRows(t, p.rows), Mul(p, Transpose(SegmentRows(s, p.rows)))) == Zero(|t.axes|, |s.axes|)
       <==> Apart(p, s, t)
  {
    hide SegmentRows, Mul, Transpose;
    var product, zero := Mul(SegmentRows(t, p.rows), Mul(p, Transpose(SegmentRows(s, p.rows)))),
                         Zero(|t.axes|, |s.axes|);
    forall i, j | 0 <= i < |t.axes| && 0 <= j < |s.axes|
      ensures At(product, i, j) == if t.axes[i] && s.axes[j] then At(p, t.offset + i, s.offset + j) else 0.0
      ensures At(zero, i, j) == 0.0
    {
      SegmentsCovary(p, s, t, i, j);
    }
    hide At, Zero;
    if Apart(p, s, t) {
      SameEntries(product, zero);
    }
  }

  /** For blocks that read segments of the state the condition is that the segments are uncorrelated. */
  lemma SegmentsAgreeIffUncorrelated(p: Matrix, blocks: seq<Measurement>, segments: seq<Segment>, gate: real,
                                     information: Matrix, sInverse: Matrix)
    requires Symmetric(p) && Ready(p, blocks) && AllSound(blocks, p.rows) && Inverts(p, blocks, sInverse)
    requires Square(information, p.rows) && Mul(p, information) == Identity(p.rows)
    requires Observe(blocks, segments, p.rows)
    ensures StatesAgree(p, blocks, gate) <==> Uncorrelated(p, segments)
  {
    hide Mul, Identity, Zero, Transpose, Ready, AllSound, Inverts, StatesAgree, Apart, SegmentRows;
    SoundShapes(blocks, p.rows);
    forall i, j | 0 <= i < j < |blocks|
      ensures Mul(blocks[j].h, Mul(p, Transpose(blocks[i].h))) == Zero(blocks[j].h.rows, blocks[i].h.rows)
         <==> Apart(p, segments[i], segments[j])
    {
      SegmentsApart(p, segments[i], segments[j]);
    }
    BlocksAreOneUpdateIff(p, blocks, gate, information, sInverse);
  }
}
