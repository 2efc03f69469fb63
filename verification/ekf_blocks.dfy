/**
 * Measurement models with several blocks: each block is a vector update of its own, and every innovation is taken
 * against the nominal state. Against one update with the blocks stacked.
 */
module EkfBlocks {
  import opened EkfProtocol
  import opened EkfUpdates
  import opened GnssTightlyCoupled
  import opened Matrices

  ghost predicate PositiveDefinite(r: Matrix) {
    && PositiveSemidefinite(r)
    && forall x: Matrix | x.rows == r.rows && x.cols == 1 :: Quadratic(r, x) == 0.0 ==> x == Zero(r.rows, 1)
  }

  ghost predicate Invertible(r: Matrix) { exists w :: Inverse(r, w) }

  /** The inverse of a noise covariance. */
  ghost function Weight(r: Matrix): (w: Matrix)
    requires Invertible(r)
    ensures Inverse(r, w)
  {
    var w :| Inverse(r, w);
    w
  }

  /** Matching shapes and a positive definite noise covariance. */
  ghost predicate Sound(m: Measurement, n: nat) {
    && m.h.cols == n && Square(m.r, m.h.rows) && m.dz.rows == m.h.rows && m.dz.cols == 1
    && Symmetric(m.r) && PositiveDefinite(m.r) && Invertible(m.r)
  }

  ghost predicate AllSound(blocks: seq<Measurement>, n: nat) { forall i | 0 <= i < |blocks| :: Sound(blocks[i], n) }

  // ---- Blocks that are all applied ---------------------------------------------------------

  function Next(p: Matrix, m: Measurement): (after: Matrix)
    requires Usable(m, p)
    ensures Square(after, p.rows)
  {
    Joseph(p, Gain(p, m.h, m.sInverse), m.h, m.r)
  }

  /** Each block has the inverse of its own innovation covariance, after all blocks before it. */
  predicate Ready(p: Matrix, blocks: seq<Measurement>)
    decreases blocks
  {
    p.rows == p.cols &&
    (blocks == [] || (Usable(blocks[0], p) && Ready(Next(p, blocks[0]), blocks[1..])))
  }

  function Posterior(p: Matrix, blocks: seq<Measurement>): (after: Matrix)
    requires Ready(p, blocks)
    ensures Square(after, p.rows)
    decreases blocks
  {
    if blocks == [] then p else Posterior(Next(p, blocks[0]), blocks[1..])
  }

  /** The error state after all blocks, from zero. */
  function SequentialMean(p: Matrix, blocks: seq<Measurement>): (mean: Matrix)
    requires Ready(p, blocks)
    ensures mean.rows == p.rows && mean.cols == 1
    decreases blocks
  {
    if blocks == [] then Zero(p.rows, 1)
    else
      var m := blocks[0];
      Add(Mul(Gain(p, m.h, m.sInverse), m.dz), SequentialMean(Next(p, m), blocks[1..]))
  }

  // ---- What the blocks know ----------------------------------------------------------------

  /** H^T R^-1. */
  ghost function Weighted(m: Measurement, n: nat): (hw: Matrix)
    requires Sound(m, n)
    ensures hw.rows == n && hw.cols == m.h.rows
  {
    Mul(Transpose(m.h), Weight(m.r))
  }

  /** The sum of H^T R^-1 H. */
  ghost function Information(blocks: seq<Measurement>, n: nat): (sum: Matrix)
    requires AllSound(blocks, n)
    ensures Square(sum, n)
  {
    if blocks == [] then Zero(n, n)
    else Add(Mul(Weighted(blocks[0], n), blocks[0].h), Information(blocks[1..], n))
  }

  /** The sum of H^T R^-1 times the innovation. */
  ghost function InformationVector(blocks: seq<Measurement>, n: nat): (sum: Matrix)
    requires AllSound(blocks, n)
    ensures sum.rows == n && sum.cols == 1
  {
    if blocks == [] then Zero(n, 1)
    else Add(Mul(Weighted(blocks[0], n), blocks[0].dz), InformationVector(blocks[1..], n))
  }

  lemma NextInformation(p: Matrix, m: Measurement, information: Matrix)
    requires Symmetric(p) && Usable(m, p) && Sound(m, p.rows)
    requires Square(information, p.rows) && Mul(p, information) == Identity(p.rows)
    ensures Symmetric(Next(p, m))
    ensures Mul(Next(p, m), Add(information, Mul(Weighted(m, p.rows), m.h))) == Identity(p.rows)
    ensures Mul(Next(p, m), Transpose(m.h)) == Mul(Gain(p, m.h, m.sInverse), m.r)
    ensures Gain(p, m.h, m.sInverse) == Mul(Next(p, m), Weighted(m, p.rows))
  {
    hide Mul, Joseph, Gain, Add, Transpose, Identity, PositiveDefinite;
    var k, w := Gain(p, m.h, m.sInverse), Weight(m.r);
    GainIsOptimal(p, m.h, m.r, m.sInverse);
    InformationForm(p, k, m.h, m.r, information, w);
    JosephReduced(p, k, m.h, m.r);
    NextSymmetric(p, m);
    MulAssoc(Next(p, m), Transpose(m.h), w);
    MulAssoc(k, m.r, w);
    MulIdentity(k);
  }

  lemma NextSymmetric(p: Matrix, m: Measurement)
    requires Usable(m, p)
    ensures Symmetric(Next(p, m))
  {
    hide Mul, Gain, Add, Transpose, Symmetric, Symmetrize, Sub, Identity;
    var k := Gain(p, m.h, m.sInverse);
    var ikh := Sub(Identity(p.rows), Mul(k, m.h));
    SymmetrizeIsSymmetric(Add(Mul(Mul(ikh, p), Transpose(ikh)), Mul(Mul(k, m.r), Transpose(k))));
  }

  /** The covariance after all blocks times P^-1 plus what they know is the identity. */
  lemma {:induction false} AfterInformation(p: Matrix, blocks: seq<Measurement>, information: Matrix)
    requires Symmetric(p) && Ready(p, blocks) && AllSound(blocks, p.rows)
    requires Square(information, p.rows) && Mul(p, information) == Identity(p.rows)
    ensures Symmetric(Posterior(p, blocks))
    ensures Mul(Posterior(p, blocks), Add(information, Information(blocks, p.rows))) == Identity(p.rows)
    decreases blocks
  {
    hide Mul, Add, Identity, Next, Sound, Zero;
    var n := p.rows;
    if blocks == [] {
      AddZero(information);
    } else {
      var m, rest := blocks[0], blocks[1..];
      NextInformation(p, m, information);
      var more := Mul(Weighted(m, n), m.h);
      AfterInformation(Next(p, m), rest, Add(information, more));
      AddAssoc(information, more, Information(rest, n));
    }
  }

  // ---- Blocks that see nothing of a direction ----------------------------------------------

  /** H Y is zero for every block. */
  predicate Blind(blocks: seq<Measurement>, y: Matrix)
    requires forall i | 0 <= i < |blocks| :: blocks[i].h.cols == y.rows
  {
    forall i | 0 <= i < |blocks| :: Mul(blocks[i].h, y) == Zero(blocks[i].h.rows, y.cols)
  }

  /** x^T R^-1 x is not negative, and zero only at zero. */
  lemma WeightPositive(r: Matrix, x: Matrix)
    requires Symmetric(r) && PositiveDefinite(r) && Invertible(r) && x.rows == r.rows && x.cols == 1
    ensures Quadratic(Weight(r), x) >= 0.0
    ensures Quadratic(Weight(r), x) == 0.0 ==> x == Zero(r.rows, 1)
  {
    var w := Weight(r);
    var u, t := Mul(w, x), Transpose(x);
    MulAssoc(r, w, x);
    MulIdentity(x);
    assert Mul(r, u) == x;
    // x^T W x = u^T R u
    TransposeMul(r, u);
    MulAssoc(t, w, x);
    hide Mul, Transpose, PositiveSemidefinite;
    assert Quadratic(w, x) == Quadratic(r, u);
    if Quadratic(r, u) == 0.0 {
      MulZeroMatrix(r, 1);
    }
  }

  /** y^T H^T R^-1 H y is the weight along H y. */
  lemma BlockQuadratic(m: Measurement, y: Matrix)
    requires Sound(m, y.rows) && y.cols == 1
    ensures Quadratic(Mul(Weighted(m, y.rows), m.h), y) == Quadratic(Weight(m.r), Mul(m.h, y))
  {
    hide Mul, Transpose, PositiveDefinite, Symmetric;
    TransposeTwice(m.h);
    QuadraticCongruence(Transpose(m.h), Weight(m.r), y);
  }

  lemma {:induction false} InformationPositive(blocks: seq<Measurement>, y: Matrix)
    requires AllSound(blocks, y.rows) && y.cols == 1
    ensures Quadratic(Information(blocks, y.rows), y) >= 0.0
    ensures Quadratic(Information(blocks, y.rows), y) == 0.0 ==> Blind(blocks, y)
  {
    hide Mul, Add, Quadratic, PositiveDefinite, Symmetric, Zero, Weighted, Transpose;
    if blocks == [] {
      ZeroQuadratic(y);
    } else {
      var m, rest := blocks[0], blocks[1..];
      assert Sound(m, y.rows);
      InformationPositive(rest, y);
      QuadraticAdd(Mul(Weighted(m, y.rows), m.h), Information(rest, y.rows), y);
      BlockQuadratic(m, y);
      WeightPositive(m.r, Mul(m.h, y));
      BlindSplit(blocks, y);
    }
  }

  lemma ZeroQuadratic(y: Matrix)
    requires y.cols == 1
    ensures Quadratic(Zero(y.rows, y.rows), y) == 0.0
  {
    MulZeroMatrix(Transpose(y), y.rows);
    ZeroMul(1, y);
  }

  lemma BlindSplit(blocks: seq<Measurement>, y: Matrix)
    requires forall i | 0 <= i < |blocks| :: blocks[i].h.cols == y.rows
    requires blocks != []
    ensures Blind(blocks, y) <==>
              Mul(blocks[0].h, y) == Zero(blocks[0].h.rows, y.cols) && Blind(blocks[1..], y)
  {
    hide Mul, Zero;
    assert forall i | 0 < i < |blocks| :: blocks[i] == blocks[1..][i - 1];
  }

  lemma {:induction false} BlindKnowNothing(blocks: seq<Measurement>, y: Matrix)
    requires AllSound(blocks, y.rows) && Blind(blocks, y)
    ensures Mul(Information(blocks, y.rows), y) == Zero(y.rows, y.cols)
  {
    hide Mul, Add, PositiveDefinite, Symmetric, Zero, Weighted, Transpose, Blind;
    var n := y.rows;
    if blocks == [] {
      ZeroMul(n, y);
    } else {
      var m, rest := blocks[0], blocks[1..];
      assert Sound(m, n);
      BlindSplit(blocks, y);
      BlindKnowNothing(rest, y);
      MulAddLeft(Mul(Weighted(m, n), m.h), Information(rest, n), y);
      MulAssoc(Weighted(m, n), m.h, y);
      MulZeroMatrix(Weighted(m, n), y.cols);
      AddZero(Zero(n, y.cols));
    }
  }

  lemma ZeroColumn(rows: nat, cols: nat, j: nat)
    requires j < cols
    ensures ColumnOf(Zero(rows, cols), j) == Zero(rows, 1)
  {
    SameEntries(ColumnOf(Zero(rows, cols), j), Zero(rows, 1));
  }

  lemma ZeroQuadraticOf(a: Matrix, y: Matrix)
    requires a.rows == a.cols == y.rows && y.cols == 1 && Mul(a, y) == Zero(y.rows, 1)
    ensures Quadratic(a, y) == 0.0
  {
    MulAssoc(Transpose(y), a, y);
    MulZeroMatrix(Transpose(y), 1);
  }

  /** What the blocks know vanishes along Y exactly when every block is blind to it. */
  lemma KnowNothingIffBlind(blocks: seq<Measurement>, y: Matrix)
    requires AllSound(blocks, y.rows)
    ensures Mul(Information(blocks, y.rows), y) == Zero(y.rows, y.cols) <==> Blind(blocks, y)
  {
    hide Mul, Information, Zero, ColumnOf, Quadratic, PositiveDefinite;
    var sum := Information(blocks, y.rows);
    if Blind(blocks, y) {
      BlindKnowNothing(blocks, y);
    }
    if Mul(sum, y) == Zero(y.rows, y.cols) {
      forall i | 0 <= i < |blocks| ensures Mul(blocks[i].h, y) == Zero(blocks[i].h.rows, y.cols) {
        forall j: nat | j < y.cols
          ensures ColumnOf(Mul(blocks[i].h, y), j) == ColumnOf(Zero(blocks[i].h.rows, y.cols), j)
        {
          ColumnOfMul(sum, y, j);
          ZeroColumn(y.rows, y.cols, j);
          ZeroQuadraticOf(sum, ColumnOf(y, j));
          InformationPositive(blocks, ColumnOf(y, j));
          ColumnOfMul(blocks[i].h, y, j);
          ZeroColumn(blocks[i].h.rows, y.cols, j);
        }
        SameColumns(Mul(blocks[i].h, y), Zero(blocks[i].h.rows, y.cols));
      }
    }
  }

  // ---- The gain of the first block ---------------------------------------------------------

  /** Further blocks keep P V exactly when what they know vanishes along P V. */
  lemma LaterBlocksKeep(p: Matrix, blocks: seq<Measurement>, information: Matrix, v: Matrix)
    requires Symmetric(p) && Ready(p, blocks) && AllSound(blocks, p.rows) && v.rows == p.rows
    requires Square(information, p.rows) && Mul(p, information) == Identity(p.rows)
    ensures Mul(Posterior(p, blocks), v) == Mul(p, v) <==> Blind(blocks, Mul(p, v))
  {
    hide Mul, Add, Identity, Information, Posterior, Sound, Zero, Blind, Ready;
    var y, sum, after := Mul(p, v), Information(blocks, p.rows), Posterior(p, blocks);
    var total := Add(information, sum);
    AfterInformation(p, blocks, information);
    InformationSymmetric(p, information);
    InformationSymmetric(after, total);
    // (P^-1 + sum) P V = V + sum P V
    MulAddLeft(information, sum, y);
    MulAssoc(information, p, v);
    MulIdentity(v);
    assert Mul(total, y) == Add(v, Mul(sum, y));
    KnowNothingIffBlind(blocks, y);
    if Mul(sum, y) == Zero(y.rows, y.cols) {
      AddZero(v);
      MulAssoc(after, total, y);
      MulIdentity(y);
    }
    if Mul(after, v) == y {
      MulAssoc(total, after, v);
      assert Add(v, Mul(sum, y)) == v;
      NothingAdded(v, Mul(sum, y));
    }
  }

  lemma NothingAdded(v: Matrix, a: Matrix)
    requires v.rows == a.rows && v.cols == a.cols && Add(v, a) == v
    ensures a == Zero(a.rows, a.cols)
  {
    AddAssoc(a, v, a);
    SubCancels(a, v);
    SubSelf(v);
  }

  lemma ProductVanishesIff(x: Matrix, a: Matrix, b: Matrix)
    requires x.cols == a.rows == a.cols == b.rows == b.cols && Mul(a, b) == Identity(a.rows)
    ensures Mul(x, a) == Zero(x.rows, a.cols) <==> x == Zero(x.rows, x.cols)
  {
    MulAssoc(x, a, b);
    MulIdentity(x);
    ZeroMul(x.rows, b);
    ZeroMul(x.rows, a);
  }

  /** S^-1 R is invertible. */
  lemma GainTimesNoise(s: Matrix, sInverse: Matrix, r: Matrix, w: Matrix)
    requires Inverse(s, sInverse) && Inverse(r, w) && r.rows == s.rows
    ensures Mul(Mul(sInverse, r), Mul(w, s)) == Identity(r.rows)
  {
    hide Identity;
    MulAssoc(Mul(sInverse, r), w, s);
    MulAssoc(sInverse, r, w);
    MulIdentity(sInverse);
    hide Mul;
  }

  /** Updating with the first block does not change whether H P H1^T vanishes. */
  lemma BlindToFirst(p: Matrix, m: Measurement, information: Matrix, h: Matrix)
    requires Symmetric(p) && Usable(m, p) && Sound(m, p.rows) && h.cols == p.rows
    requires Square(information, p.rows) && Mul(p, information) == Identity(p.rows)
    ensures Mul(h, Mul(Next(p, m), Transpose(m.h))) == Zero(h.rows, m.h.rows)
       <==> Mul(h, Mul(p, Transpose(m.h))) == Zero(h.rows, m.h.rows)
  {
    hide Mul, Transpose, Next, Identity, Zero, PositiveDefinite, Symmetric;
    NextInformation(p, m, information);
    var pht, si, w, s := Mul(p, Transpose(m.h)), m.sInverse, Weight(m.r), InnovationCovariance(p, m.h, m.r);
    MulAssoc(pht, si, m.r);
    MulAssoc(h, pht, Mul(si, m.r));
    GainTimesNoise(s, si, m.r, w);
    ProductVanishesIff(Mul(h, pht), Mul(si, m.r), Mul(w, s));
  }

  /** No later block sees the state that H1^T reaches. */
  predicate BlindTo(p: Matrix, blocks: seq<Measurement>, h: Matrix)
    requires p.rows == p.cols == h.cols && forall i | 0 <= i < |blocks| :: blocks[i].h.cols == p.rows
  {
    Blind(blocks, Mul(p, Transpose(h)))
  }

  lemma BlindToFirstAll(p: Matrix, m: Measurement, information: Matrix, rest: seq<Measurement>)
    requires Symmetric(p) && Usable(m, p) && Sound(m, p.rows) && AllSound(rest, p.rows)
    requires Square(information, p.rows) && Mul(p, information) == Identity(p.rows)
    ensures BlindTo(Next(p, m), rest, m.h) <==> BlindTo(p, rest, m.h)
  {
    hide Mul, Transpose, Next, Identity, Zero, PositiveDefinite, Symmetric;
    forall i | 0 <= i < |rest|
      ensures Mul(rest[i].h, Mul(Next(p, m), Transpose(m.h))) == Zero(rest[i].h.rows, m.h.rows)
         <==> Mul(rest[i].h, Mul(p, Transpose(m.h))) == Zero(rest[i].h.rows, m.h.rows)
    {
      BlindToFirst(p, m, information, rest[i].h);
    }
  }

  /** The gain of the first block is the stacked one, P' H^T R^-1, exactly when no later block sees what it moves. */
  lemma HeadGain(p: Matrix, blocks: seq<Measurement>, information: Matrix)
    requires Symmetric(p) && Ready(p, blocks) && AllSound(blocks, p.rows) && blocks != []
    requires Square(information, p.rows) && Mul(p, information) == Identity(p.rows)
    ensures Gain(p, blocks[0].h, blocks[0].sInverse) == Mul(Posterior(p, blocks), Weighted(blocks[0], p.rows))
       <==> BlindTo(p, blocks[1..], blocks[0].h)
  {
    hide Mul, Add, Identity, Next, PositiveDefinite, Transpose, Symmetric, Blind, Gain;
    var m, rest := blocks[0], blocks[1..];
    assert Sound(m, p.rows);
    var p1, ht, w := Next(p, m), Transpose(m.h), Weight(m.r);
    var after := Posterior(p, blocks);
    NextInformation(p, m, information);
    LaterBlocksKeep(p1, rest, Add(information, Mul(Weighted(m, p.rows), m.h)), ht);
    BlindToFirstAll(p, m, information, rest);
    MulAssoc(after, ht, w);
    MulAssoc(p1, ht, w);
    // the weight can be taken back
    MulAssoc(Mul(after, ht), w, m.r);
    MulAssoc(Mul(p1, ht), w, m.r);
    MulIdentity(Mul(after, ht));
    MulIdentity(Mul(p1, ht));
  }

  // ---- The two means -----------------------------------------------------------------------

  /** P' H^T R^-1 times the innovations. */
  ghost function BatchMean(p: Matrix, blocks: seq<Measurement>): (mean: Matrix)
    requires Ready(p, blocks) && AllSound(blocks, p.rows)
    ensures mean.rows == p.rows && mean.cols == 1
  {
    Mul(Posterior(p, blocks), InformationVector(blocks, p.rows))
  }

  /** Each block's H P vanishes on the transposed H of every earlier block. */
  predicate Orthogonal(p: Matrix, blocks: seq<Measurement>)
    requires p.rows == p.cols && forall i | 0 <= i < |blocks| :: blocks[i].h.cols == p.rows
  {
    forall i, j | 0 <= i < j < |blocks| ::
      Mul(blocks[j].h, Mul(p, Transpose(blocks[i].h))) == Zero(blocks[j].h.rows, blocks[i].h.rows)
  }

  lemma OrthogonalSplit(p: Matrix, blocks: seq<Measurement>)
    requires p.rows == p.cols && blocks != [] && forall i | 0 <= i < |blocks| :: blocks[i].h.cols == p.rows
    ensures Orthogonal(p, blocks) <==> BlindTo(p, blocks[1..], blocks[0].h) && Orthogonal(p, blocks[1..])
  {
    hide Mul, Zero, Transpose;
    var rest := blocks[1..];
    assert forall i | 0 <= i < |rest| :: rest[i] == blocks[i + 1];
    if Orthogonal(p, blocks) {
      assert forall i, j | 0 <= i < j < |rest| :: rest[i] == blocks[i + 1] && rest[j] == blocks[j + 1];
    }
    if BlindTo(p, rest, blocks[0].h) && Orthogonal(p, rest) {
      forall i, j | 0 <= i < j < |blocks|
        ensures Mul(blocks[j].h, Mul(p, Transpose(blocks[i].h))) == Zero(blocks[j].h.rows, blocks[i].h.rows)
      {
        assert blocks[j] == rest[j - 1];
        if i > 0 {
          assert blocks[i] == rest[i - 1];
        }
      }
    }
  }

  lemma NextTimes(p: Matrix, m: Measurement, h: Matrix)
    requires Symmetric(p) && Usable(m, p) && Sound(m, p.rows) && h.cols == p.rows
    requires Mul(h, Mul(p, Transpose(m.h))) == Zero(h.rows, m.h.rows)
    ensures Mul(Next(p, m), Transpose(h)) == Mul(p, Transpose(h))
  {
    hide Mul, Joseph, Gain, Transpose, Sub, PositiveDefinite;
    var k, ht, hp := Gain(p, m.h, m.sInverse), Transpose(h), Mul(m.h, p);
    GainIsOptimal(p, m.h, m.r, m.sInverse);
    JosephReduced(p, k, m.h, m.r);
    // H1 P H^T is the transposed H P H1^T
    TransposeMul(h, Mul(p, Transpose(m.h)));
    TransposeMul(p, Transpose(m.h));
    TransposeTwice(m.h);
    ZeroTransposed(h.rows, m.h.rows);
    MulAddLeft(p, Mul(k, hp), ht);
    MulAssoc(k, hp, ht);
    MulZeroMatrix(k, h.rows);
    AddZero(Mul(p, ht));
  }

  lemma ZeroTransposed(rows: nat, cols: nat)
    ensures Transpose(Zero(rows, cols)) == Zero(cols, rows)
  {
    SameEntries(Transpose(Zero(rows, cols)), Zero(cols, rows));
  }

  lemma OrthogonalFollows(p: Matrix, m: Measurement, rest: seq<Measurement>)
    requires Symmetric(p) && Usable(m, p) && Sound(m, p.rows) && AllSound(rest, p.rows)
    requires BlindTo(p, rest, m.h)
    ensures Orthogonal(Next(p, m), rest) <==> Orthogonal(p, rest)
  {
    hide Mul, Transpose, Next, Zero, PositiveDefinite, Symmetric;
    forall i | 0 <= i < |rest| ensures Mul(Next(p, m), Transpose(rest[i].h)) == Mul(p, Transpose(rest[i].h)) {
      NextTimes(p, m, rest[i].h);
    }
  }

  /** The batch mean is the first block's share and the batch mean of the rest. */
  lemma BatchSplit(p: Matrix, blocks: seq<Measurement>)
    requires Ready(p, blocks) && AllSound(blocks, p.rows) && blocks != []
    ensures BatchMean(p, blocks)
         == Add(Mul(Mul(Posterior(p, blocks), Weighted(blocks[0], p.rows)), blocks[0].dz),
                BatchMean(Next(p, blocks[0]), blocks[1..]))
  {
    hide Mul, Add, Next, Weighted, PositiveDefinite, Symmetric;
    var m, after := blocks[0], Posterior(p, blocks);
    assert Sound(m, p.rows);
    MulAddRight(after, Mul(Weighted(m, p.rows), m.dz), InformationVector(blocks[1..], p.rows));
    MulAssoc(after, Weighted(m, p.rows), m.dz);
  }

  lemma {:induction false} OrthogonalBlocksAgree(p: Matrix, blocks: seq<Measurement>, information: Matrix)
    requires Symmetric(p) && Ready(p, blocks) && AllSound(blocks, p.rows) && Orthogonal(p, blocks)
    requires Square(information, p.rows) && Mul(p, information) == Identity(p.rows)
    ensures SequentialMean(p, blocks) == BatchMean(p, blocks)
    decreases blocks
  {
    hide Mul, Add, Identity, Next, Weighted, PositiveDefinite, Symmetric, Orthogonal, BlindTo, Zero, Gain;
    if blocks == [] {
      MulZeroMatrix(p, 1);
    } else {
      var m, rest := blocks[0], blocks[1..];
      assert Sound(m, p.rows);
      OrthogonalSplit(p, blocks);
      OrthogonalFollows(p, m, rest);
      HeadGain(p, blocks, information);
      BatchSplit(p, blocks);
      NextInformation(p, m, information);
      OrthogonalBlocksAgree(Next(p, m), rest, Add(information, Mul(Weighted(m, p.rows), m.h)));
    }
  }

  // ---- Agreement for all innovations -------------------------------------------------------

  /** The same blocks with other innovations. */
  predicate Variant(blocks: seq<Measurement>, other: seq<Measurement>) {
    && |other| == |blocks|
    && forall i | 0 <= i < |blocks| ::
         other[i] == blocks[i].(dz := other[i].dz) && other[i].dz.rows == blocks[i].dz.rows && other[i].dz.cols == 1
  }

  lemma {:induction false} VariantIsReady(p: Matrix, blocks: seq<Measurement>, other: seq<Measurement>)
    requires Ready(p, blocks) && AllSound(blocks, p.rows) && Variant(blocks, other)
    ensures Ready(p, other) && AllSound(other, p.rows) && Posterior(p, other) == Posterior(p, blocks)
    decreases blocks
  {
    hide Inverse, PositiveDefinite, Symmetric, Invertible, Joseph, Gain;
    if blocks != [] {
      assert Next(p, other[0]) == Next(p, blocks[0]);
      assert forall i | 0 <= i < |other[1..]| :: other[1..][i] == other[i + 1] && blocks[1..][i] == blocks[i + 1];
      VariantIsReady(Next(p, blocks[0]), blocks[1..], other[1..]);
      assert forall i | 0 < i < |other| :: other[i] == other[1..][i - 1];
    }
  }

  ghost predicate MeansAgree(p: Matrix, blocks: seq<Measurement>)
    requires Ready(p, blocks) && AllSound(blocks, p.rows)
  {
    forall other | Variant(blocks, other) ::
      (VariantIsReady(p, blocks, other); SequentialMean(p, other) == BatchMean(p, other))
  }

  /** Only the first block has an innovation. */
  function FirstOnly(blocks: seq<Measurement>, dz: Matrix): (other: seq<Measurement>)
    requires blocks != []
    ensures |other| == |blocks| && other[0] == blocks[0].(dz := dz) && other[1..] == Silent(blocks[1..])
  {
    [blocks[0].(dz := dz)] + Silent(blocks[1..])
  }

  function Silent(blocks: seq<Measurement>): (other: seq<Measurement>)
    ensures |other| == |blocks|
    ensures forall i | 0 <= i < |blocks| :: other[i] == blocks[i].(dz := Zero(blocks[i].dz.rows, 1))
  {
    seq(|blocks|, i requires 0 <= i < |blocks| => blocks[i].(dz := Zero(blocks[i].dz.rows, 1)))
  }

  lemma {:induction false} SilentMeans(p: Matrix, blocks: seq<Measurement>)
    requires Ready(p, blocks) && AllSound(blocks, p.rows)
    ensures Ready(p, Silent(blocks)) && AllSound(Silent(blocks), p.rows)
    ensures SequentialMean(p, Silent(blocks)) == Zero(p.rows, 1) == BatchMean(p, Silent(blocks))
    decreases blocks
  {
    hide Mul, Add, PositiveDefinite, Symmetric, Zero, Next, Gain, Weighted;
    var silent := Silent(blocks);
    VariantIsReady(p, blocks, silent);
    SilentVector(silent, p.rows);
    MulZeroMatrix(Posterior(p, silent), 1);
    if blocks != [] {
      assert silent[1..] == Silent(blocks[1..]) && Next(p, silent[0]) == Next(p, blocks[0]) by {
        SameNext(p, blocks[0], silent[0]);
      }
      SilentMeans(Next(p, blocks[0]), blocks[1..]);
      MulZeroMatrix(Gain(p, silent[0].h, silent[0].sInverse), 1);
      AddZero(Zero(p.rows, 1));
    }
  }

  lemma SameNext(p: Matrix, m: Measurement, other: Measurement)
    requires Usable(m, p) && Usable(other, p) && other == m.(dz := other.dz)
    ensures Next(p, other) == Next(p, m)
  {
  }

  lemma {:induction false} SilentVector(silent: seq<Measurement>, n: nat)
    requires AllSound(silent, n)
    requires forall i | 0 <= i < |silent| :: silent[i].dz == Zero(silent[i].h.rows, 1)
    ensures InformationVector(silent, n) == Zero(n, 1)
  {
    hide Mul, Add, PositiveDefinite, Symmetric, Zero, Weighted;
    if silent != [] {
      assert Sound(silent[0], n);
      SilentVector(silent[1..], n);
      MulZeroMatrix(Weighted(silent[0], n), 1);
      AddZero(Zero(n, 1));
    }
  }

  lemma FirstOnlyMeans(p: Matrix, blocks: seq<Measurement>, dz: Matrix)
    requires Ready(p, blocks) && AllSound(blocks, p.rows) && blocks != []
    requires dz.rows == blocks[0].dz.rows && dz.cols == 1
    ensures Variant(blocks, FirstOnly(blocks, dz))
    ensures Ready(p, FirstOnly(blocks, dz)) && AllSound(FirstOnly(blocks, dz), p.rows)
    ensures SequentialMean(p, FirstOnly(blocks, dz)) == Mul(Gain(p, blocks[0].h, blocks[0].sInverse), dz)
    ensures BatchMean(p, FirstOnly(blocks, dz)) == Mul(Mul(Posterior(p, blocks), Weighted(blocks[0], p.rows)), dz)
  {
    hide Mul, Add, PositiveDefinite, Symmetric, Zero, Gain, Joseph, Next;
    var other := FirstOnly(blocks, dz);
    assert forall i | 0 < i < |blocks| :: other[i] == other[1..][i - 1] && blocks[i] == blocks[1..][i - 1];
    VariantIsReady(p, blocks, other);
    SameNext(p, blocks[0], other[0]);
    SilentMeans(Next(p, blocks[0]), blocks[1..]);
    BatchSplit(p, other);
    AddZero(Mul(Gain(p, blocks[0].h, blocks[0].sInverse), dz));
    AddZero(Mul(Mul(Posterior(p, blocks), Weighted(blocks[0], p.rows)), dz));
  }

  lemma SameOnColumns(a: Matrix, b: Matrix)
    requires a.rows == b.rows && a.cols == b.cols
    requires forall x: Matrix | x.rows == a.cols && x.cols == 1 :: Mul(a, x) == Mul(b, x)
    ensures a == b
  {
    hide Mul, ColumnOf, Identity;
    MulIdentity(a);
    MulIdentity(b);
    forall j: nat | j < a.cols ensures ColumnOf(a, j) == ColumnOf(b, j) {
      ColumnOfMul(a, Identity(a.cols), j);
      ColumnOfMul(b, Identity(a.cols), j);
    }
    SameColumns(a, b);
  }

  lemma AgreementNeedsHead(p: Matrix, blocks: seq<Measurement>, information: Matrix)
    requires Symmetric(p) && Ready(p, blocks) && AllSound(blocks, p.rows) && blocks != []
    requires Square(information, p.rows) && Mul(p, information) == Identity(p.rows)
    requires MeansAgree(p, blocks)
    ensures BlindTo(p, blocks[1..], blocks[0].h)
  {
    hide Mul, Gain, Posterior, Identity, BatchMean, SequentialMean, PositiveDefinite, Symmetric, BlindTo, Variant;
    hide FirstOnly;
    var m := blocks[0];
    assert Sound(m, p.rows);
    var k, b := Gain(p, m.h, m.sInverse), Mul(Posterior(p, blocks), Weighted(m, p.rows));
    forall x: Matrix | x.rows == k.cols && x.cols == 1 ensures Mul(k, x) == Mul(b, x) {
      FirstOnlyMeans(p, blocks, x);
    }
    SameOnColumns(k, b);
    HeadGain(p, blocks, information);
  }

  /** Without an innovation in the first block the agreement is about the rest. */
  lemma AgreementOfRest(p: Matrix, blocks: seq<Measurement>)
    requires Ready(p, blocks) && AllSound(blocks, p.rows) && blocks != [] && MeansAgree(p, blocks)
    ensures AllSound(blocks[1..], p.rows) && MeansAgree(Next(p, blocks[0]), blocks[1..])
  {
    hide Mul, Add, Gain, Joseph, Next, InformationVector, PositiveDefinite, Symmetric, Zero, Weighted;
    var m, p1, rest := blocks[0], Next(p, blocks[0]), blocks[1..];
    forall later | Variant(rest, later)
      ensures Ready(p1, later) && AllSound(later, p.rows) && SequentialMean(p1, later) == BatchMean(p1, later)
    {
      RestAgrees(p, blocks, later);
    }
  }

  /** No innovation in the first block, these innovations in the others. */
  function SilentFirst(m: Measurement, later: seq<Measurement>): (other: seq<Measurement>)
    ensures |other| == |later| + 1 && other[0] == m.(dz := Zero(m.dz.rows, 1)) && other[1..] == later
  {
    [m.(dz := Zero(m.dz.rows, 1))] + later
  }

  lemma SilentFirstIsVariant(blocks: seq<Measurement>, later: seq<Measurement>)
    requires blocks != [] && Variant(blocks[1..], later)
    ensures Variant(blocks, SilentFirst(blocks[0], later))
  {
    hide Zero;
    var other := SilentFirst(blocks[0], later);
    forall i | 0 <= i < |blocks|
      ensures other[i] == blocks[i].(dz := other[i].dz)
      ensures other[i].dz.rows == blocks[i].dz.rows && other[i].dz.cols == 1
    {
      if i > 0 {
        assert other[i] == later[i - 1] && blocks[i] == blocks[1..][i - 1];
      }
    }
  }

  lemma SilentFirstMeans(p: Matrix, other: seq<Measurement>)
    requires Ready(p, other) && AllSound(other, p.rows) && other != []
    requires other[0].dz == Zero(other[0].h.rows, 1)
    ensures AllSound(other[1..], p.rows)
    ensures SequentialMean(p, other) == SequentialMean(Next(p, other[0]), other[1..])
    ensures BatchMean(p, other) == BatchMean(Next(p, other[0]), other[1..])
  {
    hide Mul, Add, Joseph, Next, InformationVector, PositiveDefinite, Symmetric, Zero, Weighted, Gain;
    var m := other[0];
    assert Sound(m, p.rows);
    BatchSplit(p, other);
    MulZeroMatrix(Gain(p, m.h, m.sInverse), 1);
    MulZeroMatrix(Mul(Posterior(p, other), Weighted(m, p.rows)), 1);
    AddZero(SequentialMean(Next(p, m), other[1..]));
    AddZero(BatchMean(Next(p, m), other[1..]));
  }

  lemma RestAgrees(p: Matrix, blocks: seq<Measurement>, later: seq<Measurement>)
    requires Ready(p, blocks) && AllSound(blocks, p.rows) && blocks != [] && MeansAgree(p, blocks)
    requires Variant(blocks[1..], later)
    ensures var p1 := Next(p, blocks[0]);
            Ready(p1, later) && AllSound(later, p.rows) && SequentialMean(p1, later) == BatchMean(p1, later)
  {
    hide Mul, Add, Gain, Joseph, Next, BatchMean, SequentialMean, PositiveDefinite, Symmetric, Zero, Variant;
    hide SilentFirst;
    var other := SilentFirst(blocks[0], later);
    assert Sound(blocks[0], p.rows);
    SilentFirstIsVariant(blocks, later);
    VariantIsReady(p, blocks, other);
    SameNext(p, blocks[0], other[0]);
    SilentFirstMeans(p, other);
  }

  lemma {:induction false} AgreementNeedsOrthogonal(p: Matrix, blocks: seq<Measurement>, information: Matrix)
    requires Symmetric(p) && Ready(p, blocks) && AllSound(blocks, p.rows) && MeansAgree(p, blocks)
    requires Square(information, p.rows) && Mul(p, information) == Identity(p.rows)
    ensures Orthogonal(p, blocks)
    decreases blocks
  {
    hide Mul, Add, Identity, Next, Weighted, PositiveDefinite, Symmetric, Orthogonal, BlindTo, MeansAgree, Zero;
    if blocks == [] {
      NoBlocksOrthogonal(p);
    } else {
      var m, rest := blocks[0], blocks[1..];
      assert Sound(m, p.rows);
      AgreementNeedsHead(p, blocks, information);
      AgreementOfRest(p, blocks);
      NextInformation(p, m, information);
      AgreementNeedsOrthogonal(Next(p, m), rest, Add(information, Mul(Weighted(m, p.rows), m.h)));
      OrthogonalFollows(p, m, rest);
      OrthogonalSplit(p, blocks);
    }
  }

  lemma NoBlocksOrthogonal(p: Matrix)
    requires p.rows == p.cols
    ensures Orthogonal(p, [])
  {
  }

  lemma SameRows(blocks: seq<Measurement>, other: seq<Measurement>)
    requires Variant(blocks, other)
    ensures |other| == |blocks| && forall i | 0 <= i < |blocks| :: other[i].h == blocks[i].h
  {
  }

  lemma OrthogonalRowsOnly(p: Matrix, blocks: seq<Measurement>, other: seq<Measurement>)
    requires p.rows == p.cols && AllSound(blocks, p.rows) && AllSound(other, p.rows)
    requires |other| == |blocks| && forall i | 0 <= i < |blocks| :: other[i].h == blocks[i].h
    ensures Orthogonal(p, other) <==> Orthogonal(p, blocks)
  {
    hide Mul, Transpose, Zero, PositiveDefinite, Symmetric;
  }

  /** The two means agree for all innovations exactly when the blocks are P-orthogonal. */
  lemma MeansAgreeIffOrthogonal(p: Matrix, blocks: seq<Measurement>, information: Matrix)
    requires Symmetric(p) && Ready(p, blocks) && AllSound(blocks, p.rows)
    requires Square(information, p.rows) && Mul(p, information) == Identity(p.rows)
    ensures MeansAgree(p, blocks) <==> Orthogonal(p, blocks)
  {
    hide Mul, Identity, SequentialMean, BatchMean, Orthogonal, Symmetric, PositiveDefinite, Variant;
    if Orthogonal(p, blocks) {
      forall other | Variant(blocks, other)
        ensures Ready(p, other) && AllSound(other, p.rows) && SequentialMean(p, other) == BatchMean(p, other)
      {
        VariantIsReady(p, blocks, other);
        SameRows(blocks, other);
        OrthogonalRowsOnly(p, blocks, other);
        OrthogonalBlocksAgree(p, other, information);
      }
    }
    if MeansAgree(p, blocks) {
      AgreementNeedsOrthogonal(p, blocks, information);
    }
  }
}
