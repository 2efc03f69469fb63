/** The Joseph-form measurement update shared by the EKF measurement models. */
module EkfUpdates {
  import opened Matrices

  function Symmetrize(p: Matrix): Matrix
    requires p.rows == p.cols
  {
    Scale(0.5, Add(p, Transpose(p)))
  }

  predicate Square(p: Matrix, n: nat) { p.rows == n && p.cols == n }

  predicate Symmetric(p: Matrix) { p.rows == p.cols && Transpose(p) == p }

  /** x^T P x, the variance of the state along x. */
  function Quadratic(p: Matrix, x: Matrix): real
    requires p.rows == p.cols == x.rows && x.cols == 1
  {
    At(Mul(Mul(Transpose(x), p), x), 0, 0)
  }

  ghost predicate PositiveSemidefinite(p: Matrix) {
    p.rows == p.cols && forall x: Matrix | x.rows == p.rows && x.cols == 1 :: Quadratic(p, x) >= 0.0
  }

  ghost predicate Covariance(p: Matrix, n: nat) {
    Square(p, n) && Symmetric(p) && PositiveSemidefinite(p)
  }

  predicate Inverse(a: Matrix, b: Matrix) {
    a.rows == a.cols == b.rows == b.cols && Mul(a, b) == Identity(a.rows) == Mul(b, a)
  }

  predicate Shapes(p: Matrix, h: Matrix, r: Matrix) {
    p.rows == p.cols == h.cols && r.rows == r.cols == h.rows
  }

  function InnovationCovariance(p: Matrix, h: Matrix, r: Matrix): Matrix
    requires Shapes(p, h, r)
  {
    Add(Mul(h, Mul(p, Transpose(h))), r)
  }

  /** (I - K H) P (I - K H)^T + K R K^T, symmetrised. */
  function Joseph(p: Matrix, k: Matrix, h: Matrix, r: Matrix): Matrix
    requires Shapes(p, h, r) && k.rows == p.rows && k.cols == h.rows
  {
    var ikh := Sub(Identity(p.rows), Mul(k, h));
    Symmetrize(Add(Mul(Mul(ikh, p), Transpose(ikh)), Mul(Mul(k, r), Transpose(k))))
  }

  // ---- Symmetry and positive semidefiniteness --------------------------------------------

  lemma SymmetrizeIsSymmetric(p: Matrix)
    requires p.rows == p.cols
    ensures Symmetric(Symmetrize(p))
  {
    var t := Transpose(p);
    TransposeScale(0.5, Add(p, t));
    TransposeAdd(p, t);
    TransposeTwice(p);
    SameEntries(Add(t, p), Add(p, t));
  }

  lemma SymmetrizeKeeps(p: Matrix)
    requires Symmetric(p)
    ensures Symmetrize(p) == p
  {
    SameEntries(Symmetrize(p), p);
  }

  lemma QuadraticAdd(p: Matrix, q: Matrix, x: Matrix)
    requires p.rows == p.cols == q.rows == q.cols == x.rows && x.cols == 1
    ensures Quadratic(Add(p, q), x) == Quadratic(p, x) + Quadratic(q, x)
    ensures Quadratic(Sub(p, q), x) == Quadratic(p, x) - Quadratic(q, x)
  {
    var t := Transpose(x);
    MulAddRight(t, p, q);
    MulAddLeft(Mul(t, p), Mul(t, q), x);
  }

  lemma QuadraticScale(c: real, p: Matrix, x: Matrix)
    requires p.rows == p.cols == x.rows && x.cols == 1
    ensures Quadratic(Scale(c, p), x) == c * Quadratic(p, x)
  {
    hide Mul, Scale, Transpose, At;
    var row := Transpose(x);
    MulScale(c, row, p);
    MulScale(c, Mul(row, p), x);
    ScaleAt(c, Mul(Mul(row, p), x), 0, 0);
  }

  lemma QuadraticTranspose(p: Matrix, x: Matrix)
    requires p.rows == p.cols == x.rows && x.cols == 1
    ensures Quadratic(Transpose(p), x) == Quadratic(p, x)
  {
    var t := Transpose(x);
    TransposeMul(t, p);
    TransposeMul(Mul(t, p), x);
    TransposeTwice(x);
    MulAssoc(t, Transpose(p), x);
    var q := Mul(Mul(t, p), x);
    assert At(Transpose(q), 0, 0) == At(q, 0, 0);
  }

  lemma QuadraticScaledSum(c: real, p: Matrix, q: Matrix, x: Matrix)
    requires p.rows == p.cols == q.rows == q.cols == x.rows && x.cols == 1
    ensures Quadratic(Scale(c, Add(p, q)), x) == c * (Quadratic(p, x) + Quadratic(q, x))
  {
    hide *;
    var sum := Add(p, q);
    var u, v, w := Quadratic(p, x), Quadratic(q, x), Quadratic(sum, x);
    assert w == u + v by { QuadraticAdd(p, q, x); }
    assert Quadratic(Scale(c, sum), x) == c * w by { QuadraticScale(c, sum, x); }
  }

  lemma QuadraticSymmetrize(p: Matrix, x: Matrix)
    requires p.rows == p.cols == x.rows && x.cols == 1
    ensures Quadratic(Symmetrize(p), x) == Quadratic(p, x)
  {
    hide Quadratic, Scale, Add, Transpose;
    QuadraticTranspose(p, x);
    QuadraticScaledSum(0.5, p, Transpose(p), x);
  }

  /** x^T (A P A^T) x is the variance of P along A^T x. */
  lemma QuadraticCongruence(a: Matrix, p: Matrix, x: Matrix)
    requires p.rows == p.cols == a.cols && x.rows == a.rows && x.cols == 1
    ensures Quadratic(Mul(Mul(a, p), Transpose(a)), x) == Quadratic(p, Mul(Transpose(a), x))
  {
    var t, at := Transpose(x), Transpose(a);
    TransposeMul(at, x);
    TransposeTwice(a);
    MulAssoc(t, Mul(a, p), at);
    MulAssoc(t, a, p);
    MulAssoc(Mul(Mul(t, a), p), at, x);
  }

  lemma JosephQuadratic(p: Matrix, k: Matrix, h: Matrix, r: Matrix, x: Matrix)
    requires Shapes(p, h, r) && k.rows == p.rows && k.cols == h.rows && x.rows == p.rows && x.cols == 1
    ensures Quadratic(Joseph(p, k, h, r), x)
         == Quadratic(p, Mul(Transpose(Sub(Identity(p.rows), Mul(k, h))), x)) + Quadratic(r, Mul(Transpose(k), x))
  {
    var ikh := Sub(Identity(p.rows), Mul(k, h));
    var a, b := Mul(Mul(ikh, p), Transpose(ikh)), Mul(Mul(k, r), Transpose(k));
    QuadraticSymmetrize(Add(a, b), x);
    QuadraticAdd(a, b, x);
    QuadraticCongruence(ikh, p, x);
    QuadraticCongruence(k, r, x);
  }

  /** Whatever the gain, the Joseph update returns a covariance. */
  lemma JosephIsCovariance(p: Matrix, k: Matrix, h: Matrix, r: Matrix)
    requires Shapes(p, h, r) && k.rows == p.rows && k.cols == h.rows
    requires PositiveSemidefinite(p) && PositiveSemidefinite(r)
    ensures Covariance(Joseph(p, k, h, r), p.rows)
  {
    var ikh := Sub(Identity(p.rows), Mul(k, h));
    SymmetrizeIsSymmetric(Add(Mul(Mul(ikh, p), Transpose(ikh)), Mul(Mul(k, r), Transpose(k))));
    forall x: Matrix | x.rows == p.rows && x.cols == 1 ensures Quadratic(Joseph(p, k, h, r), x) >= 0.0 {
      JosephQuadratic(p, k, h, r, x);
    }
  }

  // ---- The optimal gain ------------------------------------------------------------------

  lemma InnovationSymmetric(p: Matrix, h: Matrix, r: Matrix)
    requires Shapes(p, h, r) && Symmetric(p) && Symmetric(r)
    ensures Symmetric(InnovationCovariance(p, h, r))
  {
    var ht := Transpose(h);
    TransposeTwice(h);
    TransposeMul(p, ht);
    TransposeMul(h, Mul(p, ht));
    MulAssoc(h, p, ht);
    TransposeAdd(Mul(h, Mul(p, ht)), r);
  }

  /** The expansion of (I - K H) P (I - K H)^T. */
  lemma ExpandCongruence(p: Matrix, k: Matrix, h: Matrix)
    requires p.rows == p.cols == h.cols == k.rows && k.cols == h.rows
    ensures Mul(Mul(Sub(Identity(p.rows), Mul(k, h)), p), Transpose(Sub(Identity(p.rows), Mul(k, h))))
         == Sub(Sub(p, Mul(k, Mul(h, p))),
                Sub(Mul(Mul(p, Transpose(h)), Transpose(k)),
                    Mul(Mul(k, Mul(h, Mul(p, Transpose(h)))), Transpose(k))))
  {
    var n, kh, kt, ht := p.rows, Mul(k, h), Transpose(k), Transpose(h);
    var id, pht := Identity(n), Mul(p, ht);
    var ikh := Sub(id, kh);
    MulAddLeft(id, kh, p);
    MulIdentity(p);
    MulAssoc(k, h, p);
    var ap := Mul(ikh, p);
    assert ap == Sub(p, Mul(k, Mul(h, p)));
    TransposeAdd(id, kh);
    TransposeIdentity(n);
    TransposeMul(k, h);
    MulAddRight(ap, id, Mul(ht, kt));
    MulIdentity(ap);
    MulAssoc(ap, ht, kt);
    MulAddLeft(p, Mul(k, Mul(h, p)), ht);
    MulAssoc(k, Mul(h, p), ht);
    MulAssoc(h, p, ht);
    MulAddLeft(pht, Mul(k, Mul(h, pht)), kt);
  }

  /** With the Kalman gain the Joseph form is P - K S K^T. */
  lemma JosephWithOptimalGain(p: Matrix, k: Matrix, h: Matrix, r: Matrix)
    requires Shapes(p, h, r) && k.rows == p.rows && k.cols == h.rows
    requires Symmetric(p) && Symmetric(r)
    requires Mul(k, InnovationCovariance(p, h, r)) == Mul(p, Transpose(h))
    ensures Joseph(p, k, h, r) == Sub(p, Mul(Mul(k, InnovationCovariance(p, h, r)), Transpose(k)))
  {
    var s, kt, ht := InnovationCovariance(p, h, r), Transpose(k), Transpose(h);
    var pht := Mul(p, ht);
    var ksk := Mul(Mul(k, s), kt);
    InnovationSymmetric(p, h, r);
    // H P = S K^T
    TransposeTwice(h);
    TransposeMul(p, ht);
    TransposeMul(k, s);
    assert Mul(h, p) == Mul(s, kt);
    MulAssoc(k, s, kt);
    // K (H P H^T) K^T + K R K^T = K S K^T
    MulAddRight(k, Mul(h, pht), r);
    MulAddLeft(Mul(k, Mul(h, pht)), Mul(k, r), kt);
    ExpandCongruence(p, k, h);
    var ikh := Sub(Identity(p.rows), Mul(k, h));
    var sum := Add(Mul(Mul(ikh, p), Transpose(ikh)), Mul(Mul(k, r), kt));
    var a, b := Mul(Mul(k, Mul(h, pht)), kt), Mul(Mul(k, r), kt);
    assert ksk == Add(a, b);
    CollectTerms(p, ksk, a, b);
    assert sum == Sub(p, ksk);
    // the difference is symmetric already
    TransposeMul(Mul(k, s), kt);
    TransposeTwice(k);
    TransposeAdd(p, ksk);
    SymmetrizeKeeps(Sub(p, ksk));
  }

  lemma CollectTerms(p: Matrix, x: Matrix, a: Matrix, b: Matrix)
    requires p.rows == x.rows == a.rows == b.rows && p.cols == x.cols == a.cols == b.cols
    requires x == Add(a, b)
    ensures Add(Sub(Sub(p, x), Sub(x, a)), b) == Sub(p, x)
  {
    forall i, j | 0 <= i < p.rows && 0 <= j < p.cols
      ensures At(Add(Sub(Sub(p, x), Sub(x, a)), b), i, j) == At(Sub(p, x), i, j)
    {
      assert At(x, i, j) == At(a, i, j) + At(b, i, j);
    }
    SameEntries(Add(Sub(Sub(p, x), Sub(x, a)), b), Sub(p, x));
  }

  function Gain(p: Matrix, h: Matrix, sInv: Matrix): (k: Matrix)
    requires p.cols == h.cols && sInv.rows == sInv.cols == h.rows
    ensures k.rows == p.rows && k.cols == h.rows
  {
    Mul(Mul(p, Transpose(h)), sInv)
  }

  lemma GainIsOptimal(p: Matrix, h: Matrix, r: Matrix, sInv: Matrix)
    requires Shapes(p, h, r) && Inverse(InnovationCovariance(p, h, r), sInv)
    ensures Mul(Gain(p, h, sInv), InnovationCovariance(p, h, r)) == Mul(p, Transpose(h))
  {
    var pht := Mul(p, Transpose(h));
    MulAssoc(pht, sInv, InnovationCovariance(p, h, r));
    MulIdentity(pht);
  }

  /** With the Kalman gain the updated covariance is (I - K H) P, and K R is P' H^T. */
  lemma JosephReduced(p: Matrix, k: Matrix, h: Matrix, r: Matrix)
    requires Shapes(p, h, r) && k.rows == p.rows && k.cols == h.rows
    requires Symmetric(p) && Symmetric(r)
    requires Mul(k, InnovationCovariance(p, h, r)) == Mul(p, Transpose(h))
    ensures Joseph(p, k, h, r) == Sub(p, Mul(k, Mul(h, p)))
    ensures Mul(Joseph(p, k, h, r), Transpose(h)) == Mul(k, r)
  {
    var s, kt, ht := InnovationCovariance(p, h, r), Transpose(k), Transpose(h);
    var hp, pht := Mul(h, p), Mul(p, ht);
    InnovationSymmetric(p, h, r);
    TransposeTwice(h);
    TransposeMul(p, ht);
    TransposeMul(k, s);
    MulAssoc(k, s, kt);
    JosephWithOptimalGain(p, k, h, r);
    MulAddLeft(p, Mul(k, hp), ht);
    MulAssoc(k, hp, ht);
    MulAssoc(h, p, ht);
    MulAddRight(k, Mul(h, pht), r);
    var a, b := Mul(k, Mul(h, pht)), Mul(k, r);
    AddAssoc(a, b, a);
    SubCancels(b, a);
  }

  /** P' (P^-1 + H^T R^-1 H) = I: the update adds the information of the measurement. */
  lemma InformationForm(p: Matrix, k: Matrix, h: Matrix, r: Matrix, information: Matrix, rInv: Matrix)
    requires Shapes(p, h, r) && k.rows == p.rows && k.cols == h.rows
    requires Symmetric(p) && Symmetric(r)
    requires Mul(k, InnovationCovariance(p, h, r)) == Mul(p, Transpose(h))
    requires Square(information, p.rows) && Mul(p, information) == Identity(p.rows)
    requires Inverse(r, rInv)
    ensures Mul(Joseph(p, k, h, r), Add(information, Mul(Mul(Transpose(h), rInv), h))) == Identity(p.rows)
  {
    var after, ht, id := Joseph(p, k, h, r), Transpose(h), Identity(p.rows);
    var kh := Mul(k, h);
    JosephReduced(p, k, h, r);
    // P' P^-1 = I - K H
    MulAssoc(k, h, p);
    MulAddLeft(p, Mul(kh, p), information);
    MulAssoc(kh, p, information);
    MulIdentity(kh);
    assert Mul(after, information) == Sub(id, kh);
    // P' H^T R^-1 H = K H
    MulAssoc(after, Mul(ht, rInv), h);
    MulAssoc(after, ht, rInv);
    MulAssoc(k, r, rInv);
    MulIdentity(k);
    assert Mul(after, Mul(Mul(ht, rInv), h)) == kh;
    MulAddRight(after, information, Mul(Mul(ht, rInv), h));
    SubCancels(id, kh);
  }

  /** A symmetric inverse from one side is the only inverse from either side. */
  lemma InverseUnique(p: Matrix, q: Matrix, information: Matrix)
    requires Symmetric(p) && Square(q, p.rows) && Square(information, p.rows)
    requires Mul(p, information) == Identity(p.rows) && Mul(q, information) == Identity(p.rows)
    requires Symmetric(information)
    ensures p == q
  {
    TransposeMul(p, information);
    TransposeIdentity(p.rows);
    MulAssoc(q, information, p);
    MulIdentity(p);
    MulIdentity(q);
  }

  lemma InformationSymmetric(p: Matrix, information: Matrix)
    requires Symmetric(p) && Square(information, p.rows) && Mul(p, information) == Identity(p.rows)
    ensures Symmetric(information)
    ensures Mul(information, p) == Identity(p.rows)
  {
    var t := Transpose(information);
    TransposeMul(p, information);
    TransposeIdentity(p.rows);
    MulAssoc(t, p, information);
    MulIdentity(information);
    MulIdentity(t);
  }

  /** The innovation covariance of a covariance is positive semidefinite. */
  lemma InnovationPositive(p: Matrix, h: Matrix, r: Matrix)
    requires Shapes(p, h, r) && PositiveSemidefinite(p) && PositiveSemidefinite(r)
    ensures PositiveSemidefinite(InnovationCovariance(p, h, r))
  {
    forall x: Matrix | x.rows == h.rows && x.cols == 1
      ensures Quadratic(InnovationCovariance(p, h, r), x) >= 0.0
    {
      MulAssoc(h, p, Transpose(h));
      QuadraticAdd(Mul(Mul(h, p), Transpose(h)), r, x);
      QuadraticCongruence(h, p, x);
      assert Quadratic(r, x) >= 0.0;
    }
  }

  /** An optimal update never increases the variance in any direction. */
  lemma VarianceDoesNotGrow(p: Matrix, k: Matrix, h: Matrix, r: Matrix, x: Matrix)
    requires Shapes(p, h, r) && k.rows == p.rows && k.cols == h.rows
    requires Symmetric(p) && Symmetric(r) && PositiveSemidefinite(p) && PositiveSemidefinite(r)
    requires Mul(k, InnovationCovariance(p, h, r)) == Mul(p, Transpose(h))
    requires x.rows == p.rows && x.cols == 1
    ensures 0.0 <= Quadratic(Joseph(p, k, h, r), x) <= Quadratic(p, x)
  {
    var s := InnovationCovariance(p, h, r);
    JosephIsCovariance(p, k, h, r);
    JosephWithOptimalGain(p, k, h, r);
    InnovationPositive(p, h, r);
    QuadraticAdd(p, Mul(Mul(k, s), Transpose(k)), x);
    QuadraticCongruence(k, s, x);
    assert Quadratic(s, Mul(Transpose(k), x)) >= 0.0;
  }

  // ---- One update and whole runs ---------------------------------------------------------

  datatype Outcome = Accepted | Rejected | NotInitialized

  datatype Estimate = Estimate(error: Matrix, covariance: Matrix)

  /** A linearised measurement; sInverse stands for the inverse that Eigen computes. */
  datatype Measurement = Measurement(h: Matrix, dz: Matrix, r: Matrix, sInverse: Matrix)

  /** What the update needs: matching shapes and an inverse of the innovation covariance. */
  predicate Usable(m: Measurement, p: Matrix) {
    Shapes(p, m.h, m.r) && m.dz.rows == m.h.rows && m.dz.cols == 1
    && Inverse(InnovationCovariance(p, m.h, m.r), m.sInverse)
  }

  /** The innovation lies outside the Mahalanobis gate; a gate of zero is off. */
  predicate Gated(m: Measurement, gate: real)
    requires m.sInverse.rows == m.sInverse.cols == m.dz.rows && m.dz.cols == 1
  {
    gate > 0.0 && Quadratic(m.sInverse, m.dz) > gate
  }

  /** With the innovation whitened by W, where W^T W is S^-1, the gate bounds its squared length. */
  lemma GateBoundsWhitened(m: Measurement, gate: real, w: Matrix)
    requires m.dz.cols == 1 && w.cols == m.dz.rows && Mul(Transpose(w), w) == m.sInverse
    ensures m.sInverse.rows == m.sInverse.cols == m.dz.rows
    ensures var u := Mul(w, m.dz);
            Gated(m, gate) <==> gate > 0.0 && At(Mul(Transpose(u), u), 0, 0) > gate
  {
    var t := Transpose(m.dz);
    MulAssoc(t, Transpose(w), w);
    MulAssoc(Mul(t, Transpose(w)), w, m.dz);
    TransposeMul(w, m.dz);
  }

  function UpdatedCovariance(p: Matrix, m: Measurement, gate: real): (after: Matrix)
    requires Usable(m, p)
    ensures Square(after, p.rows)
  {
    if Gated(m, gate) then p else Joseph(p, Gain(p, m.h, m.sInverse), m.h, m.r)
  }

  function Updated(e: Estimate, m: Measurement, gate: real): Estimate
    requires Usable(m, e.covariance) && e.error.rows == e.covariance.rows && e.error.cols == 1
  {
    Estimate(if Gated(m, gate) then e.error else Add(e.error, Mul(Gain(e.covariance, m.h, m.sInverse), m.dz)),
             UpdatedCovariance(e.covariance, m, gate))
  }

  class FilterState {
    var errorState: Matrix
    var covariance: Matrix

    constructor (error: Matrix, p: Matrix)
      ensures errorState == error && covariance == p
    {
      errorState, covariance := error, p;
    }

    function Current(): Estimate
      reads this
    {
      Estimate(errorState, covariance)
    }
  }

  method EkfUpdate(filter: FilterState, m: Measurement, gate: real) returns (outcome: Outcome)
    requires Usable(m, filter.covariance)
    requires filter.errorState.rows == filter.covariance.rows && filter.errorState.cols == 1
    modifies filter
    ensures filter.Current() == Updated(old(filter.Current()), m, gate)
    ensures outcome == if Gated(m, gate) then Rejected else Accepted
  {
    var n := filter.covariance.rows;
    var pht := Mul(filter.covariance, Transpose(m.h));
    if gate > 0.0 {
      var mahalanobis := Quadratic(m.sInverse, m.dz);
      if mahalanobis > gate {
        return Rejected;
      }
    }
    var k := Mul(pht, m.sInverse);
    filter.errorState := Add(filter.errorState, Mul(k, m.dz));
    var ikh := Sub(Identity(n), Mul(k, m.h));
    filter.covariance := Add(Mul(Mul(ikh, filter.covariance), Transpose(ikh)), Mul(Mul(k, m.r), Transpose(k)));
    filter.covariance := Symmetrize(filter.covariance);
    return Accepted;
  }

  /** One step of a filter run: a propagation with its transition and noise, or an update. */
  datatype Event =
    | Propagate(phi: Matrix, noise: Matrix)
    | Update(measurement: Measurement, gate: real)

  /** Phi P Phi^T + Q, symmetrised. */
  function Propagated(p: Matrix, phi: Matrix, noise: Matrix): (after: Matrix)
    requires p.rows == p.cols == phi.rows == phi.cols == noise.rows == noise.cols
    ensures Square(after, p.rows)
  {
    Symmetrize(Add(Mul(Mul(phi, p), Transpose(phi)), noise))
  }

  ghost predicate Possible(event: Event, p: Matrix) {
    p.rows == p.cols &&
    match event
    case Propagate(phi, noise) => Square(phi, p.rows) && Square(noise, p.rows) && PositiveSemidefinite(noise)
    case Update(m, gate) => Usable(m, p) && Symmetric(m.r) && PositiveSemidefinite(m.r)
  }

  ghost function After(p: Matrix, event: Event): (after: Matrix)
    requires Possible(event, p)
    ensures Square(after, p.rows)
  {
    match event
    case Propagate(phi, noise) => Propagated(p, phi, noise)
    case Update(m, gate) => UpdatedCovariance(p, m, gate)
  }

  ghost predicate PossibleRun(events: seq<Event>, p: Matrix)
    decreases events
  {
    events == [] || (Possible(events[0], p) && PossibleRun(events[1..], After(p, events[0])))
  }

  ghost function AfterRun(p: Matrix, events: seq<Event>): Matrix
    requires PossibleRun(events, p)
    decreases events
  {
    if events == [] then p else AfterRun(After(p, events[0]), events[1..])
  }

  lemma PropagationIsCovariance(p: Matrix, phi: Matrix, noise: Matrix)
    requires p.rows == p.cols == phi.rows == phi.cols == noise.rows == noise.cols
    requires PositiveSemidefinite(p) && PositiveSemidefinite(noise)
    ensures Covariance(Propagated(p, phi, noise), p.rows)
  {
    var a := Mul(Mul(phi, p), Transpose(phi));
    SymmetrizeIsSymmetric(Add(a, noise));
    forall x: Matrix | x.rows == p.rows && x.cols == 1 ensures Quadratic(Propagated(p, phi, noise), x) >= 0.0 {
      QuadraticSymmetrize(Add(a, noise), x);
      QuadraticAdd(a, noise, x);
      QuadraticCongruence(phi, p, x);
      assert Quadratic(noise, x) >= 0.0;
    }
  }

  /** Every run of propagations and updates keeps a symmetric positive semidefinite covariance. */
  lemma {:induction false} RunKeepsCovariance(p: Matrix, events: seq<Event>)
    requires Covariance(p, p.rows) && PossibleRun(events, p)
    ensures Covariance(AfterRun(p, events), p.rows)
    decreases events
  {
    if events != [] {
      match events[0] {
        case Propagate(phi, noise) => PropagationIsCovariance(p, phi, noise);
        case Update(m, gate) => JosephIsCovariance(p, Gain(p, m.h, m.sInverse), m.h, m.r);
      }
      RunKeepsCovariance(After(p, events[0]), events[1..]);
    }
  }

  lemma UpdateShrinksVariance(p: Matrix, m: Measurement, gate: real, x: Matrix)
    requires Covariance(p, p.rows) && Possible(Update(m, gate), p) && x.rows == p.rows && x.cols == 1
    ensures Covariance(UpdatedCovariance(p, m, gate), p.rows)
    ensures 0.0 <= Quadratic(UpdatedCovariance(p, m, gate), x) <= Quadratic(p, x)
  {
    var k := Gain(p, m.h, m.sInverse);
    GainIsOptimal(p, m.h, m.r, m.sInverse);
    JosephIsCovariance(p, k, m.h, m.r);
    VarianceDoesNotGrow(p, k, m.h, m.r, x);
  }

  /** Along any run of updates the variance in each direction only shrinks. */
  lemma {:induction false} UpdatesNeverGrowVariance(p: Matrix, events: seq<Event>, x: Matrix)
    requires Covariance(p, p.rows) && PossibleRun(events, p) && x.rows == p.rows && x.cols == 1
    requires forall i | 0 <= i < |events| :: events[i].Update?
    ensures Covariance(AfterRun(p, events), p.rows)
    ensures 0.0 <= Quadratic(AfterRun(p, events), x) <= Quadratic(p, x)
    decreases events
  {
    hide Symmetric, Quadratic, UpdatedCovariance, Usable, Gain;
    if events == [] {
      assert Quadratic(p, x) >= 0.0;
    } else {
      var p1 := After(p, events[0]);
      UpdateShrinksVariance(p, events[0].measurement, events[0].gate, x);
      var rest := events[1..];
      assert forall i | 0 <= i < |rest| :: rest[i] == events[i + 1];
      UpdatesNeverGrowVariance(p1, rest, x);
    }
  }
}
