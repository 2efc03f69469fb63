/** The strapdown navigation equations in a local east-north-up frame, over exact reals. */
module Strapdown {
  import opened Rotations
  import opened Timestamps

  const GRAVITY := Vec(0.0, 0.0, -9.80665)

  /** One inertial sample: specific force and angular rate in the body frame. */
  datatype Sample = Sample(timestamp: Timestamp, force: Vec, rate: Vec)

  /** Position and velocity in the local frame, and the rotation from body to local frame. */
  datatype Motion = Motion(p: Vec, v: Vec, q: Rotation)

  /** One coordinate after time t under constant acceleration. */
  function Moved(p: real, v: real, a: real, t: real): real { p + v * t + 0.5 * a * t * t }

  function Sped(v: real, a: real, t: real): real { v + a * t }

  function Displaced(p: Vec, v: Vec, a: Vec, t: real): Vec {
    Vec(Moved(p.x, v.x, a.x, t), Moved(p.y, v.y, a.y, t), Moved(p.z, v.z, a.z, t))
  }

  function Accelerated(v: Vec, a: Vec, t: real): Vec { Vec(Sped(v.x, a.x, t), Sped(v.y, a.y, t), Sped(v.z, a.z, t)) }

  /** One step with constant bias-corrected force and rate; exp maps a rotation vector to a unit quaternion. */
  function Propagate(exp: Vec -> Rotation, m: Motion, force: Vec, rate: Vec, dt: real): Motion {
    var a := m.q.Rotate(force).Plus(GRAVITY);
    Motion(Displaced(m.p, m.v, a, dt), Accelerated(m.v, a, dt), Compose(m.q, exp(rate.Times(dt))))
  }

  // Rotations act linearly on displaced and accelerated vectors.

  lemma RowOfMoved(a: real, b: real, c: real, p0: real, p1: real, p2: real, v0: real, v1: real, v2: real,
                   f0: real, f1: real, f2: real, t: real)
    ensures Row(a, b, c, Moved(p0, v0, f0, t), Moved(p1, v1, f1, t), Moved(p2, v2, f2, t))
         == Moved(Row(a, b, c, p0, p1, p2), Row(a, b, c, v0, v1, v2), Row(a, b, c, f0, f1, f2), t)
    ensures Row(a, b, c, Sped(v0, f0, t), Sped(v1, f1, t), Sped(v2, f2, t))
         == Sped(Row(a, b, c, v0, v1, v2), Row(a, b, c, f0, f1, f2), t)
  {
    assert Row(a, b, c, p0 + v0 * t + 0.5 * f0 * t * t, p1 + v1 * t + 0.5 * f1 * t * t,
               p2 + v2 * t + 0.5 * f2 * t * t)
        == Moved(a * p0 + b * p1 + c * p2, a * v0 + b * v1 + c * v2, a * f0 + b * f1 + c * f2, t);
    assert Row(a, b, c, v0 + f0 * t, v1 + f1 * t, v2 + f2 * t)
        == Sped(a * v0 + b * v1 + c * v2, a * f0 + b * f1 + c * f2, t);
  }

  lemma ApplyDisplaced(m: Mat3, p: Vec, v: Vec, a: Vec, t: real)
    ensures m.Apply(Displaced(p, v, a, t)) == Displaced(m.Apply(p), m.Apply(v), m.Apply(a), t)
    ensures m.Apply(Accelerated(v, a, t)) == Accelerated(m.Apply(v), m.Apply(a), t)
  {
    hide Row, Moved, Sped;
    RowOfMoved(m.r0.x, m.r0.y, m.r0.z, p.x, p.y, p.z, v.x, v.y, v.z, a.x, a.y, a.z, t);
    RowOfMoved(m.r1.x, m.r1.y, m.r1.z, p.x, p.y, p.z, v.x, v.y, v.z, a.x, a.y, a.z, t);
    RowOfMoved(m.r2.x, m.r2.y, m.r2.z, p.x, p.y, p.z, v.x, v.y, v.z, a.x, a.y, a.z, t);
  }

  lemma MovedTwice(p: real, v: real, g: real, a: real, b: real, c: real, t: real, h: real)
    ensures Moved(p, v, g, t + h) + Moved(a, b, c, h) == Moved(Moved(p, v, g, t) + a, Sped(v, g, t) + b, c + g, h)
    ensures Sped(v, g, t + h) + Sped(b, c, h) == Sped(Sped(v, g, t) + b, c + g, h)
  {
  }

  /** Moving by t + h under g and adding a displacement over h is moving by t, adding, then moving by h under both. */
  lemma DisplacedTwice(p: Vec, v: Vec, g: Vec, a: Vec, b: Vec, c: Vec, t: real, h: real)
    ensures Displaced(p, v, g, t + h).Plus(Displaced(a, b, c, h))
         == Displaced(Displaced(p, v, g, t).Plus(a), Accelerated(v, g, t).Plus(b), c.Plus(g), h)
    ensures Accelerated(v, g, t + h).Plus(Accelerated(b, c, h))
         == Accelerated(Accelerated(v, g, t).Plus(b), c.Plus(g), h)
  {
    hide Moved, Sped;
    MovedTwice(p.x, v.x, g.x, a.x, b.x, c.x, t, h);
    MovedTwice(p.y, v.y, g.y, a.y, b.y, c.y, t, h);
    MovedTwice(p.z, v.z, g.z, a.z, b.z, c.z, t, h);
  }

  function DisplacedRows(p: Mat3, v: Mat3, a: Mat3, t: real): Mat3 {
    Mat3(Displaced(p.r0, v.r0, a.r0, t), Displaced(p.r1, v.r1, a.r1, t), Displaced(p.r2, v.r2, a.r2, t))
  }

  function AcceleratedRows(v: Mat3, a: Mat3, t: real): Mat3 {
    Mat3(Accelerated(v.r0, a.r0, t), Accelerated(v.r1, a.r1, t), Accelerated(v.r2, a.r2, t))
  }

  lemma RowSwaps(a: real, b: real, c: real, x: real, y: real, z: real)
    ensures Row(a, b, c, x, y, z) == Row(x, y, z, a, b, c)
  {
  }

  lemma InnerOfDisplaced(p: Vec, v: Vec, a: Vec, d: Vec, t: real)
    ensures Displaced(p, v, a, t).Inner(d) == Moved(p.Inner(d), v.Inner(d), a.Inner(d), t)
    ensures Accelerated(v, a, t).Inner(d) == Sped(v.Inner(d), a.Inner(d), t)
  {
    hide Row, Moved, Sped;
    RowOfMoved(d.x, d.y, d.z, p.x, p.y, p.z, v.x, v.y, v.z, a.x, a.y, a.z, t);
    RowSwaps(p.x, p.y, p.z, d.x, d.y, d.z);
    RowSwaps(v.x, v.y, v.z, d.x, d.y, d.z);
    RowSwaps(a.x, a.y, a.z, d.x, d.y, d.z);
    var m, s := Displaced(p, v, a, t), Accelerated(v, a, t);
    RowSwaps(m.x, m.y, m.z, d.x, d.y, d.z);
    RowSwaps(s.x, s.y, s.z, d.x, d.y, d.z);
  }

  lemma RowsApplied(p: Mat3, v: Mat3, a: Mat3, d: Vec, t: real)
    ensures DisplacedRows(p, v, a, t).Apply(d) == Displaced(p.Apply(d), v.Apply(d), a.Apply(d), t)
    ensures AcceleratedRows(v, a, t).Apply(d) == Accelerated(v.Apply(d), a.Apply(d), t)
  {
    InnerOfDisplaced(p.r0, v.r0, a.r0, d, t);
    InnerOfDisplaced(p.r1, v.r1, a.r1, d, t);
    InnerOfDisplaced(p.r2, v.r2, a.r2, d, t);
    hide Vec.Inner, Moved, Sped;
  }

  lemma MovedMinus(p: real, v: real, f: real, a: real, b: real, c: real, t: real)
    ensures Moved(p - a, v - b, f - c, t) == Moved(p, v, f, t) - Moved(a, b, c, t)
    ensures Sped(v - b, f - c, t) == Sped(v, f, t) - Sped(b, c, t)
  {
  }

  lemma DisplacedMinus(p: Vec, v: Vec, f: Vec, a: Vec, b: Vec, c: Vec, t: real)
    ensures Displaced(p.Minus(a), v.Minus(b), f.Minus(c), t) == Displaced(p, v, f, t).Minus(Displaced(a, b, c, t))
    ensures Accelerated(v.Minus(b), f.Minus(c), t) == Accelerated(v, f, t).Minus(Accelerated(b, c, t))
  {
    hide Moved, Sped;
    MovedMinus(p.x, v.x, f.x, a.x, b.x, c.x, t);
    MovedMinus(p.y, v.y, f.y, a.y, b.y, c.y, t);
    MovedMinus(p.z, v.z, f.z, a.z, b.z, c.z, t);
  }

  // Steps with the same acceleration add up, and what gravity does.

  lemma MovedOn(p: real, v: real, a: real, t: real, h: real)
    ensures Moved(Moved(p, v, a, t), Sped(v, a, t), a, h) == Moved(p, v, a, t + h)
    ensures Sped(Sped(v, a, t), a, h) == Sped(v, a, t + h)
  {
  }

  lemma DisplacedOn(p: Vec, v: Vec, a: Vec, t: real, h: real)
    ensures Displaced(Displaced(p, v, a, t), Accelerated(v, a, t), a, h) == Displaced(p, v, a, t + h)
    ensures Accelerated(Accelerated(v, a, t), a, h) == Accelerated(v, a, t + h)
  {
    hide Moved, Sped;
    MovedOn(p.x, v.x, a.x, t, h);
    MovedOn(p.y, v.y, a.y, t, h);
    MovedOn(p.z, v.z, a.z, t, h);
  }

  lemma NoTurn(exp: Vec -> Rotation, q: Rotation, dt: real)
    requires exp(ZeroVec) == NoRotation
    ensures Compose(q, exp(ZeroVec.Times(dt))) == q
  {
    assert ZeroVec.Times(dt) == ZeroVec;
    NoRotationNeutral(q);
  }

  /** Without specific force a vehicle falls: 9.80665 m/s^2 downwards, nothing sideways. */
  lemma FallsFreely(exp: Vec -> Rotation, m: Motion, rate: Vec, dt: real)
    ensures var n := Propagate(exp, m, ZeroVec, rate, dt);
            && n.v == Vec(m.v.x, m.v.y, m.v.z - 9.80665 * dt)
            && n.p == Vec(m.p.x + m.v.x * dt, m.p.y + m.v.y * dt, m.p.z + m.v.z * dt - 4.903325 * dt * dt)
  {
    ApplyLinear(m.q.Matrix(), ZeroVec, ZeroVec, 0.0);
    hide Mat3.Apply, MatrixOf, Quat.Mul;
    assert ZeroVec.Times(0.0) == ZeroVec && m.q.Rotate(ZeroVec) == m.q.Rotate(ZeroVec).Times(0.0);
    assert m.q.Rotate(ZeroVec).Plus(GRAVITY) == GRAVITY;
  }

  /** A force that just carries the weight, and no rate: straight on at the same speed. */
  lemma CarriedStraightOn(exp: Vec -> Rotation, m: Motion, force: Vec, dt: real)
    requires exp(ZeroVec) == NoRotation && m.q.Rotate(force) == Vec(0.0, 0.0, 9.80665)
    ensures Propagate(exp, m, force, ZeroVec, dt) == Motion(m.p.Plus(m.v.Times(dt)), m.v, m.q)
  {
    hide Mat3.Apply, MatrixOf, Quat.Mul, Quat.Rotate, Compose;
    NoTurn(exp, m.q, dt);
    assert m.q.Rotate(force).Plus(GRAVITY) == ZeroVec;
  }
}
