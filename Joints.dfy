/**
 * The prismatic (translational) joint of FarseerPhysics 3.0 (a port of
 * Box2D's): effective-mass matrix, limit state machine, warm starting, the
 * motor and block velocity solver, and position correction, over the part of
 * the 3.0 body that the joint reads and writes.
 */
module Joints {
  import opened Math2D

  datatype LimitState = InactiveLimit | AtLowerLimit | AtUpperLimit | EqualLimits

  /** The TimeStep fields the joint reads. */
  datatype TimeStep = TimeStep(dt: real, invDt: real, dtRatio: real, warmStarting: bool)

  /** The Settings constants the joint reads. */
  datatype SettingsValues = SettingsValues(linearSlop: real, angularSlop: real, maxLinearCorrection: real)

  /** The constants are positive (Box2D ships 0.005, 2 degrees in radians, and 0.2). */
  type Settings = s: SettingsValues | s.linearSlop > 0.0 && s.angularSlop > 0.0 && s.maxLinearCorrection > 0.0
    witness SettingsValues(0.005, 0.0349066, 0.2)

  /**
   * World-oriented vectors that the source obtains by rotating local vectors
   * with body 1's and body 2's rotation matrices: the anchors relative to the
   * centres of mass (r1, r2) and body 1's axis and its perpendicular.
   */
  datatype JointGeometry = JointGeometry(r1: Vec2, r2: Vec2, axis: Vec2, perp: Vec2)

  /** d = c2 + r2 - c1 - r1, the separation of the two anchor points. */
  function Separation(c1: Vec2, c2: Vec2, g: JointGeometry): Vec2 {
    Sub(Add(c2, g.r2), Add(c1, g.r1))
  }

  /**
   * The effective-mass matrix K = J * invM * J^T of the block solver, for the
   * point-to-line row (s1, s2), the angular row and the limit row (a1, a2).
   * It is symmetric, and its diagonal is nonnegative for nonnegative inverse
   * masses and inertias.
   */
  function EffectiveMass(m1: real, m2: real, i1: real, i2: real,
                         s1: real, s2: real, a1: real, a2: real): Mat33
  {
    var k11 := m1 + m2 + i1 * s1 * s1 + i2 * s2 * s2;
    var k12 := i1 * s1 + i2 * s2;
    var k13 := i1 * s1 * a1 + i2 * s2 * a2;
    var k22 := i1 + i2;
    var k23 := i1 * a1 + i2 * a2;
    var k33 := AxialMass(m1, m2, i1, i2, a1, a2);
    Mat33(Vec3(k11, k12, k13), Vec3(k12, k22, k23), Vec3(k13, k23, k33))
  }

  /**
   * K is symmetric, its diagonal is nonnegative for nonnegative inverse
   * masses and inertias, and its limit-row diagonal entry is the axial mass
   * the motor mass inverts.
   */
  lemma EffectiveMassSymmetric(m1: real, m2: real, i1: real, i2: real,
                               s1: real, s2: real, a1: real, a2: real)
    ensures var k := EffectiveMass(m1, m2, i1, i2, s1, s2, a1, a2);
            k.col1.y == k.col2.x && k.col1.z == k.col3.x && k.col2.z == k.col3.y
    ensures EffectiveMass(m1, m2, i1, i2, s1, s2, a1, a2).col3.z == AxialMass(m1, m2, i1, i2, a1, a2)
    ensures var k := EffectiveMass(m1, m2, i1, i2, s1, s2, a1, a2);
            m1 >= 0.0 && m2 >= 0.0 && i1 >= 0.0 && i2 >= 0.0 ==>
              k.col1.x >= 0.0 && k.col2.y >= 0.0 && k.col3.z >= 0.0
  {
    if m1 >= 0.0 && m2 >= 0.0 && i1 >= 0.0 && i2 >= 0.0 {
      WeightedSquareNonnegative(i1, s1);
      WeightedSquareNonnegative(i2, s2);
      WeightedSquareNonnegative(i1, a1);
      WeightedSquareNonnegative(i2, a2);
    }
  }

  lemma WeightedSquareNonnegative(i: real, s: real)
    requires i >= 0.0
    ensures i * s * s >= 0.0
  {
    assert s * s >= 0.0;
    assert i * s * s == i * (s * s);
  }

  /**
   * The motor's effective mass: the reciprocal of the limit row's diagonal
   * entry of K. A zero entry (both bodies without inverse mass) gives 0.
   */
  function MotorMass(m1: real, m2: real, i1: real, i2: real, a1: real, a2: real): real
  {
    var k := AxialMass(m1, m2, i1, i2, a1, a2);
    if k == 0.0 then 0.0 else 1.0 / k
  }

  /** The inverse effective mass along the axis, k33 = m1 + m2 + i1*a1^2 + i2*a2^2. */
  function AxialMass(m1: real, m2: real, i1: real, i2: real, a1: real, a2: real): real {
    m1 + m2 + i1 * a1 * a1 + i2 * a2 * a2
  }

  /** The motor mass inverts the axial mass (K's limit-row diagonal entry), and is 0 where that is. */
  lemma MotorMassInvertsAxialMass(m1: real, m2: real, i1: real, i2: real, a1: real, a2: real)
    ensures var k33 := AxialMass(m1, m2, i1, i2, a1, a2);
            var r := MotorMass(m1, m2, i1, i2, a1, a2);
            (k33 != 0.0 ==> r * k33 == 1.0) && (k33 == 0.0 ==> r == 0.0)
  {
    ReciprocalMass(AxialMass(m1, m2, i1, i2, a1, a2), MotorMass(m1, m2, i1, i2, a1, a2));
  }

  /** A guarded reciprocal inverts every nonzero value. */
  lemma ReciprocalMass(k: real, r: real)
    requires r == if k == 0.0 then 0.0 else 1.0 / k
    ensures (k != 0.0 ==> r * k == 1.0) && (k == 0.0 ==> r == 0.0)
  {
  }

  /**
   * P = impulse.x*perp + (motor + impulse.z)*axis, the linear impulse the
   * joint's accumulated (or incremental) impulses apply: body 1 receives -P,
   * body 2 receives +P.
   */
  function ImpulseLinear(imp: Vec3, motor: real, perp: Vec2, axis: Vec2): Vec2 {
    Add(Scale(imp.x, perp), Scale(motor + imp.z, axis))
  }

  /** L = impulse.x*s + impulse.y + (motor + impulse.z)*a, the matching angular impulse. */
  function ImpulseAngular(imp: Vec3, motor: real, s: real, a: real): real {
    imp.x * s + imp.y + (motor + imp.z) * a
  }

  /** Applying two impulses one after the other is applying their sum. */
  lemma ImpulseIsLinear(p: Vec3, mp: real, q: Vec3, mq: real, perp: Vec2, axis: Vec2, s: real, a: real)
    ensures ImpulseLinear(Add3(p, q), mp + mq, perp, axis)
            == Add(ImpulseLinear(p, mp, perp, axis), ImpulseLinear(q, mq, perp, axis))
    ensures ImpulseAngular(Add3(p, q), mp + mq, s, a)
            == ImpulseAngular(p, mp, s, a) + ImpulseAngular(q, mq, s, a)
  {
    assert (mp + mq + (p.z + q.z)) * axis.x == (mp + p.z) * axis.x + (mq + q.z) * axis.x;
    assert (mp + mq + (p.z + q.z)) * axis.y == (mp + p.z) * axis.y + (mq + q.z) * axis.y;
    assert (p.x + q.x) * perp.x == p.x * perp.x + q.x * perp.x;
    assert (p.x + q.x) * perp.y == p.x * perp.y + q.x * perp.y;
  }

  /** A body's velocity (or sweep centre) after receiving +invMass*P (body 2's side of a joint). */
  function Pushed(v: Vec2, invMass: real, p: Vec2): Vec2 { Add(v, Scale(invMass, p)) }

  /** A body's velocity (or sweep centre) after receiving -invMass*P (body 1's side of a joint). */
  function PushedBack(v: Vec2, invMass: real, p: Vec2): Vec2 { Sub(v, Scale(invMass, p)) }

  /** A body's angular velocity (or sweep angle) after receiving +invI*L. */
  function Turned(w: real, invI: real, l: real): real { w + invI * l }

  /** A body's angular velocity (or sweep angle) after receiving -invI*L. */
  function TurnedBack(w: real, invI: real, l: real): real { w - invI * l }

  /**
   * Receiving the joint impulse of (p, mp) and then that of (q, mq) leaves a
   * body where the single impulse of their sum would, on either side of the
   * joint.
   */
  lemma ImpulsesCompose(v: Vec2, w: real, invMass: real, invI: real,
                        p: Vec3, mp: real, q: Vec3, mq: real, perp: Vec2, axis: Vec2, s: real, a: real)
    ensures PushedBack(PushedBack(v, invMass, ImpulseLinear(p, mp, perp, axis)), invMass, ImpulseLinear(q, mq, perp, axis))
            == PushedBack(v, invMass, ImpulseLinear(Add3(p, q), mp + mq, perp, axis))
    ensures Pushed(Pushed(v, invMass, ImpulseLinear(p, mp, perp, axis)), invMass, ImpulseLinear(q, mq, perp, axis))
            == Pushed(v, invMass, ImpulseLinear(Add3(p, q), mp + mq, perp, axis))
    ensures TurnedBack(TurnedBack(w, invI, ImpulseAngular(p, mp, s, a)), invI, ImpulseAngular(q, mq, s, a))
            == TurnedBack(w, invI, ImpulseAngular(Add3(p, q), mp + mq, s, a))
    ensures Turned(Turned(w, invI, ImpulseAngular(p, mp, s, a)), invI, ImpulseAngular(q, mq, s, a))
            == Turned(w, invI, ImpulseAngular(Add3(p, q), mp + mq, s, a))
  {
    ImpulseIsLinear(p, mp, q, mq, perp, axis, s, a);
    var P, Q := ImpulseLinear(p, mp, perp, axis), ImpulseLinear(q, mq, perp, axis);
    var L, M := ImpulseAngular(p, mp, s, a), ImpulseAngular(q, mq, s, a);
    assert invMass * (P.x + Q.x) == invMass * P.x + invMass * Q.x;
    assert invMass * (P.y + Q.y) == invMass * P.y + invMass * Q.y;
    assert invI * (L + M) == invI * L + invI * M;
  }

  /**
   * A body that has received the accumulated impulse (p, mp) and then the
   * change to (q, mq) has received the accumulated impulse (q, mq).
   */
  lemma AccumulatedImpulse(v: Vec2, w: real, invMass: real, invI: real,
                           p: Vec3, mp: real, q: Vec3, mq: real, perp: Vec2, axis: Vec2, s: real, a: real)
    ensures PushedBack(PushedBack(v, invMass, ImpulseLinear(p, mp, perp, axis)), invMass, ImpulseLinear(Sub3(q, p), mq - mp, perp, axis))
            == PushedBack(v, invMass, ImpulseLinear(q, mq, perp, axis))
    ensures Pushed(Pushed(v, invMass, ImpulseLinear(p, mp, perp, axis)), invMass, ImpulseLinear(Sub3(q, p), mq - mp, perp, axis))
            == Pushed(v, invMass, ImpulseLinear(q, mq, perp, axis))
    ensures TurnedBack(TurnedBack(w, invI, ImpulseAngular(p, mp, s, a)), invI, ImpulseAngular(Sub3(q, p), mq - mp, s, a))
            == TurnedBack(w, invI, ImpulseAngular(q, mq, s, a))
    ensures Turned(Turned(w, invI, ImpulseAngular(p, mp, s, a)), invI, ImpulseAngular(Sub3(q, p), mq - mp, s, a))
            == Turned(w, invI, ImpulseAngular(q, mq, s, a))
  {
    ImpulsesCompose(v, w, invMass, invI, p, mp, Sub3(q, p), mq - mp, perp, axis, s, a);
    assert Add3(p, Sub3(q, p)) == q;
    assert mp + (mq - mp) == mq;
  }

  /** The joint impulse of nothing leaves a body as it was. */
  lemma ZeroImpulse(v: Vec2, w: real, invMass: real, invI: real, imp: Vec3, motor: real,
                    perp: Vec2, axis: Vec2, s: real, a: real)
    requires imp == Zero3 && motor == 0.0
    ensures PushedBack(v, invMass, ImpulseLinear(imp, motor, perp, axis)) == v
    ensures Pushed(v, invMass, ImpulseLinear(imp, motor, perp, axis)) == v
    ensures TurnedBack(w, invI, ImpulseAngular(imp, motor, s, a)) == w
    ensures Turned(w, invI, ImpulseAngular(imp, motor, s, a)) == w
  {
    assert ImpulseLinear(imp, motor, perp, axis) == Zero2;
    assert ImpulseAngular(imp, motor, s, a) == 0.0;
  }

  /**
   * Giving body 1 -invMass1*P and body 2 +invMass2*P conserves the linear
   * momentum of two dynamic bodies.
   */
  lemma OppositeImpulsesConserveMomentum(invMass1: real, invMass2: real, v1: Vec2, v2: Vec2, p: Vec2)
    requires invMass1 > 0.0 && invMass2 > 0.0
    ensures var v1' := Sub(v1, Scale(invMass1, p));
            var v2' := Add(v2, Scale(invMass2, p));
            Add(Scale(1.0 / invMass1, v1'), Scale(1.0 / invMass2, v2'))
            == Add(Scale(1.0 / invMass1, v1), Scale(1.0 / invMass2, v2))
  {
    assert (1.0 / invMass1) * invMass1 == 1.0;
    assert (1.0 / invMass2) * invMass2 == 1.0;
    assert (1.0 / invMass1) * (v1.x - invMass1 * p.x) == (1.0 / invMass1) * v1.x - p.x;
    assert (1.0 / invMass1) * (v1.y - invMass1 * p.y) == (1.0 / invMass1) * v1.y - p.y;
    assert (1.0 / invMass2) * (v2.x + invMass2 * p.x) == (1.0 / invMass2) * v2.x + p.x;
    assert (1.0 / invMass2) * (v2.y + invMass2 * p.y) == (1.0 / invMass2) * v2.y + p.y;
  }

  /**
   * The motor row's new accumulated impulse: the old one plus the motor mass
   * times the shortfall of the axis speed cdot from the motor speed, clamped
   * to +-maxImpulse (maxImpulse = dt * maxMotorForce).
   */
  function MotorUpdate(accumulated: real, motorMass: real, motorSpeed: real, cdot: real, maxImpulse: real): real {
    Clamp(accumulated + motorMass * (motorSpeed - cdot), -maxImpulse, maxImpulse)
  }

  /**
   * For a nonnegative bound the motor impulse stays within it; an
   * unsaturated update reaches exactly the impulse that would bring the
   * axis speed to the motor speed.
   */
  lemma MotorUpdateBounded(accumulated: real, motorMass: real, motorSpeed: real, cdot: real, maxImpulse: real)
    requires maxImpulse >= 0.0
    ensures Abs(MotorUpdate(accumulated, motorMass, motorSpeed, cdot, maxImpulse)) <= maxImpulse
    ensures var target := accumulated + motorMass * (motorSpeed - cdot);
            -maxImpulse <= target <= maxImpulse ==> MotorUpdate(accumulated, motorMass, motorSpeed, cdot, maxImpulse) == target
  {
    ClampBounds(accumulated + motorMass * (motorSpeed - cdot), -maxImpulse, maxImpulse);
  }

  /** Cdot of the motor and limit row: the relative velocity of the anchors along the axis. */
  function AxisSpeed(axis: Vec2, a1: real, a2: real, v1: Vec2, w1: real, v2: Vec2, w2: real): real {
    Dot(axis, Sub(v2, v1)) + a2 * w2 - a1 * w1
  }

  /** Cdot1 of the point-to-line and angular rows. */
  function PerpSpeed(perp: Vec2, s1: real, s2: real, v1: Vec2, w1: real, v2: Vec2, w2: real): Vec2 {
    Vec2(Dot(perp, Sub(v2, v1)) + s2 * w2 - s1 * w1, w2 - w1)
  }

  /**
   * The motor row's impulse followed by the block rows' impulse is the
   * joint impulse of both together.
   */
  lemma MotorThenBlock(v: Vec2, w: real, invMass: real, invI: real, dm: real, df: Vec3,
                       perp: Vec2, axis: Vec2, s: real, a: real)
    ensures PushedBack(PushedBack(v, invMass, ImpulseLinear(Zero3, dm, perp, axis)), invMass, ImpulseLinear(df, 0.0, perp, axis))
            == PushedBack(v, invMass, ImpulseLinear(df, dm, perp, axis))
    ensures Pushed(Pushed(v, invMass, ImpulseLinear(Zero3, dm, perp, axis)), invMass, ImpulseLinear(df, 0.0, perp, axis))
            == Pushed(v, invMass, ImpulseLinear(df, dm, perp, axis))
    ensures TurnedBack(TurnedBack(w, invI, ImpulseAngular(Zero3, dm, s, a)), invI, ImpulseAngular(df, 0.0, s, a))
            == TurnedBack(w, invI, ImpulseAngular(df, dm, s, a))
    ensures Turned(Turned(w, invI, ImpulseAngular(Zero3, dm, s, a)), invI, ImpulseAngular(df, 0.0, s, a))
            == Turned(w, invI, ImpulseAngular(df, dm, s, a))
  {
    ImpulsesCompose(v, w, invMass, invI, Zero3, dm, df, 0.0, perp, axis, s, a);
    assert Add3(Zero3, df) == df;
    assert dm + 0.0 == dm;
  }

  /**
   * MotorThenBlock for the velocities of one body: the motor row's kick
   * followed by the block rows' kick is the kick of the summed change.
   */
  lemma KicksComposeBack(v0: Vec2, w0: real, vm: Vec2, wm: real, v: Vec2, w: real, invMass: real, invI: real,
                         dm: real, df: Vec3, perp: Vec2, axis: Vec2, s: real, a: real)
    requires vm == PushedBack(v0, invMass, ImpulseLinear(Zero3, dm, perp, axis))
    requires wm == TurnedBack(w0, invI, ImpulseAngular(Zero3, dm, s, a))
    requires v == PushedBack(vm, invMass, ImpulseLinear(df, 0.0, perp, axis))
    requires w == TurnedBack(wm, invI, ImpulseAngular(df, 0.0, s, a))
    ensures v == PushedBack(v0, invMass, ImpulseLinear(df, dm, perp, axis))
    ensures w == TurnedBack(w0, invI, ImpulseAngular(df, dm, s, a))
  {
    MotorThenBlock(v0, w0, invMass, invI, dm, df, perp, axis, s, a);
  }

  /** KicksComposeBack for the body that receives +P. */
  lemma KicksCompose(v0: Vec2, w0: real, vm: Vec2, wm: real, v: Vec2, w: real, invMass: real, invI: real,
                     dm: real, df: Vec3, perp: Vec2, axis: Vec2, s: real, a: real)
    requires vm == Pushed(v0, invMass, ImpulseLinear(Zero3, dm, perp, axis))
    requires wm == Turned(w0, invI, ImpulseAngular(Zero3, dm, s, a))
    requires v == Pushed(vm, invMass, ImpulseLinear(df, 0.0, perp, axis))
    requires w == Turned(wm, invI, ImpulseAngular(df, 0.0, s, a))
    ensures v == Pushed(v0, invMass, ImpulseLinear(df, dm, perp, axis))
    ensures w == Turned(w0, invI, ImpulseAngular(df, dm, s, a))
  {
    MotorThenBlock(v0, w0, invMass, invI, dm, df, perp, axis, s, a);
  }

  /**
   * The impulse change of the point-to-line and angular rows with the limit
   * inactive: the 2x2 solve of K against -Cdot1, with no limit component.
   */
  function PointToLineImpulse(k: Mat33, cdot1: Vec2): Vec3
  {
    var d := Solve22(k, Neg(cdot1));
    Vec3(d.x, d.y, 0.0)
  }

  /**
   * The inactive-limit impulse change leaves the limit row alone and, with
   * a regular 2x2 block, brings Cdot1 to zero exactly.
   */
  lemma PointToLineImpulseSolves(k: Mat33, cdot1: Vec2)
    ensures PointToLineImpulse(k, cdot1).z == 0.0
    ensures var df := PointToLineImpulse(k, cdot1);
            Det22(k) != 0.0 ==> Mul22(k, Vec2(df.x, df.y)) == Neg(cdot1)
  {
    Solve22Solves(k, Neg(cdot1));
  }

  /**
   * The accumulated impulse after the block solve of an active limit, from
   * the impulse f1 before it and the velocity errors (Cdot1, Cdot2): the 3x3
   * solve, the sign clamp of the limit row (>= 0 at the lower limit, <= 0 at
   * the upper), then the point-to-line and angular rows solved again so that
   * they hold exactly, given the clamped limit impulse.
   */
  function BlockImpulse(k: Mat33, f1: Vec3, cdot1: Vec2, cdot2: real, state: LimitState): Vec3
  {
    var z := BlockLimitImpulse(k, f1, cdot1, cdot2, state);
    // x: the 2x2 block solved against -Cdot1 less K's limit column times the limit impulse's change z - f1.z
    var x := Solve22(k, Sub(Neg(cdot1), Scale(z - f1.z, Vec2(k.col3.x, k.col3.y))));
    Vec3(x.x + f1.x, x.y + f1.y, z)
  }

  /**
   * The limit component of the block solve: f1.z plus the 3x3 solve's third
   * component, clamped to >= 0 at the lower limit and <= 0 at the upper.
   */
  function BlockLimitImpulse(k: Mat33, f1: Vec3, cdot1: Vec2, cdot2: real, state: LimitState): real
  {
    var z := f1.z + Solve33(k, Neg3(Vec3(cdot1.x, cdot1.y, cdot2))).z;
    if state == AtLowerLimit then Max(z, 0.0)
    else if state == AtUpperLimit then Min(z, 0.0)
    else z
  }

  /**
   * The block solve keeps the limit impulse on its side of zero (>= 0 at
   * the lower limit, <= 0 at the upper), takes the unclamped 3x3 solution
   * with equal limits, and, with a regular 2x2 block, solves the
   * point-to-line and angular rows exactly given the limit impulse's change.
   */
  lemma BlockImpulseClamps(k: Mat33, f1: Vec3, cdot1: Vec2, cdot2: real, state: LimitState)
    ensures var f := BlockImpulse(k, f1, cdot1, cdot2, state);
            && (state == AtLowerLimit ==> f.z >= 0.0)
            && (state == AtUpperLimit ==> f.z <= 0.0)
            && (state == EqualLimits ==> f.z == f1.z + Solve33(k, Neg3(Vec3(cdot1.x, cdot1.y, cdot2))).z)
    ensures var f := BlockImpulse(k, f1, cdot1, cdot2, state);
            Det22(k) != 0.0 ==>
              Mul22(k, Vec2(f.x - f1.x, f.y - f1.y)) == Sub(Neg(cdot1), Scale(f.z - f1.z, Vec2(k.col3.x, k.col3.y)))
  {
    var z := BlockLimitImpulse(k, f1, cdot1, cdot2, state);
    var x := Solve22(k, Sub(Neg(cdot1), Scale(z - f1.z, Vec2(k.col3.x, k.col3.y))));
    Solve22Solves(k, Sub(Neg(cdot1), Scale(z - f1.z, Vec2(k.col3.x, k.col3.y))));
    assert Vec2(x.x + f1.x - f1.x, x.y + f1.y - f1.y) == x;
  }

  /**
   * The position impulse: with an active limit the 3x3 solve against
   * -(C1, C2); otherwise the 2x2 solve against -C1 with no limit impulse,
   * which cancels C1 exactly when the 2x2 block is regular.
   */
  function PositionImpulse(k: Mat33, e: LimitError, c1: Vec2): Vec3
  {
    if e.active then Solve33(k, Neg3(Vec3(c1.x, c1.y, e.c2)))
    else
      var i := Solve22(k, Neg(c1));
      Vec3(i.x, i.y, 0.0)
  }

  /**
   * Without an active limit the position impulse has no limit component
   * and, with a regular 2x2 block, cancels C1 exactly.
   */
  lemma PositionImpulseSolves(k: Mat33, e: LimitError, c1: Vec2)
    ensures !e.active ==> PositionImpulse(k, e, c1).z == 0.0
    ensures var imp := PositionImpulse(k, e, c1);
            !e.active && Det22(k) != 0.0 ==> Mul22(k, Vec2(imp.x, imp.y)) == Neg(c1)
  {
    Solve22Solves(k, Neg(c1));
  }

  /**
   * The matrix of the position solve: the full K with an active limit;
   * otherwise its upper-left block with zeros below it, and the previous
   * third column kept.
   */
  function PositionMass(k: Mat33, e: LimitError, previous: Mat33): Mat33
  {
    if e.active then k
    else Mat33(Vec3(k.col1.x, k.col1.y, 0.0), Vec3(k.col2.x, k.col2.y, 0.0), previous.col3)
  }

  /**
   * Without an active limit the position solve sees only the upper-left
   * 2x2 block of K: the same block (so the same 2x2 solve), zeros below it,
   * and the third column left as it was.
   */
  lemma PositionMassBlock(k: Mat33, e: LimitError, previous: Mat33, b: Vec2)
    ensures var m := PositionMass(k, e, previous);
            !e.active ==> Det22(m) == Det22(k) && Mul22(m, b) == Mul22(k, b)
    ensures var m := PositionMass(k, e, previous);
            !e.active ==> m.col1.z == 0.0 && m.col2.z == 0.0 && m.col3 == previous.col3
  {
    if !e.active {
      var m := PositionMass(k, e, previous);
      assert m.col1.x == k.col1.x && m.col1.y == k.col1.y && m.col2.x == k.col2.x && m.col2.y == k.col2.y;
    }
  }

  /** The new limit state and the limit row's accumulated impulse. */
  datatype LimitUpdate = LimitUpdate(state: LimitState, impulseZ: real)

  /**
   * The limit state machine of InitVelocityConstraints exactly as written: a
   * disabled limit becomes inactive but keeps its accumulated impulse.
   */
  function LimitTransitionAsWritten(enableLimit: bool, lower: real, upper: real, translation: real,
                                    prev: LimitState, z: real, linearSlop: real): LimitUpdate
  {
    if enableLimit then
      if Abs(upper - lower) < 2.0 * linearSlop then LimitUpdate(EqualLimits, z)
      else if translation <= lower then
        if prev != AtLowerLimit then LimitUpdate(AtLowerLimit, 0.0) else LimitUpdate(AtLowerLimit, z)
      else if translation >= upper then
        if prev != AtUpperLimit then LimitUpdate(AtUpperLimit, 0.0) else LimitUpdate(AtUpperLimit, z)
      else
        LimitUpdate(InactiveLimit, 0.0)
    else
      LimitUpdate(InactiveLimit, z)
  }

  /**
   * As written, a limit that is disabled while it holds an impulse ends up
   * inactive with that impulse still accumulated, so warm starting keeps
   * applying the force of a limit that no longer exists.
   */
  lemma StaleLimitImpulseAsWritten(lower: real, upper: real, translation: real,
                                   prev: LimitState, z: real, linearSlop: real)
    requires z != 0.0
    ensures var u := LimitTransitionAsWritten(false, lower, upper, translation, prev, z, linearSlop);
            u.state == InactiveLimit && u.impulseZ == z && u.impulseZ != 0.0
  {
  }

  /**
   * The limit state machine with the limit impulse also cleared when the
   * limit is disabled. The state follows the translation against the limits;
   * an inactive limit never holds an impulse; entering the lower or upper
   * state from another state starts from a zero impulse; an impulse is only
   * ever kept, never invented.
   */
  function LimitTransition(enableLimit: bool, lower: real, upper: real, translation: real,
                           prev: LimitState, z: real, linearSlop: real): LimitUpdate
  {
    if enableLimit then
      LimitTransitionAsWritten(enableLimit, lower, upper, translation, prev, z, linearSlop)
    else
      LimitUpdate(InactiveLimit, 0.0)
  }

  /**
   * The limit state follows the translation against the limits; an
   * inactive limit never holds an impulse; entering the lower or upper state
   * from another state starts from a zero impulse; staying in a state (or
   * having equal limits) keeps the impulse; an impulse is never invented.
   */
  lemma LimitTransitionCases(enableLimit: bool, lower: real, upper: real, translation: real,
                             prev: LimitState, z: real, linearSlop: real)
    ensures var u := LimitTransition(enableLimit, lower, upper, translation, prev, z, linearSlop);
            && (u.state == EqualLimits <==> enableLimit && Abs(upper - lower) < 2.0 * linearSlop)
            && (u.state == AtLowerLimit <==>
                  enableLimit && !(Abs(upper - lower) < 2.0 * linearSlop) && translation <= lower)
            && (u.state == AtUpperLimit <==>
                  enableLimit && !(Abs(upper - lower) < 2.0 * linearSlop) && lower < translation && upper <= translation)
    ensures var u := LimitTransition(enableLimit, lower, upper, translation, prev, z, linearSlop);
            && (u.state == InactiveLimit ==> u.impulseZ == 0.0)
            && (u.state != prev && u.state != EqualLimits ==> u.impulseZ == 0.0)
            && (u.state == prev || u.state == EqualLimits ==> u.impulseZ == z || u.state == InactiveLimit)
            && (u.impulseZ == 0.0 || u.impulseZ == z)
  {
  }

  /** The limit row's position error at a translation, clamped for one correction step. */
  datatype LimitError = LimitError(c2: real, linearError: real, active: bool)

  /**
   * The limit part of SolvePositionConstraints for an enabled limit. With
   * equal limits C2 lies in [-max, max]; at the lower limit in [-max, 0] and
   * it is 0 exactly when the violation is within the slop; at the upper limit
   * in [0, max], likewise. Between the limits nothing is active.
   */
  function PositionLimitError(lower: real, upper: real, translation: real, settings: Settings): (e: LimitError)
    ensures e.linearError >= 0.0
    ensures Abs(upper - lower) < 2.0 * settings.linearSlop ==>
              e.active && -settings.maxLinearCorrection <= e.c2 <= settings.maxLinearCorrection
              && e.linearError == Abs(translation)
    ensures !(Abs(upper - lower) < 2.0 * settings.linearSlop) && translation <= lower ==>
              e.active && -settings.maxLinearCorrection <= e.c2 <= 0.0
              && e.linearError == lower - translation
              && (e.c2 == 0.0 <==> translation >= lower - settings.linearSlop)
    ensures !(Abs(upper - lower) < 2.0 * settings.linearSlop) && lower < translation && upper <= translation ==>
              e.active && 0.0 <= e.c2 <= settings.maxLinearCorrection
              && e.linearError == translation - upper
              && (e.c2 == 0.0 <==> translation <= upper + settings.linearSlop)
    ensures !(Abs(upper - lower) < 2.0 * settings.linearSlop) && lower < translation < upper ==>
              !e.active && e.c2 == 0.0 && e.linearError == 0.0
  {
    if Abs(upper - lower) < 2.0 * settings.linearSlop then
      LimitError(Clamp(translation, -settings.maxLinearCorrection, settings.maxLinearCorrection),
                 Abs(translation), true)
    else if translation <= lower then
      LimitError(Clamp(translation - lower + settings.linearSlop, -settings.maxLinearCorrection, 0.0),
                 lower - translation, true)
    else if translation >= upper then
      LimitError(Clamp(translation - upper - settings.linearSlop, 0.0, settings.maxLinearCorrection),
                 translation - upper, true)
    else
      LimitError(0.0, 0.0, false)
  }

  /** The definition a prismatic joint is made from. */
  datatype PrismaticJointDef = PrismaticJointDef(
    localAnchor1: Vec2, localAnchor2: Vec2, localAxis1: Vec2, referenceAngle: real,
    enableLimit: bool, lowerTranslation: real, upperTranslation: real,
    enableMotor: bool, maxMotorForce: real, motorSpeed: real)

  /** The numeric state of a 3.0 body that joints read and write. */
  class Body {
    var linearVelocity: Vec2
    var angularVelocity: real
    var invMass: real
    var invI: real
    /** The centre of mass and the angle of the body's sweep. */
    var sweepC: Vec2
    var sweepA: real

    constructor (invMass: real, invI: real, c: Vec2, a: real)
      ensures this.invMass == invMass && this.invI == invI && sweepC == c && sweepA == a
      ensures linearVelocity == Zero2 && angularVelocity == 0.0
    {
      this.invMass, this.invI := invMass, invI;
      sweepC, sweepA := c, a;
      linearVelocity, angularVelocity := Zero2, 0.0;
    }
  }

  class PrismaticJoint {
    const body1: Body
    const body2: Body

    var invMass1: real
    var invI1: real
    var invMass2: real
    var invI2: real

    var localAnchor1: Vec2
    var localAnchor2: Vec2
    var localXAxis1: Vec2
    var localYAxis1: Vec2
    var refAngle: real

    var impulse: Vec3
    var motorImpulse: real
    var motorMass: real

    var lowerTranslation: real
    var upperTranslation: real
    var maxMotorForce: real
    var motorSpeed: real
    var enableLimit: bool
    var enableMotor: bool
    var limitState: LimitState

    var axis: Vec2
    var perp: Vec2
    var s1: real
    var s2: real
    var a1: real
    var a2: real
    var K: Mat33

    /** The joint connects two different bodies. */
    ghost predicate Valid() {
      body1 != body2
    }

    /**
     * A joint from its definition: accumulators zero, limit inactive, the
     * local perpendicular axis a quarter turn from the local axis.
     */
    constructor (def: PrismaticJointDef, b1: Body, b2: Body)
      requires b1 != b2
      ensures Valid() && body1 == b1 && body2 == b2
      ensures localAnchor1 == def.localAnchor1 && localAnchor2 == def.localAnchor2
      ensures localXAxis1 == def.localAxis1 && localYAxis1 == CrossSV(1.0, def.localAxis1)
      ensures refAngle == def.referenceAngle
      ensures impulse == Zero3 && motorMass == 0.0 && motorImpulse == 0.0
      ensures lowerTranslation == def.lowerTranslation && upperTranslation == def.upperTranslation
      ensures maxMotorForce == def.maxMotorForce && motorSpeed == def.motorSpeed
      ensures enableLimit == def.enableLimit && enableMotor == def.enableMotor
      ensures limitState == InactiveLimit && axis == Zero2 && perp == Zero2
    {
      body1, body2 := b1, b2;
      invMass1, invI1, invMass2, invI2 := 0.0, 0.0, 0.0, 0.0;
      localAnchor1, localAnchor2 := def.localAnchor1, def.localAnchor2;
      localXAxis1 := def.localAxis1;
      localYAxis1 := CrossSV(1.0, def.localAxis1);
      refAngle := def.referenceAngle;
      impulse, motorMass, motorImpulse := Zero3, 0.0, 0.0;
      lowerTranslation, upperTranslation := def.lowerTranslation, def.upperTranslation;
      maxMotorForce, motorSpeed := def.maxMotorForce, def.motorSpeed;
      enableLimit, enableMotor := def.enableLimit, def.enableMotor;
      limitState := InactiveLimit;
      axis, perp := Zero2, Zero2;
      s1, s2, a1, a2 := 0.0, 0.0, 0.0, 0.0;
      K := Mat33(Zero3, Zero3, Zero3);
    }

    /**
     * GetReactionForce: inv_dt times the accumulated linear impulse P, so
     * that over one step the force integrates to P.
     */
    function GetReactionForce(invDt: real): (r: Vec2)
      reads this
      ensures invDt != 0.0 ==> Scale(1.0 / invDt, r) == ImpulseLinear(impulse, motorImpulse, perp, axis)
    {
      var p := ImpulseLinear(impulse, motorImpulse, perp, axis);
      assert invDt != 0.0 ==> (1.0 / invDt) * (invDt * p.x) == p.x && (1.0 / invDt) * (invDt * p.y) == p.y;
      Scale(invDt, p)
    }

    /** GetReactionTorque: inv_dt times the angular row's accumulated impulse. */
    function GetReactionTorque(invDt: real): (r: real)
      reads this
      ensures invDt != 0.0 ==> r / invDt == impulse.y
    {
      invDt * impulse.y
    }

    /**
     * Gives body 1 the impulse -P (and angular impulse -L1) and body 2 +P
     * (and +L2), each scaled by that body's cached inverse mass or inertia,
     * for the row impulses `imp` and the motor impulse `motor`.
     */
    method ApplyJointImpulse(imp: Vec3, motor: real)
      requires Valid()
      modifies body1`linearVelocity, body1`angularVelocity, body2`linearVelocity, body2`angularVelocity
      ensures body1.linearVelocity == PushedBack(old(body1.linearVelocity), invMass1, ImpulseLinear(imp, motor, perp, axis))
      ensures body1.angularVelocity == TurnedBack(old(body1.angularVelocity), invI1, ImpulseAngular(imp, motor, s1, a1))
      ensures body2.linearVelocity == Pushed(old(body2.linearVelocity), invMass2, ImpulseLinear(imp, motor, perp, axis))
      ensures body2.angularVelocity == Turned(old(body2.angularVelocity), invI2, ImpulseAngular(imp, motor, s2, a2))
      ensures invMass1 > 0.0 && invMass2 > 0.0 ==>
                Add(Scale(1.0 / invMass1, body1.linearVelocity), Scale(1.0 / invMass2, body2.linearVelocity))
                == Add(Scale(1.0 / invMass1, old(body1.linearVelocity)), Scale(1.0 / invMass2, old(body2.linearVelocity)))
    {
      var P := ImpulseLinear(imp, motor, perp, axis);
      var L1 := ImpulseAngular(imp, motor, s1, a1);
      var L2 := ImpulseAngular(imp, motor, s2, a2);
      if invMass1 > 0.0 && invMass2 > 0.0 {
        OppositeImpulsesConserveMomentum(invMass1, invMass2, body1.linearVelocity, body2.linearVelocity, P);
      }
      body1.linearVelocity := PushedBack(body1.linearVelocity, invMass1, P);
      body1.angularVelocity := TurnedBack(body1.angularVelocity, invI1, L1);
      body2.linearVelocity := Pushed(body2.linearVelocity, invMass2, P);
      body2.angularVelocity := Turned(body2.angularVelocity, invI2, L2);
    }

    /**
     * The first part of InitVelocityConstraints: caches the inverse masses,
     * the motor Jacobian (axis, a1, a2) and its effective mass, and the
     * point-to-line Jacobian (perp, s1, s2) and K.
     */
    method CacheJacobians(g: JointGeometry)
      modifies this`invMass1, this`invI1, this`invMass2, this`invI2
      modifies this`axis, this`perp, this`a1, this`a2, this`s1, this`s2, this`motorMass, this`K
      ensures invMass1 == body1.invMass && invI1 == body1.invI
      ensures invMass2 == body2.invMass && invI2 == body2.invI
      ensures axis == g.axis && perp == g.perp
      ensures var d := Separation(body1.sweepC, body2.sweepC, g);
              && a1 == Cross(Add(d, g.r1), g.axis) && a2 == Cross(g.r2, g.axis)
              && s1 == Cross(Add(d, g.r1), g.perp) && s2 == Cross(g.r2, g.perp)
      ensures motorMass == MotorMass(invMass1, invMass2, invI1, invI2, a1, a2)
      ensures K == EffectiveMass(invMass1, invMass2, invI1, invI2, s1, s2, a1, a2)
    {
      var d := Separation(body1.sweepC, body2.sweepC, g);
      var m1, i1, m2, i2 := body1.invMass, body1.invI, body2.invMass, body2.invI;

      // The axial moment arms a1, a2 and the motor mass.
      var temp := Add(d, g.r1);
      var na1 := Cross(temp, g.axis);
      var na2 := Cross(g.r2, g.axis);
      var mm := MotorMass(m1, m2, i1, i2, na1, na2);

      // The perpendicular moment arms s1, s2 and K.
      var ns1 := Cross(temp, g.perp);
      var ns2 := Cross(g.r2, g.perp);
      var k := EffectiveMass(m1, m2, i1, i2, ns1, ns2, na1, na2);

      invMass1, invI1, invMass2, invI2 := m1, i1, m2, i2;
      axis, a1, a2, motorMass := g.axis, na1, na2, mm;
      perp, s1, s2, K := g.perp, ns1, ns2, k;
    }

    /** The limit part of InitVelocityConstraints, at the given joint translation. */
    method UpdateLimitState(translation: real, settings: Settings)
      modifies this`limitState, this`impulse
      ensures var u := LimitTransition(enableLimit, lowerTranslation, upperTranslation, translation,
                                       old(limitState), old(impulse).z, settings.linearSlop);
              limitState == u.state && impulse == Vec3(old(impulse).x, old(impulse).y, u.impulseZ)
    {
      var u := LimitTransition(enableLimit, lowerTranslation, upperTranslation, translation,
                               limitState, impulse.z, settings.linearSlop);
      limitState := u.state;
      impulse := Vec3(impulse.x, impulse.y, u.impulseZ);
    }

    /**
     * The last part of InitVelocityConstraints: a disabled motor loses its
     * impulse; then the accumulated impulses are either scaled by DtRatio and
     * applied to the bodies, or zeroed with the bodies left alone.
     */
    method WarmStart(step: TimeStep)
      requires Valid()
      modifies this`impulse, this`motorImpulse
      modifies body1`linearVelocity, body1`angularVelocity, body2`linearVelocity, body2`angularVelocity
      ensures step.warmStarting ==> impulse == Scale3(step.dtRatio, old(impulse))
      ensures step.warmStarting && enableMotor ==> motorImpulse == step.dtRatio * old(motorImpulse)
      ensures !(step.warmStarting && enableMotor) ==> motorImpulse == 0.0
      ensures !step.warmStarting ==> impulse == Zero3
      ensures step.warmStarting ==>
                && body1.linearVelocity == PushedBack(old(body1.linearVelocity), invMass1, ImpulseLinear(impulse, motorImpulse, perp, axis))
                && body1.angularVelocity == TurnedBack(old(body1.angularVelocity), invI1, ImpulseAngular(impulse, motorImpulse, s1, a1))
                && body2.linearVelocity == Pushed(old(body2.linearVelocity), invMass2, ImpulseLinear(impulse, motorImpulse, perp, axis))
                && body2.angularVelocity == Turned(old(body2.angularVelocity), invI2, ImpulseAngular(impulse, motorImpulse, s2, a2))
      ensures !step.warmStarting ==>
                && body1.linearVelocity == old(body1.linearVelocity)
                && body1.angularVelocity == old(body1.angularVelocity)
                && body2.linearVelocity == old(body2.linearVelocity)
                && body2.angularVelocity == old(body2.angularVelocity)
    {
      if !enableMotor {
        motorImpulse := 0.0;
      }
      if step.warmStarting {
        impulse := Scale3(step.dtRatio, impulse);
        motorImpulse := if enableMotor then step.dtRatio * motorImpulse else 0.0;
        ApplyJointImpulse(impulse, motorImpulse);
      } else {
        impulse := Zero3;
        motorImpulse := 0.0;
      }
    }

    /**
     * InitVelocityConstraints: caches the inverse masses, the Jacobian terms,
     * the motor mass and K; updates the limit state at the current
     * translation; drops the motor impulse of a disabled motor; then either
     * scales the accumulated impulses by DtRatio and applies them to the
     * bodies (-P to body 1, +P to body 2) or, without warm starting, zeroes
     * them and leaves the bodies alone.
     */
    method InitVelocityConstraints(step: TimeStep, g: JointGeometry, settings: Settings)
      requires Valid()
      modifies this`invMass1, this`invI1, this`invMass2, this`invI2
      modifies this`axis, this`perp, this`a1, this`a2, this`s1, this`s2, this`motorMass, this`K
      modifies this`limitState, this`impulse, this`motorImpulse
      modifies body1`linearVelocity, body1`angularVelocity, body2`linearVelocity, body2`angularVelocity
      ensures invMass1 == body1.invMass && invI1 == body1.invI
      ensures invMass2 == body2.invMass && invI2 == body2.invI
      ensures axis == g.axis && perp == g.perp
      ensures var d := Separation(body1.sweepC, body2.sweepC, g);
              && a1 == Cross(Add(d, g.r1), g.axis) && a2 == Cross(g.r2, g.axis)
              && s1 == Cross(Add(d, g.r1), g.perp) && s2 == Cross(g.r2, g.perp)
      ensures motorMass == MotorMass(invMass1, invMass2, invI1, invI2, a1, a2)
      ensures K == EffectiveMass(invMass1, invMass2, invI1, invI2, s1, s2, a1, a2)
      ensures var u := LimitTransition(enableLimit, lowerTranslation, upperTranslation,
                                       Dot(g.axis, Separation(body1.sweepC, body2.sweepC, g)),
                                       old(limitState), old(impulse).z, settings.linearSlop);
              && limitState == u.state
              && (step.warmStarting ==>
                    impulse == Scale3(step.dtRatio, Vec3(old(impulse).x, old(impulse).y, u.impulseZ)))
      ensures step.warmStarting && enableMotor ==> motorImpulse == step.dtRatio * old(motorImpulse)
      ensures !(step.warmStarting && enableMotor) ==> motorImpulse == 0.0
      ensures !step.warmStarting ==> impulse == Zero3
      ensures step.warmStarting ==>
                && body1.linearVelocity == PushedBack(old(body1.linearVelocity), invMass1, ImpulseLinear(impulse, motorImpulse, perp, axis))
                && body1.angularVelocity == TurnedBack(old(body1.angularVelocity), invI1, ImpulseAngular(impulse, motorImpulse, s1, a1))
                && body2.linearVelocity == Pushed(old(body2.linearVelocity), invMass2, ImpulseLinear(impulse, motorImpulse, perp, axis))
                && body2.angularVelocity == Turned(old(body2.angularVelocity), invI2, ImpulseAngular(impulse, motorImpulse, s2, a2))
      ensures !step.warmStarting ==>
                && body1.linearVelocity == old(body1.linearVelocity)
                && body1.angularVelocity == old(body1.angularVelocity)
                && body2.linearVelocity == old(body2.linearVelocity)
                && body2.angularVelocity == old(body2.angularVelocity)
    {
      CacheJacobians(g);
      var d := Separation(body1.sweepC, body2.sweepC, g);
      UpdateLimitState(Dot(axis, d), settings);
      WarmStart(step);
    }

    /**
     * Sets the accumulated motor impulse to `newMotorImpulse` and gives the
     * bodies the change.
     */
    method AccumulateMotorImpulse(newMotorImpulse: real)
      requires Valid()
      modifies this`motorImpulse
      modifies body1`linearVelocity, body1`angularVelocity, body2`linearVelocity, body2`angularVelocity
      ensures motorImpulse == newMotorImpulse
      ensures var dm := motorImpulse - old(motorImpulse);
              && body1.linearVelocity == PushedBack(old(body1.linearVelocity), invMass1, ImpulseLinear(Zero3, dm, perp, axis))
              && body1.angularVelocity == TurnedBack(old(body1.angularVelocity), invI1, ImpulseAngular(Zero3, dm, s1, a1))
              && body2.linearVelocity == Pushed(old(body2.linearVelocity), invMass2, ImpulseLinear(Zero3, dm, perp, axis))
              && body2.angularVelocity == Turned(old(body2.angularVelocity), invI2, ImpulseAngular(Zero3, dm, s2, a2))
    {
      var dm := newMotorImpulse - motorImpulse;
      motorImpulse := newMotorImpulse;
      ApplyJointImpulse(Zero3, dm);
    }

    /**
     * Sets the accumulated row impulses to `newImpulse` and gives the bodies
     * the change.
     */
    method AccumulateImpulse(newImpulse: Vec3)
      requires Valid()
      modifies this`impulse
      modifies body1`linearVelocity, body1`angularVelocity, body2`linearVelocity, body2`angularVelocity
      ensures impulse == newImpulse
      ensures var df := Sub3(impulse, old(impulse));
              && body1.linearVelocity == PushedBack(old(body1.linearVelocity), invMass1, ImpulseLinear(df, 0.0, perp, axis))
              && body1.angularVelocity == TurnedBack(old(body1.angularVelocity), invI1, ImpulseAngular(df, 0.0, s1, a1))
              && body2.linearVelocity == Pushed(old(body2.linearVelocity), invMass2, ImpulseLinear(df, 0.0, perp, axis))
              && body2.angularVelocity == Turned(old(body2.angularVelocity), invI2, ImpulseAngular(df, 0.0, s2, a2))
    {
      var df := Sub3(newImpulse, impulse);
      impulse := newImpulse;
      ApplyJointImpulse(df, 0.0);
    }

    /**
     * The motor row of SolveVelocityConstraints, skipped with equal limits:
     * the accumulated motor impulse moves towards the motor speed and is
     * clamped to +-dt*maxMotorForce; the bodies receive its change.
     */
    method SolveMotorRow(step: TimeStep)
      requires Valid()
      modifies this`motorImpulse
      modifies body1`linearVelocity, body1`angularVelocity, body2`linearVelocity, body2`angularVelocity
      ensures enableMotor && limitState != EqualLimits ==>
                && motorImpulse == old(MotorUpdate(motorImpulse, motorMass, motorSpeed,
                                                   AxisSpeed(axis, a1, a2, body1.linearVelocity, body1.angularVelocity,
                                                             body2.linearVelocity, body2.angularVelocity),
                                                   step.dt * maxMotorForce))
                && var dm := motorImpulse - old(motorImpulse);
                && body1.linearVelocity == PushedBack(old(body1.linearVelocity), invMass1, ImpulseLinear(Zero3, dm, perp, axis))
                && body1.angularVelocity == TurnedBack(old(body1.angularVelocity), invI1, ImpulseAngular(Zero3, dm, s1, a1))
                && body2.linearVelocity == Pushed(old(body2.linearVelocity), invMass2, ImpulseLinear(Zero3, dm, perp, axis))
                && body2.angularVelocity == Turned(old(body2.angularVelocity), invI2, ImpulseAngular(Zero3, dm, s2, a2))
      ensures !(enableMotor && limitState != EqualLimits) ==>
                && motorImpulse == old(motorImpulse)
                && body1.linearVelocity == old(body1.linearVelocity)
                && body1.angularVelocity == old(body1.angularVelocity)
                && body2.linearVelocity == old(body2.linearVelocity)
                && body2.angularVelocity == old(body2.angularVelocity)
    {
      if enableMotor && limitState != EqualLimits {
        var cdot := AxisSpeed(axis, a1, a2, body1.linearVelocity, body1.angularVelocity,
                              body2.linearVelocity, body2.angularVelocity);
        AccumulateMotorImpulse(MotorUpdate(motorImpulse, motorMass, motorSpeed, cdot, step.dt * maxMotorForce));
      }
    }

    /**
     * The row impulses that the point-to-line and angular rows accumulate at
     * the body velocities (v1, w1) and (v2, w2): with the limit active the
     * block solve of BlockImpulse, otherwise the 2x2 point-to-line solve
     * added to the current impulse, with its limit part untouched.
     */
    function BlockRowsImpulse(v1: Vec2, w1: real, v2: Vec2, w2: real): Vec3
      reads this`perp, this`s1, this`s2, this`axis, this`a1, this`a2
      reads this`K, this`impulse, this`enableLimit, this`limitState
    {
      var cdot1 := PerpSpeed(perp, s1, s2, v1, w1, v2, w2);
      if enableLimit && limitState != InactiveLimit then
        BlockImpulse(K, impulse, cdot1, AxisSpeed(axis, a1, a2, v1, w1, v2, w2), limitState)
      else
        Add3(impulse, PointToLineImpulse(K, cdot1))
    }

    /**
     * The point-to-line and angular rows of SolveVelocityConstraints: with
     * the limit active, the block solve of BlockImpulse; otherwise the two
     * rows on their own, the limit impulse untouched. The bodies receive the
     * change of the accumulated impulse.
     */
    method SolveBlockRows()
      requires Valid()
      modifies this`impulse
      modifies body1`linearVelocity, body1`angularVelocity, body2`linearVelocity, body2`angularVelocity
      ensures impulse == old(BlockRowsImpulse(body1.linearVelocity, body1.angularVelocity,
                                              body2.linearVelocity, body2.angularVelocity))
      ensures enableLimit && limitState == AtLowerLimit ==> impulse.z >= 0.0
      ensures enableLimit && limitState == AtUpperLimit ==> impulse.z <= 0.0
      ensures !(enableLimit && limitState != InactiveLimit) ==> impulse.z == old(impulse).z
      ensures var df := Sub3(impulse, old(impulse));
              && body1.linearVelocity == PushedBack(old(body1.linearVelocity), invMass1, ImpulseLinear(df, 0.0, perp, axis))
              && body1.angularVelocity == TurnedBack(old(body1.angularVelocity), invI1, ImpulseAngular(df, 0.0, s1, a1))
              && body2.linearVelocity == Pushed(old(body2.linearVelocity), invMass2, ImpulseLinear(df, 0.0, perp, axis))
              && body2.angularVelocity == Turned(old(body2.angularVelocity), invI2, ImpulseAngular(df, 0.0, s2, a2))
    {
      var cdot1 := PerpSpeed(perp, s1, s2, body1.linearVelocity, body1.angularVelocity,
                             body2.linearVelocity, body2.angularVelocity);
      if enableLimit && limitState != InactiveLimit {
        var cdot2 := AxisSpeed(axis, a1, a2, body1.linearVelocity, body1.angularVelocity,
                               body2.linearVelocity, body2.angularVelocity);
        BlockImpulseClamps(K, impulse, cdot1, cdot2, limitState);
        AccumulateImpulse(BlockImpulse(K, impulse, cdot1, cdot2, limitState));
      } else {
        AccumulateImpulse(Add3(impulse, PointToLineImpulse(K, cdot1)));
      }
    }

    /**
     * SolveVelocityConstraints: the motor row (unless the limits are equal)
     * with its accumulated impulse clamped to +-dt*maxMotorForce, then the
     * point-to-line and angular rows, with the limit row in block form when
     * the limit is active and its accumulated impulse clamped to >= 0 at the
     * lower limit and <= 0 at the upper limit. The bodies receive exactly the
     * change of the accumulated impulses, -P to body 1 and +P to body 2.
     */
    method SolveVelocityConstraints(step: TimeStep)
      requires Valid()
      modifies this`impulse, this`motorImpulse
      modifies body1`linearVelocity, body1`angularVelocity, body2`linearVelocity, body2`angularVelocity
      ensures enableMotor && limitState != EqualLimits ==>
                motorImpulse == old(MotorUpdate(motorImpulse, motorMass, motorSpeed,
                                                AxisSpeed(axis, a1, a2, body1.linearVelocity, body1.angularVelocity,
                                                          body2.linearVelocity, body2.angularVelocity),
                                                step.dt * maxMotorForce))
      ensures !(enableMotor && limitState != EqualLimits) ==> motorImpulse == old(motorImpulse)
      ensures var dMotor := motorImpulse - old(motorImpulse);
              impulse == old(BlockRowsImpulse(
                PushedBack(body1.linearVelocity, invMass1, ImpulseLinear(Zero3, dMotor, perp, axis)),
                TurnedBack(body1.angularVelocity, invI1, ImpulseAngular(Zero3, dMotor, s1, a1)),
                Pushed(body2.linearVelocity, invMass2, ImpulseLinear(Zero3, dMotor, perp, axis)),
                Turned(body2.angularVelocity, invI2, ImpulseAngular(Zero3, dMotor, s2, a2))))
      ensures enableLimit && limitState == AtLowerLimit ==> impulse.z >= 0.0
      ensures enableLimit && limitState == AtUpperLimit ==> impulse.z <= 0.0
      ensures !(enableLimit && limitState != InactiveLimit) ==> impulse.z == old(impulse).z
      ensures var dImpulse := Sub3(impulse, old(impulse));
              var dMotor := motorImpulse - old(motorImpulse);
              && body1.linearVelocity == PushedBack(old(body1.linearVelocity), invMass1, ImpulseLinear(dImpulse, dMotor, perp, axis))
              && body1.angularVelocity == TurnedBack(old(body1.angularVelocity), invI1, ImpulseAngular(dImpulse, dMotor, s1, a1))
              && body2.linearVelocity == Pushed(old(body2.linearVelocity), invMass2, ImpulseLinear(dImpulse, dMotor, perp, axis))
              && body2.angularVelocity == Turned(old(body2.angularVelocity), invI2, ImpulseAngular(dImpulse, dMotor, s2, a2))
    {
      ghost var f0, m0 := impulse, motorImpulse;
      SolveMotorRow(step);
      ghost var dm := motorImpulse - m0;
      ghost var v1, w1, v2, w2 := body1.linearVelocity, body1.angularVelocity, body2.linearVelocity, body2.angularVelocity;
      if !(enableMotor && limitState != EqualLimits) {
        ZeroImpulse(old(body1.linearVelocity), old(body1.angularVelocity), invMass1, invI1, Zero3, dm, perp, axis, s1, a1);
        ZeroImpulse(old(body2.linearVelocity), old(body2.angularVelocity), invMass2, invI2, Zero3, dm, perp, axis, s2, a2);
      }
      ghost var rows := old(BlockRowsImpulse(v1, w1, v2, w2));
      assert rows == BlockRowsImpulse(v1, w1, v2, w2);
      SolveBlockRows();
      ghost var df := Sub3(impulse, f0);
      KicksComposeBack(old(body1.linearVelocity), old(body1.angularVelocity), v1, w1, body1.linearVelocity, body1.angularVelocity,
                       invMass1, invI1, dm, df, perp, axis, s1, a1);
      KicksCompose(old(body2.linearVelocity), old(body2.angularVelocity), v2, w2, body2.linearVelocity, body2.angularVelocity,
                   invMass2, invI2, dm, df, perp, axis, s2, a2);
    }

    /**
     * The error part of SolvePositionConstraints: refreshes the Jacobian at
     * the current sweep (the limit axis only while the limit is enabled) and
     * returns the limit error and C1 = (perp . d, angle2 - angle1 - refAngle).
     */
    method PositionErrors(g: JointGeometry, settings: Settings) returns (e: LimitError, c1: Vec2)
      modifies this`axis, this`a1, this`a2, this`perp, this`s1, this`s2
      ensures var d := Separation(body1.sweepC, body2.sweepC, g);
              && e == (if enableLimit then PositionLimitError(lowerTranslation, upperTranslation, Dot(g.axis, d), settings)
                       else LimitError(0.0, 0.0, false))
              && c1 == Vec2(Dot(g.perp, d), body2.sweepA - body1.sweepA - refAngle)
              && perp == g.perp && s1 == Cross(Add(d, g.r1), g.perp) && s2 == Cross(g.r2, g.perp)
              && (enableLimit ==> axis == g.axis && a1 == Cross(Add(d, g.r1), g.axis) && a2 == Cross(g.r2, g.axis))
              && (!enableLimit ==> axis == old(axis) && a1 == old(a1) && a2 == old(a2))
    {
      var d := Separation(body1.sweepC, body2.sweepC, g);

      // The limit error, zero unless the limit is enabled.
      e := LimitError(0.0, 0.0, false);
      if enableLimit {
        axis := g.axis;
        a1 := Cross(Add(d, g.r1), axis);
        a2 := Cross(g.r2, axis);
        e := PositionLimitError(lowerTranslation, upperTranslation, Dot(axis, d), settings);
      }

      perp := g.perp;
      s1 := Cross(Add(d, g.r1), perp);
      s2 := Cross(g.r2, perp);
      c1 := Vec2(Dot(perp, d), body2.sweepA - body1.sweepA - refAngle);
    }

    /**
     * The correction part of SolvePositionConstraints: K becomes the
     * PositionMass of the current Jacobian, and the sweeps move by -+invMass*P
     * and -+invI*L of the PositionImpulse.
     */
    method ApplyPositionImpulse(e: LimitError, c1: Vec2)
      requires Valid()
      modifies this`K, body1`sweepC, body1`sweepA, body2`sweepC, body2`sweepA
      ensures K == PositionMass(EffectiveMass(invMass1, invMass2, invI1, invI2, s1, s2, a1, a2), e, old(K))
      ensures var imp := PositionImpulse(K, e, c1);
              && body1.sweepC == PushedBack(old(body1.sweepC), invMass1, ImpulseLinear(imp, 0.0, perp, axis))
              && body1.sweepA == TurnedBack(old(body1.sweepA), invI1, ImpulseAngular(imp, 0.0, s1, a1))
              && body2.sweepC == Pushed(old(body2.sweepC), invMass2, ImpulseLinear(imp, 0.0, perp, axis))
              && body2.sweepA == Turned(old(body2.sweepA), invI2, ImpulseAngular(imp, 0.0, s2, a2))
    {
      K := PositionMass(EffectiveMass(invMass1, invMass2, invI1, invI2, s1, s2, a1, a2), e, K);
      var imp := PositionImpulse(K, e, c1);
      var P := ImpulseLinear(imp, 0.0, perp, axis);
      var L1 := ImpulseAngular(imp, 0.0, s1, a1);
      var L2 := ImpulseAngular(imp, 0.0, s2, a2);
      body1.sweepC := PushedBack(body1.sweepC, invMass1, P);
      body1.sweepA := TurnedBack(body1.sweepA, invI1, L1);
      body2.sweepC := Pushed(body2.sweepC, invMass2, P);
      body2.sweepA := Turned(body2.sweepA, invI2, L2);
    }

    /**
     * SolvePositionConstraints: recomputes the position errors at the current
     * sweep, solves for a position impulse (3x3 with an active limit, 2x2
     * otherwise) and moves the sweeps by it, and reports convergence exactly
     * when the linear error (the larger of the limit error and |C1.x|) is
     * within LinearSlop and the angular error |C1.y| within AngularSlop.
     * `baumgarte` is unused, as in the source.
     */
    method SolvePositionConstraints(baumgarte: real, g: JointGeometry, settings: Settings) returns (converged: bool)
      requires Valid()
      modifies this`axis, this`a1, this`a2, this`perp, this`s1, this`s2, this`K
      modifies body1`sweepC, body1`sweepA, body2`sweepC, body2`sweepA
      ensures var d := Separation(old(body1.sweepC), old(body2.sweepC), g);
              var e := if enableLimit then PositionLimitError(lowerTranslation, upperTranslation, Dot(g.axis, d), settings)
                       else LimitError(0.0, 0.0, false);
              var c1 := Vec2(Dot(g.perp, d), old(body2.sweepA) - old(body1.sweepA) - refAngle);
              && converged == (Max(e.linearError, Abs(c1.x)) <= settings.linearSlop
                               && Abs(c1.y) <= settings.angularSlop)
              && perp == g.perp && s1 == Cross(Add(d, g.r1), g.perp) && s2 == Cross(g.r2, g.perp)
              && (enableLimit ==> axis == g.axis && a1 == Cross(Add(d, g.r1), g.axis) && a2 == Cross(g.r2, g.axis))
              && (!enableLimit ==> axis == old(axis) && a1 == old(a1) && a2 == old(a2))
              && K == PositionMass(EffectiveMass(invMass1, invMass2, invI1, invI2, s1, s2, a1, a2), e, old(K))
              && var imp := PositionImpulse(K, e, c1);
              && body1.sweepC == PushedBack(old(body1.sweepC), invMass1, ImpulseLinear(imp, 0.0, perp, axis))
              && body1.sweepA == TurnedBack(old(body1.sweepA), invI1, ImpulseAngular(imp, 0.0, s1, a1))
              && body2.sweepC == Pushed(old(body2.sweepC), invMass2, ImpulseLinear(imp, 0.0, perp, axis))
              && body2.sweepA == Turned(old(body2.sweepA), invI2, ImpulseAngular(imp, 0.0, s2, a2))
    {
      var e, c1 := PositionErrors(g, settings);
      var linearError := Max(e.linearError, Abs(c1.x));
      var angularError := Abs(c1.y);
      ApplyPositionImpulse(e, c1);
      converged := linearError <= settings.linearSlop && angularError <= settings.angularSlop;
    }
  }

  /**
   * Velocity iterations of one joint: if, before them, each body's velocity
   * differs from (v1, w1) or (v2, w2) by exactly the impulses accumulated in
   * the joint, then so it does after any number of them.
   */
  method IterateVelocities(j: PrismaticJoint, step: TimeStep, iterations: nat,
                           ghost v1: Vec2, ghost w1: real, ghost v2: Vec2, ghost w2: real)
    requires j.Valid()
    requires j.body1.linearVelocity == PushedBack(v1, j.invMass1, ImpulseLinear(j.impulse, j.motorImpulse, j.perp, j.axis))
    requires j.body1.angularVelocity == TurnedBack(w1, j.invI1, ImpulseAngular(j.impulse, j.motorImpulse, j.s1, j.a1))
    requires j.body2.linearVelocity == Pushed(v2, j.invMass2, ImpulseLinear(j.impulse, j.motorImpulse, j.perp, j.axis))
    requires j.body2.angularVelocity == Turned(w2, j.invI2, ImpulseAngular(j.impulse, j.motorImpulse, j.s2, j.a2))
    modifies j`impulse, j`motorImpulse
    modifies j.body1`linearVelocity, j.body1`angularVelocity, j.body2`linearVelocity, j.body2`angularVelocity
    ensures j.body1.linearVelocity == PushedBack(v1, j.invMass1, ImpulseLinear(j.impulse, j.motorImpulse, j.perp, j.axis))
    ensures j.body1.angularVelocity == TurnedBack(w1, j.invI1, ImpulseAngular(j.impulse, j.motorImpulse, j.s1, j.a1))
    ensures j.body2.linearVelocity == Pushed(v2, j.invMass2, ImpulseLinear(j.impulse, j.motorImpulse, j.perp, j.axis))
    ensures j.body2.angularVelocity == Turned(w2, j.invI2, ImpulseAngular(j.impulse, j.motorImpulse, j.s2, j.a2))
  {
    var n := 0;
    while n < iterations
      invariant j.body1.linearVelocity == PushedBack(v1, j.invMass1, ImpulseLinear(j.impulse, j.motorImpulse, j.perp, j.axis))
      invariant j.body1.angularVelocity == TurnedBack(w1, j.invI1, ImpulseAngular(j.impulse, j.motorImpulse, j.s1, j.a1))
      invariant j.body2.linearVelocity == Pushed(v2, j.invMass2, ImpulseLinear(j.impulse, j.motorImpulse, j.perp, j.axis))
      invariant j.body2.angularVelocity == Turned(w2, j.invI2, ImpulseAngular(j.impulse, j.motorImpulse, j.s2, j.a2))
    {
      ghost var before, motorBefore := j.impulse, j.motorImpulse;
      j.SolveVelocityConstraints(step);
      AccumulatedImpulse(v1, w1, j.invMass1, j.invI1, before, motorBefore, j.impulse, j.motorImpulse, j.perp, j.axis, j.s1, j.a1);
      AccumulatedImpulse(v2, w2, j.invMass2, j.invI2, before, motorBefore, j.impulse, j.motorImpulse, j.perp, j.axis, j.s2, j.a2);
      n := n + 1;
    }
  }

  /**
   * InitVelocityConstraints seen from the bodies: with or without warm
   * starting, each body's velocity afterwards differs from its velocity
   * before by exactly the impulses then accumulated in the joint.
   */
  method InitVelocities(j: PrismaticJoint, step: TimeStep, g: JointGeometry, settings: Settings)
    requires j.Valid()
    modifies j`invMass1, j`invI1, j`invMass2, j`invI2
    modifies j`axis, j`perp, j`a1, j`a2, j`s1, j`s2, j`motorMass, j`K
    modifies j`limitState, j`impulse, j`motorImpulse
    modifies j.body1`linearVelocity, j.body1`angularVelocity, j.body2`linearVelocity, j.body2`angularVelocity
    ensures j.body1.linearVelocity
            == PushedBack(old(j.body1.linearVelocity), j.invMass1, ImpulseLinear(j.impulse, j.motorImpulse, j.perp, j.axis))
    ensures j.body1.angularVelocity
            == TurnedBack(old(j.body1.angularVelocity), j.invI1, ImpulseAngular(j.impulse, j.motorImpulse, j.s1, j.a1))
    ensures j.body2.linearVelocity
            == Pushed(old(j.body2.linearVelocity), j.invMass2, ImpulseLinear(j.impulse, j.motorImpulse, j.perp, j.axis))
    ensures j.body2.angularVelocity
            == Turned(old(j.body2.angularVelocity), j.invI2, ImpulseAngular(j.impulse, j.motorImpulse, j.s2, j.a2))
  {
    j.InitVelocityConstraints(step, g, settings);
    if !step.warmStarting {
      ZeroImpulse(old(j.body1.linearVelocity), old(j.body1.angularVelocity), j.invMass1, j.invI1,
                  j.impulse, j.motorImpulse, j.perp, j.axis, j.s1, j.a1);
      ZeroImpulse(old(j.body2.linearVelocity), old(j.body2.angularVelocity), j.invMass2, j.invI2,
                  j.impulse, j.motorImpulse, j.perp, j.axis, j.s2, j.a2);
    }
  }

  /**
   * One joint on its own through the velocity phase of a step: initialise,
   * then any number of velocity iterations. Afterwards each body's velocity
   * differs from its velocity before the step by exactly the impulses now
   * accumulated in the joint.
   */
  method InitAndSolveVelocities(j: PrismaticJoint, step: TimeStep, g: JointGeometry, settings: Settings,
                                iterations: nat)
    requires j.Valid()
    modifies j`invMass1, j`invI1, j`invMass2, j`invI2
    modifies j`axis, j`perp, j`a1, j`a2, j`s1, j`s2, j`motorMass, j`K
    modifies j`limitState, j`impulse, j`motorImpulse
    modifies j.body1`linearVelocity, j.body1`angularVelocity, j.body2`linearVelocity, j.body2`angularVelocity
    ensures j.body1.linearVelocity
            == PushedBack(old(j.body1.linearVelocity), j.invMass1, ImpulseLinear(j.impulse, j.motorImpulse, j.perp, j.axis))
    ensures j.body1.angularVelocity
            == TurnedBack(old(j.body1.angularVelocity), j.invI1, ImpulseAngular(j.impulse, j.motorImpulse, j.s1, j.a1))
    ensures j.body2.linearVelocity
            == Pushed(old(j.body2.linearVelocity), j.invMass2, ImpulseLinear(j.impulse, j.motorImpulse, j.perp, j.axis))
    ensures j.body2.angularVelocity
            == Turned(old(j.body2.angularVelocity), j.invI2, ImpulseAngular(j.impulse, j.motorImpulse, j.s2, j.a2))
  {
    InitVelocities(j, step, g, settings);
    IterateVelocities(j, step, iterations, old(j.body1.linearVelocity), old(j.body1.angularVelocity),
                      old(j.body2.linearVelocity), old(j.body2.angularVelocity));
  }

  /**
   * What GetReactionForce and GetReactionTorque report after a velocity
   * phase, read back against the bodies: the reaction force over inv_dt is
   * exactly the linear impulse the bodies received in the step (-P to body 1,
   * +P to body 2), and the reaction torque over inv_dt, plus the moment arms
   * of the point-to-line and axial impulses, is the angular impulse they
   * received.
   */
  method ReactionOverVelocityPhase(j: PrismaticJoint, step: TimeStep, g: JointGeometry, settings: Settings,
                                   iterations: nat)
    requires j.Valid()
    modifies j`invMass1, j`invI1, j`invMass2, j`invI2
    modifies j`axis, j`perp, j`a1, j`a2, j`s1, j`s2, j`motorMass, j`K
    modifies j`limitState, j`impulse, j`motorImpulse
    modifies j.body1`linearVelocity, j.body1`angularVelocity, j.body2`linearVelocity, j.body2`angularVelocity
    ensures step.invDt != 0.0 ==>
              j.body1.linearVelocity
              == PushedBack(old(j.body1.linearVelocity), j.invMass1, Scale(1.0 / step.invDt, j.GetReactionForce(step.invDt)))
    ensures step.invDt != 0.0 ==>
              j.body2.linearVelocity
              == Pushed(old(j.body2.linearVelocity), j.invMass2, Scale(1.0 / step.invDt, j.GetReactionForce(step.invDt)))
    ensures step.invDt != 0.0 ==>
              j.body1.angularVelocity
              == TurnedBack(old(j.body1.angularVelocity), j.invI1,
                            j.GetReactionTorque(step.invDt) / step.invDt + j.impulse.x * j.s1 + (j.motorImpulse + j.impulse.z) * j.a1)
    ensures step.invDt != 0.0 ==>
              j.body2.angularVelocity
              == Turned(old(j.body2.angularVelocity), j.invI2,
                        j.GetReactionTorque(step.invDt) / step.invDt + j.impulse.x * j.s2 + (j.motorImpulse + j.impulse.z) * j.a2)
  {
    InitAndSolveVelocities(j, step, g, settings, iterations);
  }
}
