/**
 * The rigid body of the XNA3 branch: mass properties with the static-body
 * invariant, force and impulse accumulation, drag, and the symplectic Euler
 * integrator with split-impulse bias velocities and rotation wrap-around.
 */
module RigidBody {
  import opened Math2D

  /** MathHelper.TwoPi, the single-precision value 6.28318548. */
  const TwoPi: real := 6.28318548

  /**
   * The two while loops of the Rotation setter and of IntegratePosition:
   * subtract 2*pi while the angle is above 2*pi, add it while the angle is
   * at most 0, counting revolutions up and down.
   */
  method WrapRotation(angle: real, revolutions: int) returns (r: real, revs: int)
    ensures 0.0 < r <= TwoPi
    ensures r + revs as real * TwoPi == angle + revolutions as real * TwoPi
  {
    r, revs := angle, revolutions;
    while r > TwoPi
      invariant r + revs as real * TwoPi == angle + revolutions as real * TwoPi
      decreases r.Floor
    {
      r := r - TwoPi;
      revs := revs + 1;
    }
    while r <= 0.0
      invariant r <= TwoPi
      invariant r + revs as real * TwoPi == angle + revolutions as real * TwoPi
      decreases (-r).Floor
    {
      r := r + TwoPi;
      revs := revs - 1;
    }
  }

  /** An angle in (0, 2*pi] and a revolution count are determined by their total. */
  lemma WrapUnique(r1: real, n1: int, r2: real, n2: int)
    requires 0.0 < r1 <= TwoPi && 0.0 < r2 <= TwoPi
    requires r1 + n1 as real * TwoPi == r2 + n2 as real * TwoPi
    ensures r1 == r2 && n1 == n2
  {
    var k := n1 - n2;
    assert -TwoPi < k as real * TwoPi < TwoPi;
  }

  /** The linear drag force -k*v. */
  function LinearDrag(v: Vec2, k: real): Vec2 { Vec2(-v.x * k, -v.y * k) }

  /**
   * The drag force ApplyDrag adds: linear drag, plus quadratic drag
   * -k2*speed*v when it is enabled. It never points along the velocity.
   */
  function DragForce(v: Vec2, linearK: real, quadraticEnabled: bool, quadraticK: real, speed: real): (f: Vec2)
    ensures linearK >= 0.0 && quadraticK >= 0.0 && speed >= 0.0 ==> Dot(f, v) <= 0.0
    ensures !quadraticEnabled ==> f == Scale(-linearK, v)
  {
    var linear := LinearDrag(v, linearK);
    assert Dot(v, v) >= 0.0;
    assert Dot(linear, v) == -linearK * Dot(v, v);
    if quadraticEnabled then
      var quadratic := Vec2(-quadraticK * speed * v.x, -quadraticK * speed * v.y);
      assert Dot(quadratic, v) == -(quadraticK * speed) * Dot(v, v);
      assert quadraticK * speed >= 0.0 ==> Dot(quadratic, v) <= 0.0;
      Add(linear, quadratic)
    else
      linear
  }

  /**
   * The rotational drag torque -k3*w*w*sign(w): it equals -k3*w*|w|, so it
   * opposes the spin for a nonnegative coefficient.
   */
  function RotationalDrag(w: real, k: real): (t: real)
    ensures t == -k * w * Abs(w)
    ensures k >= 0.0 ==> t * w <= 0.0
  {
    var drag := w * w * Sign(w);
    drag * -k
  }

  class Body {
    var mass: real
    var momentOfInertia: real
    var inverseMass: real
    var inverseMomentOfInertia: real
    var isStatic: bool

    var linearDragCoefficient: real
    var quadraticDragCoefficient: real
    var rotationalDragCoefficient: real
    var isQuadraticDragEnabled: bool

    var position: Vec2
    var rotation: real
    var revolutions: int
    var totalRotation: real

    var linearVelocity: Vec2
    var angularVelocity: real
    var linearVelocityBias: Vec2
    var angularVelocityBias: real

    var force: Vec2
    var torque: real
    /** The pending impulse that ApplyImpulses applies and clears. */
    var impulse: Vec2

    /**
     * The body's invariant: mass and inertia are never 0; a static body has
     * zero inverse mass and inertia, any other body their reciprocals; the
     * total rotation is the wrapped rotation plus the whole revolutions.
     */
    ghost predicate Valid()
      reads this
    {
      && mass != 0.0 && momentOfInertia != 0.0
      && (isStatic ==> inverseMass == 0.0 && inverseMomentOfInertia == 0.0)
      && (!isStatic ==> inverseMass == 1.0 / mass && inverseMomentOfInertia == 1.0 / momentOfInertia)
      && totalRotation == rotation + revolutions as real * TwoPi
    }

    /** Body(): a dynamic body of mass 1 and inertia 1 at rest at the origin. */
    constructor ()
      ensures Valid()
      ensures mass == 1.0 && momentOfInertia == 1.0 && !isStatic
      ensures inverseMass == 1.0 && inverseMomentOfInertia == 1.0
      ensures linearDragCoefficient == 0.001 && quadraticDragCoefficient == 0.001
      ensures rotationalDragCoefficient == 0.001 && !isQuadraticDragEnabled
      ensures position == Zero2 && rotation == 0.0 && revolutions == 0 && totalRotation == 0.0
      ensures linearVelocity == Zero2 && angularVelocity == 0.0
      ensures linearVelocityBias == Zero2 && angularVelocityBias == 0.0
      ensures force == Zero2 && torque == 0.0 && impulse == Zero2
    {
      mass, momentOfInertia := 1.0, 1.0;
      inverseMass, inverseMomentOfInertia := 1.0, 1.0;
      isStatic := false;
      linearDragCoefficient, quadraticDragCoefficient := 0.001, 0.001;
      rotationalDragCoefficient := 0.001;
      isQuadraticDragEnabled := false;
      position, rotation, revolutions, totalRotation := Zero2, 0.0, 0, 0.0;
      linearVelocity, angularVelocity := Zero2, 0.0;
      linearVelocityBias, angularVelocityBias := Zero2, 0.0;
      force, torque, impulse := Zero2, 0.0, Zero2;
    }

    /**
     * Body(Body body): a fresh dynamic body with the other body's mass,
     * inertia, linear and rotational drag coefficients, through the setters.
     */
    constructor Copy(other: Body)
      requires other.Valid()
      ensures Valid() && !isStatic
      ensures mass == other.mass && momentOfInertia == other.momentOfInertia
      ensures inverseMass == 1.0 / other.mass && inverseMomentOfInertia == 1.0 / other.momentOfInertia
      ensures linearDragCoefficient == other.linearDragCoefficient
      ensures rotationalDragCoefficient == other.rotationalDragCoefficient
      ensures quadraticDragCoefficient == 0.001 && !isQuadraticDragEnabled
      ensures position == Zero2 && rotation == 0.0 && revolutions == 0 && totalRotation == 0.0
      ensures linearVelocity == Zero2 && angularVelocity == 0.0
      ensures linearVelocityBias == Zero2 && angularVelocityBias == 0.0
      ensures force == Zero2 && torque == 0.0 && impulse == Zero2
    {
      mass, momentOfInertia := other.mass, other.momentOfInertia;
      inverseMass, inverseMomentOfInertia := 1.0 / other.mass, 1.0 / other.momentOfInertia;
      isStatic := false;
      linearDragCoefficient, quadraticDragCoefficient := other.linearDragCoefficient, 0.001;
      rotationalDragCoefficient := other.rotationalDragCoefficient;
      isQuadraticDragEnabled := false;
      position, rotation, revolutions, totalRotation := Zero2, 0.0, 0, 0.0;
      linearVelocity, angularVelocity := Zero2, 0.0;
      linearVelocityBias, angularVelocityBias := Zero2, 0.0;
      force, torque, impulse := Zero2, 0.0, Zero2;
    }

    /** The Mass setter. A zero mass is rejected (the source throws) and nothing changes. */
    method SetMass(value: real) returns (ok: bool)
      requires Valid()
      modifies this`mass, this`inverseMass
      ensures Valid()
      ensures ok <==> value != 0.0
      ensures ok ==> mass == value && inverseMass == (if isStatic then 0.0 else 1.0 / value)
      ensures !ok ==> mass == old(mass) && inverseMass == old(inverseMass)
    {
      if value == 0.0 {
        return false;
      }
      mass := value;
      if isStatic {
        inverseMass := 0.0;
      } else {
        inverseMass := 1.0 / value;
      }
      ok := true;
    }

    /** The MomentOfInertia setter, with the same rule as the Mass setter. */
    method SetMomentOfInertia(value: real) returns (ok: bool)
      requires Valid()
      modifies this`momentOfInertia, this`inverseMomentOfInertia
      ensures Valid()
      ensures ok <==> value != 0.0
      ensures ok ==> momentOfInertia == value
      ensures ok ==> inverseMomentOfInertia == (if isStatic then 0.0 else 1.0 / value)
      ensures !ok ==> momentOfInertia == old(momentOfInertia)
      ensures !ok ==> inverseMomentOfInertia == old(inverseMomentOfInertia)
    {
      if value == 0.0 {
        return false;
      }
      momentOfInertia := value;
      if isStatic {
        inverseMomentOfInertia := 0.0;
      } else {
        inverseMomentOfInertia := 1.0 / value;
      }
      ok := true;
    }

    /**
     * The IsStatic setter: a static body gets zero inverse mass and inertia,
     * a dynamic one gets them back from the stored mass and inertia.
     */
    method SetIsStatic(value: bool)
      requires Valid()
      modifies this`isStatic, this`inverseMass, this`inverseMomentOfInertia
      ensures Valid()
      ensures isStatic == value
      ensures value ==> inverseMass == 0.0 && inverseMomentOfInertia == 0.0
      ensures !value ==> inverseMass == 1.0 / mass && inverseMomentOfInertia == 1.0 / momentOfInertia
    {
      isStatic := value;
      if isStatic {
        inverseMass := 0.0;
        inverseMomentOfInertia := 0.0;
      } else {
        inverseMass := 1.0 / mass;
        inverseMomentOfInertia := 1.0 / momentOfInertia;
      }
    }

    /**
     * The Rotation setter: the stored rotation is wrapped into (0, 2*pi] and
     * the revolution counter absorbs the whole turns, so the total rotation is
     * the assigned value plus the revolutions counted before.
     */
    method SetRotation(value: real)
      requires Valid()
      modifies this`rotation, this`revolutions, this`totalRotation
      ensures Valid()
      ensures 0.0 < rotation <= TwoPi
      ensures rotation + revolutions as real * TwoPi == value + old(revolutions) as real * TwoPi
      ensures totalRotation == value + old(revolutions) as real * TwoPi
    {
      rotation, revolutions := WrapRotation(value, revolutions);
      totalRotation := rotation + revolutions as real * TwoPi;
    }

    /** ApplyForce adds to the force accumulator and touches nothing else. */
    method ApplyForce(f: Vec2)
      requires Valid()
      modifies this`force
      ensures Valid()
      ensures force == Add(old(force), f)
    {
      force := Add(force, f);
    }

    /**
     * ApplyForceAtLocalPoint: the force is added and so is its torque about the
     * body's position. `offset` is the local point rotated into world
     * orientation, GetWorldPosition(point) - position, which needs the body's
     * rotation matrix.
     */
    method ApplyForceAtLocalPoint(f: Vec2, offset: Vec2)
      requires Valid()
      modifies this`force, this`torque
      ensures Valid()
      ensures torque == old(torque) + Cross(offset, f)
      ensures force == Add(old(force), f)
    {
      torque := torque + Cross(offset, f);
      force := Add(force, f);
    }

    /** ApplyForceAtWorldPoint: the force is added and so is its torque about the body's position. */
    method ApplyForceAtWorldPoint(f: Vec2, point: Vec2)
      requires Valid()
      modifies this`force, this`torque
      ensures Valid()
      ensures torque == old(torque) + Cross(Sub(point, old(position)), f)
      ensures force == Add(old(force), f)
    {
      var diff := Sub(point, position);
      torque := torque + Cross(diff, f);
      force := Add(force, f);
    }

    method ClearForce()
      requires Valid()
      modifies this`force
      ensures Valid()
      ensures force == Zero2
    {
      force := Zero2;
    }

    /** ApplyTorque adds to the torque accumulator and touches nothing else. */
    method ApplyTorque(t: real)
      requires Valid()
      modifies this`torque
      ensures Valid()
      ensures torque == old(torque) + t
    {
      torque := torque + t;
    }

    method ClearTorque()
      requires Valid()
      modifies this`torque
      ensures Valid()
      ensures torque == 0.0
    {
      torque := 0.0;
    }

    /**
     * ApplyImpulse exactly as the source writes it: the pending impulse gains
     * impulse*inverseMass plus the current linear velocity.
     */
    method ApplyImpulseAsWritten(j: Vec2)
      requires Valid()
      modifies this`impulse
      ensures Valid()
      ensures impulse == Add(old(impulse), Add(Scale(inverseMass, j), linearVelocity))
    {
      var dv := Vec2(j.x * inverseMass, j.y * inverseMass);
      impulse := Vec2(impulse.x + (dv.x + linearVelocity.x), impulse.y + (dv.y + linearVelocity.y));
    }

    /** ApplyImpulse as its documentation describes it: the impulse is stored for ApplyImpulses. */
    method ApplyImpulse(j: Vec2)
      requires Valid()
      modifies this`impulse
      ensures Valid()
      ensures impulse == Add(old(impulse), j)
    {
      impulse := Add(impulse, j);
    }

    /** ApplyImpulses applies the pending impulse to the velocity, then clears it. */
    method ApplyImpulses()
      requires Valid()
      modifies this`linearVelocity, this`impulse
      ensures Valid()
      ensures linearVelocity == Add(old(linearVelocity), Scale(inverseMass, old(impulse)))
      ensures impulse == Zero2
    {
      ApplyImmediateImpulse(impulse);
      impulse := Zero2;
    }

    /** ApplyImmediateImpulse: the linear velocity changes by impulse*inverseMass at once. */
    method ApplyImmediateImpulse(j: Vec2)
      requires Valid()
      modifies this`linearVelocity
      ensures Valid()
      ensures linearVelocity == Add(old(linearVelocity), Scale(inverseMass, j))
    {
      var dv := Vec2(j.x * inverseMass, j.y * inverseMass);
      linearVelocity := Add(dv, linearVelocity);
    }

    method ClearImpulse()
      requires Valid()
      modifies this`impulse
      ensures Valid()
      ensures impulse == Zero2
    {
      impulse := Zero2;
    }

    /** ApplyAngularImpulse: the angular velocity changes by impulse*inverseMomentOfInertia. */
    method ApplyAngularImpulse(j: real)
      requires Valid()
      modifies this`angularVelocity
      ensures Valid()
      ensures angularVelocity == old(angularVelocity) + j * inverseMomentOfInertia
    {
      angularVelocity := angularVelocity + j * inverseMomentOfInertia;
    }

    /**
     * ApplyDrag: adds the drag force to the force accumulator and the
     * rotational drag to the torque. `speed` is the length of the linear
     * velocity, which the quadratic drag needs.
     */
    method ApplyDrag(speed: real)
      requires Valid()
      requires isQuadraticDragEnabled ==> speed >= 0.0 && speed * speed == Dot(linearVelocity, linearVelocity)
      modifies this`force, this`torque
      ensures Valid()
      ensures force == Add(old(force), DragForce(linearVelocity, linearDragCoefficient,
                                                 isQuadraticDragEnabled, quadraticDragCoefficient, speed))
      ensures torque == old(torque) + RotationalDrag(angularVelocity, rotationalDragCoefficient)
    {
      var drag := DragForce(linearVelocity, linearDragCoefficient, isQuadraticDragEnabled,
                            quadraticDragCoefficient, speed);
      ApplyForce(drag);
      ApplyTorque(RotationalDrag(angularVelocity, rotationalDragCoefficient));
    }

    /**
     * IntegrateVelocity: nothing happens to a static body. Otherwise drag is
     * folded into the force and torque accumulators, then the velocities
     * advance by force*inverseMass*dt and torque*inverseMomentOfInertia*dt.
     * `speed` is the length of the linear velocity (used by quadratic drag).
     */
    method IntegrateVelocity(dt: real, speed: real)
      requires Valid()
      requires isQuadraticDragEnabled ==> speed >= 0.0 && speed * speed == Dot(linearVelocity, linearVelocity)
      modifies this`force, this`torque, this`linearVelocity, this`angularVelocity
      ensures Valid()
      ensures isStatic ==> force == old(force) && torque == old(torque)
      ensures isStatic ==> linearVelocity == old(linearVelocity) && angularVelocity == old(angularVelocity)
      ensures !isStatic ==> force == Add(old(force), DragForce(old(linearVelocity), linearDragCoefficient,
                                                             isQuadraticDragEnabled, quadraticDragCoefficient, speed))
      ensures !isStatic ==> torque == old(torque) + RotationalDrag(old(angularVelocity), rotationalDragCoefficient)
      ensures !isStatic ==> linearVelocity == Add(old(linearVelocity), Scale(dt, Scale(inverseMass, force)))
      ensures !isStatic ==> angularVelocity == old(angularVelocity) + torque * inverseMomentOfInertia * dt
    {
      if isStatic {
        return;
      }
      ApplyDrag(speed);
      var acceleration := Scale(inverseMass, force);
      var dv := Scale(dt, acceleration);
      linearVelocity := Add(linearVelocity, dv);
      var dw := torque * inverseMomentOfInertia * dt;
      angularVelocity := angularVelocity + dw;
    }

    /**
     * IntegratePosition: nothing happens to a static body. Otherwise position
     * and rotation advance by the velocities plus the bias velocities, the
     * rotation is wrapped as by the Rotation setter, the total rotation
     * advances by exactly (w + wBias)*dt, and both bias velocities are reset.
     */
    method IntegratePosition(dt: real)
      requires Valid()
      modifies this`position, this`rotation, this`revolutions, this`totalRotation
      modifies this`linearVelocityBias, this`angularVelocityBias
      ensures Valid()
      ensures isStatic ==> position == old(position) && rotation == old(rotation)
      ensures isStatic ==> revolutions == old(revolutions) && totalRotation == old(totalRotation)
      ensures isStatic ==> linearVelocityBias == old(linearVelocityBias)
      ensures isStatic ==> angularVelocityBias == old(angularVelocityBias)
      ensures !isStatic ==> position == Add(old(position), Scale(dt, Add(linearVelocity, old(linearVelocityBias))))
      ensures !isStatic ==> 0.0 < rotation <= TwoPi
      ensures !isStatic ==> rotation + revolutions as real * TwoPi
                            == old(rotation) + (angularVelocity + old(angularVelocityBias)) * dt
                               + old(revolutions) as real * TwoPi
      ensures !isStatic ==> totalRotation == old(totalRotation) + (angularVelocity + old(angularVelocityBias)) * dt
      ensures !isStatic ==> linearVelocityBias == Zero2 && angularVelocityBias == 0.0
    {
      if isStatic {
        return;
      }
      var bodyLinearVelocity := Add(linearVelocity, linearVelocityBias);
      var dp := Vec2(bodyLinearVelocity.x * dt, bodyLinearVelocity.y * dt);
      position := Add(position, dp);
      linearVelocityBias := Zero2;

      var bodyAngularVelocity := angularVelocity + angularVelocityBias;
      var rotationChange := bodyAngularVelocity * dt;
      rotation, revolutions := WrapRotation(rotation + rotationChange, revolutions);
      totalRotation := rotation + revolutions as real * TwoPi;
      angularVelocityBias := 0.0;
    }

    /**
     * ApplyImpulseAtWorldOffset: the linear velocity changes by
     * impulse*inverseMass and the angular velocity by
     * cross(offset, impulse)*inverseMomentOfInertia.
     */
    method ApplyImpulseAtWorldOffset(j: Vec2, offset: Vec2)
      requires Valid()
      modifies this`linearVelocity, this`angularVelocity
      ensures Valid()
      ensures linearVelocity == Add(old(linearVelocity), Scale(inverseMass, j))
      ensures angularVelocity == old(angularVelocity) + Cross(offset, j) * inverseMomentOfInertia
    {
      var dv := Vec2(j.x * inverseMass, j.y * inverseMass);
      linearVelocity := Add(dv, linearVelocity);
      var angularImpulse := offset.x * j.y - offset.y * j.x;
      angularImpulse := angularImpulse * inverseMomentOfInertia;
      angularVelocity := angularVelocity + angularImpulse;
    }

    /** ApplyBiasImpulseAtWorldOffset: the same rule, applied to the bias velocities only. */
    method ApplyBiasImpulseAtWorldOffset(j: Vec2, offset: Vec2)
      requires Valid()
      modifies this`linearVelocityBias, this`angularVelocityBias
      ensures Valid()
      ensures linearVelocityBias == Add(old(linearVelocityBias), Scale(inverseMass, j))
      ensures angularVelocityBias == old(angularVelocityBias) + Cross(offset, j) * inverseMomentOfInertia
    {
      var dv := Vec2(j.x * inverseMass, j.y * inverseMass);
      linearVelocityBias := Add(dv, linearVelocityBias);
      var angularImpulseBias := offset.x * j.y - offset.y * j.x;
      angularImpulseBias := angularImpulseBias * inverseMomentOfInertia;
      angularVelocityBias := angularVelocityBias + angularImpulseBias;
    }

    /**
     * ResetDynamics: velocities, position, rotation, revolutions, total
     * rotation, force, torque and the pending impulse all become zero. Mass
     * properties and the bias velocities are kept.
     */
    method ResetDynamics()
      requires Valid()
      modifies this`linearVelocity, this`angularVelocity, this`position, this`rotation
      modifies this`revolutions, this`totalRotation, this`force, this`torque, this`impulse
      ensures Valid()
      ensures linearVelocity == Zero2 && angularVelocity == 0.0
      ensures position == Zero2 && rotation == 0.0 && revolutions == 0 && totalRotation == 0.0
      ensures force == Zero2 && torque == 0.0 && impulse == Zero2
    {
      linearVelocity, angularVelocity := Zero2, 0.0;
      position, rotation := Zero2, 0.0;
      revolutions, totalRotation := 0, 0.0;
      force, torque := Zero2, 0.0;
      impulse := Zero2;
    }
  }

  /**
   * Turning a dynamic body static and back restores its inverse mass and
   * inertia.
   */
  method StaticToggleRestoresInverses(b: Body)
    requires b.Valid() && !b.isStatic
    modifies b`isStatic, b`inverseMass, b`inverseMomentOfInertia
    ensures b.Valid() && !b.isStatic
    ensures b.inverseMass == old(b.inverseMass)
    ensures b.inverseMomentOfInertia == old(b.inverseMomentOfInertia)
  {
    b.SetIsStatic(true);
    b.SetIsStatic(false);
  }

  /**
   * On a fresh body, assigning 2*pi + 0.1 as the rotation stores 0.1, counts
   * one revolution and keeps the total rotation at 2*pi + 0.1.
   */
  method RotationUnwrapExample() returns (rotation: real, revolutions: int, total: real)
    ensures rotation == 0.1 && revolutions == 1 && total == TwoPi + 0.1
  {
    var b := new Body();
    b.SetRotation(TwoPi + 0.1);
    WrapUnique(b.rotation, b.revolutions, 0.1, 1);
    rotation, revolutions, total := b.rotation, b.revolutions, b.totalRotation;
  }

  /**
   * A fresh body (inverse mass 1) with velocity v0 that is given impulse j
   * through the as-written ApplyImpulse and then ApplyImpulses ends with
   * velocity 2*v0 + j: its own velocity is applied a second time.
   */
  method DeferredImpulseAsWritten(v0: Vec2, j: Vec2) returns (v: Vec2)
    ensures v == Add(Add(v0, v0), j)
  {
    var b := new Body();
    b.linearVelocity := v0;
    b.ApplyImpulseAsWritten(j);
    b.ApplyImpulses();
    v := b.linearVelocity;
  }

  /** With the corrected ApplyImpulse the same sequence ends with velocity v0 + j. */
  method DeferredImpulse(v0: Vec2, j: Vec2) returns (v: Vec2)
    ensures v == Add(v0, j)
  {
    var b := new Body();
    b.linearVelocity := v0;
    b.ApplyImpulse(j);
    b.ApplyImpulses();
    v := b.linearVelocity;
  }
}
