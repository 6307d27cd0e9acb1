# Farseer Physics core, modelled in Dafny

This project models three parts of the Farseer Physics engine over exact
real arithmetic and proves properties of them:

- the XNA 3 rigid body `Body` (module `RigidBody`, file `RigidBody.dfy`).
  It covers the mass, inertia and static-body setters with their
  inverse-mass invariant, the force, torque and impulse accumulators, drag,
  semi-implicit Euler integration of velocity and position, the split-impulse
  bias velocities, and the rotation wrap into (0, 2*pi] with a revolution
  counter;
- the Farseer 3.0 `PrismaticJoint` (module `Joints`, file `Joints.dfy`).
  It covers the Jacobian and the effective-mass matrix K, the limit state
  machine, warm starting, the motor row and its clamp, the block solve with
  its limit sign clamp, and position correction with its convergence result.
  The class works over the part of the 3.0 body the joint reads and writes
  (velocities, inverse masses, sweep centre and angle);
- the Farseer 3.0 collision types (module `Collision`, file `Collision.dfy`).
  It covers AABB overlap and validity, `Features` and `ContactID` with
  `Key` as a packing of the four feature bytes, the segment ray cast
  `TestSegment`, and `ManifoldPoint`, `Manifold` and their deep-copying
  `Clone`.

`Math2D.dfy` holds the shared vector and matrix algebra: `Vector2`,
`Vector3`, `Mat33` with `Solve22` and `Solve33`, and `Cross`, `Clamp`, `Abs`,
`Max` and `Min`.

Fields the source updates in place are class fields, read through `reads`
frames and written through `modifies` frames. The `while` loops of the
rotation setter and of the manifold copy are Dafny loops with invariants.
Values the source computes with a square root are inputs, constrained by a
precondition that characterises them:
- the body's speed for quadratic drag (on IntegrateVelocity and ApplyDrag);
- the segment normal's length (on TestSegment and the lemmas about it).

Values the source computes with a trigonometric function are inputs with no
constraint: the joint's rotated axis, perpendicular and anchor vectors
(`JointGeometry`). Every joint result holds for any four vectors, including a
perpendicular that is not the quarter turn of the axis.

## Model

| member | source | states |
|---|---|---|
| RigidBody.WrapRotation | Branches/XNA3/Dynamics/Body.cs:263-274 | the wrapped angle lies in (0, TwoPi], and angle + revolutions*TwoPi is unchanged by the wrap |
| RigidBody.WrapUnique | Branches/XNA3/Dynamics/Body.cs:263-274 | at most one pair (angle in (0, TwoPi], revolution count) has a given total rotation, so the wrap's result is determined by the total |
| RigidBody.DragForce | Branches/XNA3/Dynamics/Body.cs:696-727 | with nonnegative coefficients the drag force never points along the velocity (force . v <= 0); without quadratic drag it is -linearDragCoefficient*v |
| RigidBody.RotationalDrag | Branches/XNA3/Dynamics/Body.cs:742-748 | the drag torque is -k*w*abs(w) (the source's w*w*sign(w)), and opposes the spin for k >= 0 |
| RigidBody.Body.constructor | Branches/XNA3/Dynamics/Body.cs:28-63 | a new body has mass and inertia 1, both inverses 1, is dynamic, has drag coefficients 0.001, and everything kinematic is zero |
| RigidBody.Body.Copy | Branches/XNA3/Dynamics/Body.cs:69-75 | the copy's mass, inertia and linear and rotational drag coefficients come from the other body, its inverses are their reciprocals, and its kinematic state is zero |
| RigidBody.Body.SetMass | Branches/XNA3/Dynamics/Body.cs:122-137 | a zero mass is rejected with nothing changed; otherwise mass becomes the value and inverseMass is 0 for a static body and 1/value for a dynamic one; the static/inverse invariant is kept |
| RigidBody.Body.SetMomentOfInertia | Branches/XNA3/Dynamics/Body.cs:163-178 | the same rule for the moment of inertia and its inverse |
| RigidBody.Body.SetIsStatic | Branches/XNA3/Dynamics/Body.cs:196-209 | making a body static zeroes both inverses; making it dynamic restores 1/mass and 1/momentOfInertia |
| RigidBody.Body.SetRotation | Branches/XNA3/Dynamics/Body.cs:261-280 | afterwards 0 < rotation <= TwoPi, rotation + revolutions*TwoPi equals the assigned value plus the old revolutions times TwoPi, and totalRotation equals that sum |
| RigidBody.Body.ApplyForce | Branches/XNA3/Dynamics/Body.cs:509-527 | the force accumulator gains the force; nothing else changes |
| RigidBody.Body.ApplyForceAtLocalPoint | Branches/XNA3/Dynamics/Body.cs:529-559 | the force accumulator gains the force and the torque gains the cross product of the world offset and the force |
| RigidBody.Body.ApplyForceAtWorldPoint | Branches/XNA3/Dynamics/Body.cs:561-587 | the force accumulator gains the force and the torque gains cross(point - position, force) |
| RigidBody.Body.ClearForce | Branches/XNA3/Dynamics/Body.cs:589-593 | only the force accumulator changes, to zero |
| RigidBody.Body.ApplyTorque | Branches/XNA3/Dynamics/Body.cs:595-598 | only the torque accumulator changes; it gains the torque |
| RigidBody.Body.ClearTorque | Branches/XNA3/Dynamics/Body.cs:600-603 | only the torque accumulator changes, to zero |
| RigidBody.Body.ApplyImpulseAsWritten | Branches/XNA3/Dynamics/Body.cs:610-625 | as written, the pending impulse gains impulse*inverseMass plus the current linear velocity |
| RigidBody.Body.ApplyImpulse | Branches/XNA3/Dynamics/Body.cs:606-625 | corrected: only the pending impulse changes; it gains the impulse, which ApplyImpulses later applies |
| RigidBody.Body.ApplyImpulses | Branches/XNA3/Dynamics/Body.cs:652-657 | the linear velocity gains inverseMass times the pending impulse, and the pending impulse becomes zero |
| RigidBody.Body.ApplyImmediateImpulse | Branches/XNA3/Dynamics/Body.cs:663-678 | only the linear velocity changes; it gains impulse*inverseMass |
| RigidBody.Body.ClearImpulse | Branches/XNA3/Dynamics/Body.cs:680-684 | only the pending impulse changes, to zero |
| RigidBody.Body.ApplyAngularImpulse | Branches/XNA3/Dynamics/Body.cs:686-694 | only the angular velocity changes; it gains impulse*inverseMomentOfInertia |
| RigidBody.Body.ApplyDrag | Branches/XNA3/Dynamics/Body.cs:696-749 | force gains the drag force of the current velocity and torque gains the rotational drag of the current spin; nothing else changes |
| RigidBody.Body.IntegrateVelocity | Branches/XNA3/Dynamics/Body.cs:751-787 | a static body is untouched; otherwise force and torque gain the drag, then v' = v + dt*inverseMass*force and w' = w + torque*inverseMomentOfInertia*dt |
| RigidBody.Body.IntegratePosition | Branches/XNA3/Dynamics/Body.cs:789-848 | a static body is untouched; otherwise position gains (v + vBias)*dt, rotation is wrapped into (0, TwoPi] with rotation + revolutions*TwoPi equal to the old sum plus (w + wBias)*dt, totalRotation gains (w + wBias)*dt, and both bias velocities become zero |
| RigidBody.Body.ApplyImpulseAtWorldOffset | Branches/XNA3/Dynamics/Body.cs:850-874 | the linear velocity gains impulse*inverseMass and the angular velocity gains cross(offset, impulse)*inverseMomentOfInertia; nothing else changes |
| RigidBody.Body.ApplyBiasImpulseAtWorldOffset | Branches/XNA3/Dynamics/Body.cs:876-902 | the same for the two bias velocities, which are the only fields that change |
| RigidBody.Body.ResetDynamics | Branches/XNA3/Dynamics/Body.cs:363-386 | velocities, position, rotation, revolutions, total rotation, force, torque and the pending impulse are all zero; mass, inertia and drag are kept |
| RigidBody.StaticToggleRestoresInverses | Branches/XNA3/Dynamics/Body.cs:196-209 | making a dynamic body static and then dynamic again gives back its inverse mass and inverse inertia |
| RigidBody.RotationUnwrapExample | Branches/XNA3/Dynamics/Body.cs:261-280 | assigning TwoPi + 0.1 to a fresh body stores rotation 0.1, one revolution and total TwoPi + 0.1 |
| RigidBody.DeferredImpulseAsWritten | Branches/XNA3/Dynamics/Body.cs:610-625 | with the as-written ApplyImpulse then ApplyImpulses, a unit-mass body with velocity v0 given impulse j ends at 2*v0 + j |
| RigidBody.DeferredImpulse | Branches/XNA3/Dynamics/Body.cs:652-657 | with the corrected ApplyImpulse the same sequence ends at v0 + j |
| Joints.EffectiveMassSymmetric | SourceFiles/FP3.0/Dynamics/Joints/PrismaticJoint.cs:456-465 | K is symmetric; its limit-row diagonal entry is the axial mass; its diagonal is nonnegative for nonnegative inverse masses and inertias |
| Joints.MotorMassInvertsAxialMass | SourceFiles/FP3.0/Dynamics/Joints/PrismaticJoint.cs:441-443 | the motor mass times k33 is 1 when k33 is nonzero, the source's 1/k33; for k33 = 0 it is the model's guard value 0 (see Left out) |
| Joints.ImpulseIsLinear | SourceFiles/FP3.0/Dynamics/Joints/PrismaticJoint.cs:514-516 | the linear and angular impulses P and L are additive in the accumulated impulses |
| Joints.ImpulsesCompose | SourceFiles/FP3.0/Dynamics/Joints/PrismaticJoint.cs:555-559 | giving a body two joint impulses in turn equals giving it their sum, on either side of the joint |
| Joints.AccumulatedImpulse | SourceFiles/FP3.0/Dynamics/Joints/PrismaticJoint.cs:592-602 | a body that has received the accumulated impulse p and then the change q - p has received q |
| Joints.ZeroImpulse | SourceFiles/FP3.0/Dynamics/Joints/PrismaticJoint.cs:524-528 | the joint impulse of zero accumulators leaves every body state as it was |
| Joints.OppositeImpulsesConserveMomentum | SourceFiles/FP3.0/Dynamics/Joints/PrismaticJoint.cs:555-559 | -invMass1*P to body 1 and +invMass2*P to body 2 conserve the linear momentum of two dynamic bodies |
| Joints.MotorUpdateBounded | SourceFiles/FP3.0/Dynamics/Joints/PrismaticJoint.cs:544-548 | for a nonnegative bound the new motor impulse lies in [-bound, bound], and an unsaturated update is exactly the old impulse plus motorMass*(motorSpeed - Cdot) |
| Joints.MotorThenBlock | SourceFiles/FP3.0/Dynamics/Joints/PrismaticJoint.cs:555-559 | the motor row's impulse followed by the block rows' impulse equals the combined joint impulse |
| Joints.KicksComposeBack | SourceFiles/FP3.0/Dynamics/Joints/PrismaticJoint.cs:542-602 | body 1 kicked back by the motor row's change and then by the block rows' change has received back their sum |
| Joints.KicksCompose | SourceFiles/FP3.0/Dynamics/Joints/PrismaticJoint.cs:542-602 | body 2 kicked by the motor row's change and then by the block rows' change has received their sum |
| Joints.PointToLineImpulseSolves | SourceFiles/FP3.0/Dynamics/Joints/PrismaticJoint.cs:604-613 | with the limit inactive the impulse change has no limit part and, for a regular 2x2 block, K times it equals -Cdot1 |
| Joints.BlockImpulseClamps | SourceFiles/FP3.0/Dynamics/Joints/PrismaticJoint.cs:566-590 | after the block solve the limit impulse is >= 0 at the lower limit, <= 0 at the upper, unclamped with equal limits; for a regular 2x2 block the first two rows are solved exactly given the limit impulse's change |
| Joints.PositionImpulseSolves | SourceFiles/FP3.0/Dynamics/Joints/PrismaticJoint.cs:719-735 | without an active limit the position impulse has no limit part and, for a regular 2x2 block, cancels C1 |
| Joints.PositionMassBlock | SourceFiles/FP3.0/Dynamics/Joints/PrismaticJoint.cs:721-729 | without an active limit the position matrix has the upper-left block of K, zeros under it and the previous third column |
| Joints.StaleLimitImpulseAsWritten | SourceFiles/FP3.0/Dynamics/Joints/PrismaticJoint.cs:498-501 | as written, disabling a limit that holds an impulse leaves it inactive with that nonzero impulse |
| Joints.LimitTransitionCases | SourceFiles/FP3.0/Dynamics/Joints/PrismaticJoint.cs:469-501 | EqualLimits exactly when enabled with abs(upper - lower) < 2*LinearSlop; AtLower exactly when enabled, not equal and translation <= lower; AtUpper exactly when enabled, not equal, above lower and >= upper; an inactive limit holds no impulse; a changed lower/upper state starts from 0; the impulse is either kept or zeroed |
| Joints.PositionLimitError | SourceFiles/FP3.0/Dynamics/Joints/PrismaticJoint.cs:657-681 | C2 lies in [-max, max] with equal limits, in [-max, 0] at the lower limit and in [0, max] at the upper, and is 0 exactly when the violation is within the slop; the limit error is the violation and nonnegative; between the limits nothing is active |
| Joints.PrismaticJoint.constructor | SourceFiles/FP3.0/Dynamics/Joints/PrismaticJoint.cs:220-243 | the joint takes anchors, axis, reference angle, limits and motor settings from the definition, its perpendicular is the axis turned a quarter turn, and its accumulators are zero with the limit inactive |
| Joints.PrismaticJoint.GetReactionForce | SourceFiles/FP3.0/Dynamics/Joints/PrismaticJoint.cs:357-360 | the reaction force divided by inv_dt is the accumulated linear impulse P (ReactionOverVelocityPhase ties it to the bodies) |
| Joints.PrismaticJoint.GetReactionTorque | SourceFiles/FP3.0/Dynamics/Joints/PrismaticJoint.cs:362-365 | the reaction torque divided by inv_dt is the angular row's accumulated impulse (ReactionOverVelocityPhase ties it to the bodies) |
| Joints.PrismaticJoint.ApplyJointImpulse | SourceFiles/FP3.0/Dynamics/Joints/PrismaticJoint.cs:514-522 | body 1 receives -invMass1*P and -invI1*L1, body 2 +invMass2*P and +invI2*L2, for the same P; for two dynamic bodies their total linear momentum (velocity over inverse mass) is unchanged |
| Joints.PrismaticJoint.CacheJacobians | SourceFiles/FP3.0/Dynamics/Joints/PrismaticJoint.cs:424-465 | the inverse masses are copied from the bodies, the Jacobian terms a1, a2, s1, s2 are the cross products at the current separation, the motor mass inverts the axial mass and K is the effective-mass matrix |
| Joints.PrismaticJoint.UpdateLimitState | SourceFiles/FP3.0/Dynamics/Joints/PrismaticJoint.cs:469-501 | the state and the limit impulse follow the (corrected) limit transition; the other impulse rows are kept |
| Joints.PrismaticJoint.WarmStart | SourceFiles/FP3.0/Dynamics/Joints/PrismaticJoint.cs:503-528 | a disabled motor loses its impulse; with warm starting the impulses are scaled by DtRatio and applied to the bodies with opposite signs; without it they are zero and the bodies unchanged |
| Joints.PrismaticJoint.InitVelocityConstraints | SourceFiles/FP3.0/Dynamics/Joints/PrismaticJoint.cs:409-529 | (corrected) the cached masses, Jacobian, motor mass and K as in CacheJacobians, the corrected limit state machine at the current translation, and warm starting as in WarmStart |
| Joints.PrismaticJoint.AccumulateMotorImpulse | SourceFiles/FP3.0/Dynamics/Joints/PrismaticJoint.cs:546-559 | the motor impulse takes the new value and the bodies receive exactly its change |
| Joints.PrismaticJoint.AccumulateImpulse | SourceFiles/FP3.0/Dynamics/Joints/PrismaticJoint.cs:592-602 | the row impulses take the new value and the bodies receive exactly its change |
| Joints.PrismaticJoint.SolveMotorRow | SourceFiles/FP3.0/Dynamics/Joints/PrismaticJoint.cs:542-560 | outside EqualLimits with the motor on, the motor impulse becomes the clamped update at the current axis speed and the bodies receive its change; otherwise nothing changes |
| Joints.PrismaticJoint.SolveBlockRows | SourceFiles/FP3.0/Dynamics/Joints/PrismaticJoint.cs:562-620 | with an active limit the row impulses become the block solve, otherwise the 2x2 point-to-line solve is added (BlockRowsImpulse at the current velocities); the limit impulse is >= 0 at the lower and <= 0 at the upper limit and unchanged when inactive; the bodies receive exactly their change |
| Joints.PrismaticJoint.SolveVelocityConstraints | SourceFiles/FP3.0/Dynamics/Joints/PrismaticJoint.cs:531-626 | the motor impulse is the clamped update (or unchanged); the row impulses are exactly BlockRowsImpulse at the velocities after the motor row's kick; the limit impulse is >= 0 at the lower and <= 0 at the upper limit and unchanged when inactive; body 1 receives -invMass1*P and body 2 +invMass2*P of exactly the change of the accumulated impulses |
| Joints.PrismaticJoint.PositionErrors | SourceFiles/FP3.0/Dynamics/Joints/PrismaticJoint.cs:648-691 | the limit error of an enabled limit at the current translation, C1 = (perp . d, a2 - a1 - refAngle), and the refreshed Jacobian (the axis terms only with the limit enabled) |
| Joints.PrismaticJoint.ApplyPositionImpulse | SourceFiles/FP3.0/Dynamics/Joints/PrismaticJoint.cs:696-750 | K becomes the position matrix, and the sweeps move by -+invMass*P and -+invI*L of the position impulse |
| Joints.PrismaticJoint.SolvePositionConstraints | SourceFiles/FP3.0/Dynamics/Joints/PrismaticJoint.cs:628-755 | the result is true exactly when max(limit error, abs(C1.x)) <= LinearSlop and abs(C1.y) <= AngularSlop, with the Jacobian, K and the sweep corrections as in PositionErrors and ApplyPositionImpulse |
| Joints.IterateVelocities | SourceFiles/FP3.0/Dynamics/Joints/PrismaticJoint.cs:531-626 | over any number of velocity iterations, each body's velocity keeps differing from its reference velocity by exactly the impulses accumulated in the joint |
| Joints.InitVelocities | SourceFiles/FP3.0/Dynamics/Joints/PrismaticJoint.cs:508-528 | (corrected) after InitVelocityConstraints, with the corrected limit transition, each body's velocity differs from its old velocity by exactly the accumulated joint impulses, with or without warm starting |
| Joints.InitAndSolveVelocities | SourceFiles/FP3.0/Dynamics/Joints/PrismaticJoint.cs:409-626 | (corrected) after initialisation with the corrected limit transition and any number of velocity iterations, each body's velocity differs from its velocity before the step by exactly the joint's accumulated impulses |
| Joints.ReactionOverVelocityPhase | SourceFiles/FP3.0/Dynamics/Joints/PrismaticJoint.cs:357-365 | after a velocity phase with inv_dt != 0, the reaction force over inv_dt is exactly the linear impulse the bodies received in the step (-P to body 1, +P to body 2), and the reaction torque over inv_dt plus impulse.x*s + (motorImpulse + impulse.z)*a is exactly the angular impulse each received |
| Joints.EffectiveMass | SourceFiles/FP3.0/Dynamics/Joints/PrismaticJoint.cs:456-465 | computes K from the inverse masses and the Jacobian terms; EffectiveMassSymmetric states its symmetry, axial entry and diagonal |
| Joints.MotorMass | SourceFiles/FP3.0/Dynamics/Joints/PrismaticJoint.cs:441-443 | computes the inverse of the axial mass k33; MotorMassInvertsAxialMass states that it inverts k33 |
| Joints.MotorUpdate | SourceFiles/FP3.0/Dynamics/Joints/PrismaticJoint.cs:544-548 | computes the clamped accumulated motor impulse; MotorUpdateBounded states its bound and its unsaturated value |
| Joints.PointToLineImpulse | SourceFiles/FP3.0/Dynamics/Joints/PrismaticJoint.cs:604-613 | computes the 2x2 point-to-line impulse change; PointToLineImpulseSolves states that it solves K*x = -Cdot1 with no limit part |
| Joints.BlockImpulse | SourceFiles/FP3.0/Dynamics/Joints/PrismaticJoint.cs:566-590 | computes the block-solved row impulses; BlockImpulseClamps states the limit sign clamp and the 2x2 step |
| Joints.PositionImpulse | SourceFiles/FP3.0/Dynamics/Joints/PrismaticJoint.cs:719-735 | computes the position impulse; PositionImpulseSolves states that it cancels C1 without an active limit |
| Joints.LimitTransitionAsWritten | SourceFiles/FP3.0/Dynamics/Joints/PrismaticJoint.cs:469-501 | computes the limit state and limit impulse as written; StaleLimitImpulseAsWritten exhibits the stale impulse |
| Joints.LimitTransition | SourceFiles/FP3.0/Dynamics/Joints/PrismaticJoint.cs:469-501 | computes the corrected limit state and limit impulse; LimitTransitionCases states each state's exact condition and the impulse it keeps |
| Joints.PrismaticJoint.BlockRowsImpulse | SourceFiles/FP3.0/Dynamics/Joints/PrismaticJoint.cs:562-620 | computes the row impulses of SolveBlockRows at given velocities; SolveBlockRows and SolveVelocityConstraints state that the solver stores exactly it |
| Collision.TestOverlap | SourceFiles/FP3.0/Collision/Collision.cs:39-52 | computes AABB overlap; OverlapCharacterized and OverlapIffCommonPoint state what it means |
| Collision.IsValid | SourceFiles/FP3.0/Collision/Collision.cs:284-293 | computes AABB validity; ValidOverlapsItself states what it means |
| Collision.Key | SourceFiles/FP3.0/Collision/Collision.cs:84-93 | packs the four feature bytes into the key; KeyRoundTrip and KeyEqualityIsFeatureEquality state that it is a 32-bit, injective packing |
| Collision.ContactOfKey | SourceFiles/FP3.0/Collision/Collision.cs:84-93 | reads the four feature bytes back from a 32-bit key; KeyOfContact states that it inverts Key |
| Collision.TestSegment | SourceFiles/FP3.0/Collision/Collision.cs:228-265 | computes the segment ray cast; HitConditions, HitWhen, HitIsCrossing, HitNormal, CrossingIsHit and MissLeavesDefaults state what a hit and a miss mean |
| Collision.OverlapCharacterized | SourceFiles/FP3.0/Collision/Collision.cs:39-52 | TestOverlap holds exactly when b.lower - a.upper <= 0 and a.lower - b.upper <= 0 in both components, and is symmetric |
| Collision.ValidOverlapsItself | SourceFiles/FP3.0/Collision/Collision.cs:284-293 | IsValid holds exactly when upper >= lower in both components, and a valid box overlaps itself |
| Collision.OverlapIffCommonPoint | SourceFiles/FP3.0/Collision/Collision.cs:39-52 | two valid boxes pass TestOverlap exactly when some point lies in both |
| Collision.KeyRoundTrip | SourceFiles/FP3.0/Collision/Collision.cs:84-93 | the key of a ContactID is a 32-bit value from which its four feature bytes are recovered |
| Collision.KeyOfContact | SourceFiles/FP3.0/Collision/Collision.cs:84-93 | every 32-bit key is the key of the features read from it |
| Collision.KeyEqualityIsFeatureEquality | SourceFiles/FP3.0/Collision/Collision.cs:58-93 | two contact IDs have equal keys exactly when all four features are equal |
| Collision.MissLeavesDefaults | SourceFiles/FP3.0/Collision/Collision.cs:230-231 | a miss reports lambda 0 and the zero normal |
| Collision.HitConditions | SourceFiles/FP3.0/Collision/Collision.cs:239-259 | a hit implies denom > k_slop, 0 <= a <= maxLambda*denom, -k_slop*denom <= mu2 <= (1 + k_slop)*denom and lambda = a/denom |
| Collision.HitWhen | SourceFiles/FP3.0/Collision/Collision.cs:242-259 | the converse: under those three conditions the test hits with lambda a/denom |
| Collision.HitIsCrossing | SourceFiles/FP3.0/Collision/Collision.cs:242-259 | on a hit 0 <= lambda <= maxLambda, and the ray point at lambda lies on this segment's line at parameter mu2/denom in [-k_slop, 1 + k_slop] |
| Collision.HitNormal | SourceFiles/FP3.0/Collision/Collision.cs:236-258 | on a hit the normal is perpendicular to the segment and of unit length |
| Collision.CrossingIsHit | SourceFiles/FP3.0/Collision/Collision.cs:242-259 | a front-facing ray that meets the segment within the tolerances at parameter lambda <= maxLambda is reported as a hit at that lambda |
| Collision.CramerCrossing | SourceFiles/FP3.0/Collision/Collision.cs:245-250 | for non-parallel lines, the parameters from the cross products give the crossing point |
| Collision.CrossingParameters | SourceFiles/FP3.0/Collision/Collision.cs:245-250 | the parameters of a crossing point are the cross-product quotients used by the test |
| Collision.UnitNormal | SourceFiles/FP3.0/Collision/Collision.cs:256 | dividing a nonzero vector by its length gives a unit vector |
| Collision.NormalLengthPositive | SourceFiles/FP3.0/Collision/Collision.cs:242-256 | a front-facing ray implies a nonzero normal and a positive normal length |
| Collision.ManifoldPoint.constructor | SourceFiles/FP3.0/Collision/Collision.cs:102-132 | a new point has all six fields at their defaults |
| Collision.ManifoldPoint.Clone | SourceFiles/FP3.0/Collision/Collision.cs:134-144 | a fresh point whose six fields equal this one's |
| Collision.Manifold.constructor | SourceFiles/FP3.0/Collision/Collision.cs:165-171 | Points is a fresh array of length MaxManifoldPoints whose entries are distinct, fresh, non-null default points |
| Collision.Manifold.Clone | SourceFiles/FP3.0/Collision/Collision.cs:173-186 | a fresh manifold with the same Normal and PointCount and a fresh Points array of the same length, whose entries are distinct fresh points field-equal to the originals; the original is not modified |

## Left out

- Floating point: all arithmetic is over exact reals. Single-precision rounding, overflow and NaN propagation are not modelled.
- RigidBody.WrapRotation: terminates for every real angle; the source's single-precision loops at Body.cs:264-271 and 831-838 do not. Once half an ulp of the angle exceeds 2*pi (from about 2^27, roughly 1.3e8 rad), `rotation -= TwoPi` no longer changes the angle and the loop never ends. The exact-real measure hides that.
- Square roots: the quadratic-drag speed and the segment normal's length are inputs. Their preconditions state the defining property (`speed*speed == v . v`, `len*len == n . n` with len = 0 only for n = 0).
- Trigonometry: `JointGeometry` supplies the rotated anchors, axis and perpendicular, unconstrained. The source's perpendicular is always the quarter turn of the axis (PrismaticJoint.cs:233, both rotated by the same R1); the model does not use or require that. `Mat22(angle)` and the rotation used in ApplyForceAtLocalPoint are not modelled; that method takes the world-space offset.
- Joints.BlockImpulseClamps: the 3x3 solve is not proved to solve K*x = b. So nothing is proved about the block rows beyond the limit clamp and the 2x2 step.
- Joints.EffectiveMassSymmetric: states symmetry and a nonnegative diagonal. Positive semidefiniteness of K is not proved.
- Settings: `LinearSlop`, `AngularSlop` and `MaxLinearCorrection` are a positive parameter record. `MaxManifoldPoints` is 2 and `FLT_EPSILON` is its single-precision value.
- Settings.cs, CommonMath.cs and Mat33.cs are not part of this model. `Mat33.Solve22` and `Solve33` are modelled here by Cramer's rule, zero for a singular matrix.
- The FP3.0 body members the joint calls: `GetXForm`, `GetLocalCenter`, `SynchronizeTransform` and `WakeUp`. The joint's body is reduced to its velocities, inverse masses and sweep.
- The `Updated` notification, `Dispose`, the `Disposed` event, `IdleTime` and `Moves` are observers and lifecycle, not solver state.
- The `_previous*` fields and the drag temporaries (`_linearDrag`, `_rotationalDrag`, `dv`): the integrators and ResetDynamics write them, but no modelled operation reads them afterwards, so they are locals in the model. The `Enabled` and `IgnoreGravity` flags are plain properties no modelled operation touches.
- Collision.KeyRoundTrip: `Key` is the little-endian packing of the explicit field overlay; byte order on other platforms is not modelled.
- Joints.PrismaticJoint.constructor: requires two different bodies; joints are not modelled on a single body connected to itself. `Settings.FORCE_INV_SCALE` applied to the maximum motor force at PrismaticJoint.cs:235 is taken as the identity, so maxMotorForce is the definition's value.
- Joints.MotorMass: for k33 = 0 the model returns 0. The source divides by zero at PrismaticJoint.cs:443, which in single precision gives infinity (the commented-out assertion at 442 expects k33 > FLT_EPSILON). Nothing is promised about the motor row for a zero axial mass.
- Joints.MotorMassInvertsAxialMass: states the inverse only for k33 != 0; its k33 = 0 case is the model's guard value, not the source's infinite motor mass.
- Collision.Manifold.Clone: requires every point to be non-null. Where the source would throw a NullReferenceException, the model excludes the input.
- Step orchestration, the contact solver, the broad and narrow phases and the other joints are outside this model.

## Findings

| source | as written | input that shows it | evidently intended | confidence | as-written member | corrected member |
|---|---|---|---|---|---|---|
| Branches/XNA3/Dynamics/Body.cs:621-622 | `ApplyImpulse` adds `impulse*inverseMass + linearVelocity` to the pending impulse, which `ApplyImpulses` then scales by inverseMass again | unit-mass body with velocity v0, ApplyImpulse(j), ApplyImpulses(): velocity 2*v0 + j | the pending impulse gains the impulse itself, so the velocity becomes v0 + j*inverseMass | not executed | RigidBody.DeferredImpulseAsWritten | RigidBody.DeferredImpulse |
| SourceFiles/FP3.0/Dynamics/Joints/PrismaticJoint.cs:498-501 | disabling the limit sets the state to inactive but keeps the limit impulse, which warm starting keeps applying | limit disabled with a stored limit impulse z != 0: state InactiveLimit, impulse z | an inactive limit holds no impulse, as in the enabled branch at 494-495 | not executed | Joints.StaleLimitImpulseAsWritten | Joints.LimitTransitionCases |
