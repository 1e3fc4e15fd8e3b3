/**
 * MCFrictionGenerator: a force generator that, on every update, adds to an
 * object's physics component a linear friction force against the direction
 * of motion and, for objects with a shape, a constant torque against the
 * spin. The world's gravity and the fast length/normalise helpers of
 * MCVector2d are parameters.
 */
module Friction {
  import opened Geometry

  /** ROTATION_DECAY, the float 0.01f taken as the real 0.01. */
  const RotationDecay: real := 0.01

  /** The speed at and above which the full linear friction applies. */
  const UnitSpeed: real := 1.0

  function Abs(x: real): (r: real)
    ensures r >= 0.0 && (r == x || r == -x)
  {
    if x < 0.0 then -x else x
  }

  /** The linear coefficient stored by the constructor. */
  function LinearCoefficient(coeffLin: real, gravityK: real): (c: real)
    ensures c >= 0.0
    ensures c == coeffLin * gravityK || c == -(coeffLin * gravityK)
  {
    Abs(coeffLin * gravityK)
  }

  /** The rotational coefficient stored by the constructor: it carries the decay factor. */
  function RotationalCoefficient(coeffRot: real, gravityK: real): (c: real)
    ensures c >= 0.0
    ensures c == Abs(coeffRot * gravityK) * RotationDecay
  {
    Abs(coeffRot * gravityK * RotationDecay)
  }

  /** The magnitude factor of the linear friction force for a given speed. */
  function Factor(length: real, coeff: real, mass: real): real {
    if length >= UnitSpeed then coeff * mass else length * coeff * mass
  }

  /**
   * The force added by updateForce, evaluated left to right as the source
   * does: at speed 1 or more -direction * coeff * mass, below it the same
   * multiplied by the speed.
   */
  function LinearFriction(dir: Vec2, length: real, coeff: real, mass: real): (f: Vec2)
    ensures f == Scale(Neg(dir), Factor(length, coeff, mass))
  {
    if length >= UnitSpeed then
      ScaleAssoc(Neg(dir), coeff, mass);
      Scale(Scale(Neg(dir), coeff), mass)
    else
      ScaleAssoc(Neg(dir), length, coeff);
      ScaleAssoc(Neg(dir), length * coeff, mass);
      Scale(Scale(Scale(Neg(dir), length), coeff), mass)
  }

  lemma ScaleAssoc(w: Vec2, s: real, t: real)
    ensures Scale(Scale(w, s), t) == Scale(w, s * t)
  {
    assert (w.i * s) * t == w.i * (s * t);
    assert (w.j * s) * t == w.j * (s * t);
  }

  /**
   * The torque added by updateForce: none without a shape or without spin,
   * otherwise coeff * mass against the sign of the angular velocity.
   */
  function AngularFriction(hasShape: bool, angularVelocity: real, coeff: real, mass: real): (t: real)
    ensures !hasShape || angularVelocity == 0.0 ==> t == 0.0
    ensures coeff >= 0.0 && mass >= 0.0 ==> t * angularVelocity <= 0.0
    ensures hasShape && angularVelocity != 0.0 ==> Abs(t) == Abs(coeff * mass)
  {
    if !hasShape then 0.0
    else if angularVelocity > 0.0 then -coeff * mass * 1.0
    else if angularVelocity < 0.0 then coeff * mass * 1.0
    else 0.0
  }

  /**
   * Below the unit speed the friction factor never exceeds the factor at or
   * above it, and is strictly smaller when coefficient and mass are positive.
   */
  lemma {:induction false} DeadBandIsWeaker(slow: real, fast: real, coeff: real, mass: real)
    requires 0.0 <= slow < UnitSpeed <= fast
    requires coeff >= 0.0 && mass >= 0.0
    ensures Factor(slow, coeff, mass) <= Factor(fast, coeff, mass)
    ensures coeff > 0.0 && mass > 0.0 ==> Factor(slow, coeff, mass) < Factor(fast, coeff, mass)
  {
    var cm := coeff * mass;
    assert cm >= 0.0;
    assert slow * coeff * mass == slow * cm;
    assert slow * cm <= cm;
    if coeff > 0.0 && mass > 0.0 {
      assert cm > 0.0;
      assert (1.0 - slow) * cm > 0.0;
      assert cm - slow * cm == (1.0 - slow) * cm;
      assert Factor(slow, coeff, mass) == slow * cm < cm == Factor(fast, coeff, mass);
    }
  }

  /** At rest (zero speed) the linear friction force is the zero vector. */
  lemma AtRestNoLinearForce(dir: Vec2, coeff: real, mass: real)
    ensures LinearFriction(dir, 0.0, coeff, mass) == Vec2(0.0, 0.0)
  {
  }

  /** MCPhysicsComponent: the parts that friction reads and accumulates into. */
  class PhysicsComponent {
    var velocity: Vec2
    var angularVelocity: real
    var mass: real
    var force: Vec2
    var torque: real

    constructor (v: Vec2, av: real, m: real)
      ensures velocity == v && angularVelocity == av && mass == m
      ensures force == Vec2(0.0, 0.0) && torque == 0.0
    {
      velocity, angularVelocity, mass := v, av, m;
      force, torque := Vec2(0.0, 0.0), 0.0;
    }

    method AddForce(f: Vec2)
      modifies this
      ensures force == Add(old(force), f)
      ensures torque == old(torque)
      ensures velocity == old(velocity) && angularVelocity == old(angularVelocity) && mass == old(mass)
    {
      force := Add(force, f);
    }

    method AddTorque(t: real)
      modifies this
      ensures torque == old(torque) + t
      ensures force == old(force)
      ensures velocity == old(velocity) && angularVelocity == old(angularVelocity) && mass == old(mass)
    {
      torque := torque + t;
    }
  }

  /** MCObject: its physics component and whether it has a shape. */
  class PhysicsObject {
    const physicsComponent: PhysicsComponent
    var hasShape: bool

    constructor (pc: PhysicsComponent, shape: bool)
      ensures physicsComponent == pc && hasShape == shape
    {
      physicsComponent, hasShape := pc, shape;
    }
  }

  class FrictionGenerator {
    const coeffLinTot: real
    const coeffRotTot: real

    /** gravityK is the z component of the world's gravity. */
    constructor (coeffLin: real, coeffRot: real, gravityK: real)
      ensures coeffLinTot == LinearCoefficient(coeffLin, gravityK)
      ensures coeffRotTot == RotationalCoefficient(coeffRot, gravityK)
      ensures coeffLinTot >= 0.0 && coeffRotTot >= 0.0
    {
      coeffLinTot := LinearCoefficient(coeffLin, gravityK);
      coeffRotTot := RotationalCoefficient(coeffRot, gravityK);
    }

    /**
     * updateForce: one linear force is added on every call; a torque is
     * added only for objects with a shape that spin.
     */
    method UpdateForce(obj: PhysicsObject, lengthFast: Vec2 -> real, normalizedFast: Vec2 -> Vec2)
      modifies obj.physicsComponent
      ensures var pc := obj.physicsComponent;
              pc.force == Add(old(pc.force),
                              LinearFriction(normalizedFast(old(pc.velocity)), lengthFast(old(pc.velocity)), coeffLinTot, old(pc.mass)))
      ensures var pc := obj.physicsComponent;
              pc.torque == old(pc.torque) + AngularFriction(obj.hasShape, old(pc.angularVelocity), coeffRotTot, old(pc.mass))
      ensures var pc := obj.physicsComponent;
              pc.velocity == old(pc.velocity) && pc.angularVelocity == old(pc.angularVelocity) && pc.mass == old(pc.mass)
    {
      var pc := obj.physicsComponent;
      var length := lengthFast(pc.velocity);
      var velocityDirection := normalizedFast(pc.velocity);
      if length >= UnitSpeed {
        pc.AddForce(Scale(Scale(Neg(velocityDirection), coeffLinTot), pc.mass));
      } else {
        pc.AddForce(Scale(Scale(Scale(Neg(velocityDirection), length), coeffLinTot), pc.mass));
      }

      if obj.hasShape {
        var a := pc.angularVelocity;
        if a > 0.0 {
          pc.AddTorque(-coeffRotTot * pc.mass * 1.0);
        }
        if a < 0.0 {
          pc.AddTorque(coeffRotTot * pc.mass * 1.0);
        }
      }
    }
  }
}
