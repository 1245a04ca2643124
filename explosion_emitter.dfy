/** The explosion's particle emitter (ExplosionEmitter): a particle emitter
    whose particles burst outwards faster at the start of the explosion and
    slower as it runs out. Its generateParticle takes one more unit from the
    accumulator on top of the one the spawn loop takes, so every spawn costs
    two. The random draws a particle is made from are parameters. */
module ExplosionEmitters {
  import opened Common
  import opened Particles
  import opened ParticleEmitters

  /** The random draws behind one generated particle: the world-space spawn
      point (a random point of the emitter's scaled unit ball, carried to
      world space), a random unit direction, the random speed multiplier
      2^(3(u - 1)) for a uniform u, and a random rotation. */
  datatype ExplosionDraw = ExplosionDraw(position: Vec3, direction: Vec3, speedJitter: real, rotation: real)

  /** How much of the explosion is still to come: 1 at the start, 0 once
      elapsed reaches the duration. */
  function Factor(elapsed: real, duration: real): real
    requires duration != 0.0
  {
    1.0 - elapsed / duration
  }

  /** velocityFunction: the particle speed scale for a factor t. */
  function VelocityFunction(t: real): real
  {
    20.0 * t * t
  }

  /** The speed scale is never negative, and it is zero only for a zero
      factor. */
  lemma VelocitySign(t: real)
    ensures 0.0 <= VelocityFunction(t)
    ensures VelocityFunction(t) == 0.0 <==> t == 0.0
  {
    if t != 0.0 {
      VelocityPositive(t);
    }
  }

  lemma VelocityPositive(t: real)
    requires t != 0.0
    ensures 0.0 < VelocityFunction(t)
  {
    var a, v := 20.0 * t, VelocityFunction(t);
    assert v == a * t;
    if t > 0.0 {
      assert 0.0 < a * t;
    } else {
      assert 0.0 < (-a) * (-t) == a * t;
    }
    assert 0.0 < v;
  }

  /** The speed scale grows with the factor on [0, 1]. */
  lemma VelocityMonotone(s: real, t: real)
    requires 0.0 <= s <= t
    ensures VelocityFunction(s) <= VelocityFunction(t)
  {
    if 0.0 < s {
      ScaleMonotone(s, t, s);
      ScaleMonotone(s, t, t);
    } else {
      VelocitySign(t);
    }
  }

  /** Over an explosion of positive duration the speed scale starts at 20,
      falls as time passes, and reaches 0 at the end. */
  lemma ExplosionSlowsDown(e1: real, e2: real, duration: real)
    requires 0.0 < duration && 0.0 <= e1 <= e2 <= duration
    ensures VelocityFunction(Factor(0.0, duration)) == 20.0
    ensures VelocityFunction(Factor(duration, duration)) == 0.0
    ensures VelocityFunction(Factor(e2, duration)) <= VelocityFunction(Factor(e1, duration))
  {
    var q1, q2 := e1 / duration, e2 / duration;
    assert q1 * duration == e1 && q2 * duration == e2;
    if q2 < q1 {
      ScaleStrict(q2, q1, duration);
    }
    if 1.0 < q2 {
      ScaleStrict(1.0, q2, duration);
    }
    assert 0.0 <= 1.0 - q2 <= 1.0 - q1;
    VelocityMonotone(Factor(e2, duration), Factor(e1, duration));
  }

  /** The particle generateParticle makes from a draw, given the factor at
      that moment and the emitter's scale: it lives 3 seconds, floats
      (no gravity) without spinning, uses texture layer 0, is at most one
      unit across, and flies along the drawn direction at the speed scale
      times the drawn multiplier. The colour and alpha scales are left at
      their default of 0. */
  function ExplosionParticle(d: ExplosionDraw, factor: real, scaleFactor: real): (p: Particle)
    ensures p.life == 3.0 && p.invTotalLife * p.life == 1.0
    ensures p.gravity == 0.0 && p.angularVelocity == 0.0 && p.texture == 0
    ensures p.radius <= 1.0 && p.radius <= 5.0 * scaleFactor
    ensures p.radius == 1.0 || p.radius == 5.0 * scaleFactor
    ensures p.colorScale == 0.0 && p.alphaScale == 0.0
    ensures p.position == d.position && p.rotation == d.rotation
    ensures p.velocity == d.direction.Scale(VelocityFunction(factor) * d.speedJitter)
  {
    Particle(
      position := d.position,
      velocity := d.direction.Scale(VelocityFunction(factor) * d.speedJitter),
      rotation := d.rotation,
      angularVelocity := 0.0,
      radius := Min(1.0, scaleFactor * 5.0),
      colorScale := 0.0,
      alphaScale := 0.0,
      life := 3.0,
      invTotalLife := 1.0 / 3.0,
      texture := 0,
      gravity := 0.0)
  }

  class ExplosionEmitter {
    var position: Vec3
    var rate: real
    var excessParticles: real
    var scaleFactor: real
    var duration: real
    var elapsed: real

    predicate Valid()
      reads this
    {
      duration != 0.0
    }

    /** ExplosionEmitter(loc, rate, scale, duration): nothing owed, nothing
        elapsed. */
    constructor (loc: Vec3, rate: real, scale: real, duration: real)
      requires duration != 0.0
      ensures Valid()
      ensures position == loc && this.rate == rate && scaleFactor == scale
      ensures this.duration == duration && elapsed == 0.0 && excessParticles == 0.0
    {
      position := loc;
      this.rate := rate;
      scaleFactor := scale;
      this.duration := duration;
      elapsed := 0.0;
      excessParticles := 0.0;
    }

    /** generateParticle: the particle for a draw at the current factor;
        it also takes one unit from the accumulator. */
    method GenerateParticle(d: ExplosionDraw) returns (p: Particle)
      requires Valid()
      modifies this
      ensures Valid()
      ensures p == ExplosionParticle(d, Factor(elapsed, duration), scaleFactor)
      ensures excessParticles == old(excessParticles) - 1.0
      ensures position == old(position) && rate == old(rate) && scaleFactor == old(scaleFactor)
      ensures duration == old(duration) && elapsed == old(elapsed)
    {
      var factor := 1.0 - elapsed / duration;
      excessParticles := excessParticles - 1.0;
      var velocity := d.direction.Scale(VelocityFunction(factor) * d.speedJitter);
      p := Particle(d.position, velocity, d.rotation, 0.0, 1.0 * Min(1.0, scaleFactor * 5.0),
                    0.0, 0.0, 3.0, 1.0 / 3.0, 0, 0.0);
    }

    /** The spawn loop both update and emitParticles run: while at least one
        particle is owed, take one unit, generate a particle from the next
        draw (which takes another) and spawn it. */
    method SpawnOwed(system: ParticleSystem, draws: nat -> ExplosionDraw) returns (spawned: nat)
      requires Valid() && system.Valid()
      modifies this, system
      ensures Valid() && system.Valid()
      ensures Drain(old(excessParticles), 2.0) == Drained(spawned, excessParticles)
      ensures system.particles == SpawnAll(old(system.particles), ExplosionParticles(draws, Factor(elapsed, duration), scaleFactor), spawned)
      ensures system.ringbufferHead == old(system.ringbufferHead)
      ensures position == old(position) && rate == old(rate) && scaleFactor == old(scaleFactor)
      ensures duration == old(duration) && elapsed == old(elapsed)
    {
      ghost var total := Drain(excessParticles, 2.0);
      ghost var gen := ExplosionParticles(draws, Factor(elapsed, duration), scaleFactor);
      spawned := 0;
      while excessParticles >= 1.0
        invariant Valid() && system.Valid()
        invariant total.spawns == spawned + Drain(excessParticles, 2.0).spawns
        invariant total.remainder == Drain(excessParticles, 2.0).remainder
        invariant system.particles == SpawnAll(old(system.particles), gen, spawned)
        invariant system.ringbufferHead == old(system.ringbufferHead)
        invariant position == old(position) && rate == old(rate) && scaleFactor == old(scaleFactor)
        invariant duration == old(duration) && elapsed == old(elapsed)
        decreases excessParticles.Floor
      {
        excessParticles := excessParticles - 1.0;
        var p := GenerateParticle(draws(spawned));
        system.SpawnParticle(p);
        spawned := spawned + 1;
      }
    }

    /** update, inherited from ParticleEmitter: a frame of dt owes rate * dt
        more particles, and each spawn takes two of them. */
    method Update(dt: real, system: ParticleSystem, draws: nat -> ExplosionDraw) returns (spawned: nat)
      requires Valid() && system.Valid()
      modifies this, system
      ensures Valid() && system.Valid()
      ensures Drain(old(excessParticles) + old(rate) * dt, 2.0) == Drained(spawned, excessParticles)
      ensures system.particles == SpawnAll(old(system.particles), ExplosionParticles(draws, Factor(elapsed, duration), scaleFactor), spawned)
      ensures system.ringbufferHead == old(system.ringbufferHead)
      ensures elapsed == old(elapsed) && duration == old(duration)
      ensures position == old(position) && rate == old(rate) && scaleFactor == old(scaleFactor)
    {
      excessParticles := excessParticles + rate * dt;
      spawned := SpawnOwed(system, draws);
    }

    /** emitParticles: the explosion runs on by delta, and the particles
        owed grow by rate * factor * delta for the factor after that step,
        so the emission dies down as the explosion ends; each spawn takes
        two of them. */
    method EmitParticles(delta: real, system: ParticleSystem, draws: nat -> ExplosionDraw) returns (spawned: nat)
      requires Valid() && system.Valid()
      modifies this, system
      ensures Valid() && system.Valid()
      ensures elapsed == old(elapsed) + delta && duration == old(duration)
      ensures Drain(old(excessParticles) + old(rate) * (Factor(elapsed, duration) * delta), 2.0) == Drained(spawned, excessParticles)
      ensures system.particles == SpawnAll(old(system.particles), ExplosionParticles(draws, Factor(elapsed, duration), scaleFactor), spawned)
      ensures system.ringbufferHead == old(system.ringbufferHead)
      ensures position == old(position) && rate == old(rate) && scaleFactor == old(scaleFactor)
    {
      elapsed := elapsed + delta;
      var factor := 1.0 - elapsed / duration;
      assert factor == Factor(elapsed, duration);
      excessParticles := excessParticles + rate * (factor * delta);
      ghost var owed := excessParticles;
      assert owed == old(excessParticles) + old(rate) * (Factor(elapsed, duration) * delta);
      spawned := SpawnOwed(system, draws);
      assert owed == old(excessParticles) + old(rate) * (Factor(elapsed, duration) * delta);
      assert Drain(owed, 2.0) == Drained(spawned, excessParticles);
    }
  }

  /** The k-th particle of a spawn loop is made from the k-th draw. */
  function ExplosionParticles(draws: nat -> ExplosionDraw, factor: real, scaleFactor: real): nat -> Particle
  {
    (k: nat) => ExplosionParticle(draws(k), factor, scaleFactor)
  }
}
