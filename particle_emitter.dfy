/** Particle emitters (ParticleEmitter): scene objects that feed the shared
    particle system at a fixed rate. Rates are fractional per frame, so the
    emitter carries the unspent fraction over in an accumulator and spawns
    one particle per whole unit. How a particle is generated belongs to the
    concrete emitter and its random draws, so the particles spawned in a
    frame are a parameter here. */
module ParticleEmitters {
  import opened Common
  import opened Particles

  /** The outcome of a spawn loop: how many particles it spawned and what
      it left in the accumulator. */
  datatype Drained = Drained(spawns: nat, remainder: real)

  /** The spawn loop run on an accumulator holding e, where each spawn
      takes cost from it: it spawns while the accumulator holds at least
      one. Whatever it starts from, it leaves less than one, and what it
      took is exactly cost per spawn. */
  function Drain(e: real, cost: real): (d: Drained)
    requires cost >= 1.0
    ensures d.remainder < 1.0
    ensures d.remainder == e - cost * d.spawns as real
    ensures e < 1.0 <==> d.spawns == 0
    decreases e.Floor
  {
    if e < 1.0 then Drained(0, e)
    else
      var d := Drain(e - cost, cost);
      Drained(d.spawns + 1, d.remainder)
  }

  /** One spawn per unit: from a non-negative accumulator the loop spawns
      the whole part and leaves the fractional part. */
  lemma {:induction false} DrainByOneIsFloor(e: real)
    requires 0.0 <= e
    ensures Drain(e, 1.0) == Drained(e.Floor, e - e.Floor as real)
    decreases e.Floor
  {
    if e >= 1.0 {
      DrainByOneIsFloor(e - 1.0);
      assert (e - 1.0).Floor == e.Floor - 1;
    }
  }

  /** Two units per spawn: from an accumulator of at least -1 the loop
      spawns floor((e + 1) / 2) particles, about half of what one unit per
      spawn gives, and leaves between -1 and 1. */
  lemma {:induction false} DrainByTwoHalves(e: real)
    requires -1.0 <= e
    ensures Drain(e, 2.0).spawns == ((e + 1.0) / 2.0).Floor
    ensures -1.0 <= Drain(e, 2.0).remainder
    decreases e.Floor
  {
    if e >= 1.0 {
      DrainByTwoHalves(e - 2.0);
      assert ((e - 2.0 + 1.0) / 2.0) == (e + 1.0) / 2.0 - 1.0;
    }
  }

  class ParticleEmitter {
    /** The emitter's translation; the movement it inherits from
        MobileObject is not modelled. */
    var position: Vec3
    /** Particles per second. */
    var rate: real
    /** The fraction of a particle owed from earlier frames. */
    var excessParticles: real
    var scaleFactor: real

    /** The vertical speed a generated particle starts with. */
    function ParticleZVelocity(): real
    {
      2.0
    }

    /** ParticleEmitter(position, particlesPerSecond): nothing owed yet, the
        scale factor at its default of 1. */
    constructor (position: Vec3, particlesPerSecond: real)
      ensures this.position == position && rate == particlesPerSecond
      ensures excessParticles == 0.0 && scaleFactor == 1.0
      ensures ParticleZVelocity() == 2.0
    {
      this.position := position;
      rate := particlesPerSecond;
      excessParticles := 0.0;
      scaleFactor := 1.0;
    }

    /** ParticleEmitter(position, particlesPerSecond, scale): as above with
        the given scale factor. */
    constructor WithScale(position: Vec3, particlesPerSecond: real, scale: real)
      ensures this.position == position && rate == particlesPerSecond
      ensures excessParticles == 0.0 && scaleFactor == scale
      ensures ParticleZVelocity() == 2.0
    {
      this.position := position;
      rate := particlesPerSecond;
      excessParticles := 0.0;
      scaleFactor := scale;
    }

    /** update: a frame of dt owes rate * dt more particles; one is spawned
        per whole particle owed, gen(0) first, and less than one is left
        owing. The particles reach the system through SpawnParticle, so the
        cap applies to each of them. */
    method Update(dt: real, system: ParticleSystem, gen: nat -> Particle) returns (spawned: nat)
      requires system.Valid()
      modifies this, system
      ensures system.Valid()
      ensures Drain(old(excessParticles) + old(rate) * dt, 1.0) == Drained(spawned, excessParticles)
      ensures system.particles == SpawnAll(old(system.particles), gen, spawned)
      ensures system.ringbufferHead == old(system.ringbufferHead)
      ensures position == old(position) && rate == old(rate) && scaleFactor == old(scaleFactor)
    {
      excessParticles := excessParticles + rate * dt;
      ghost var total := Drain(excessParticles, 1.0);
      spawned := 0;
      while excessParticles >= 1.0
        invariant system.Valid()
        invariant total.spawns == spawned + Drain(excessParticles, 1.0).spawns
        invariant total.remainder == Drain(excessParticles, 1.0).remainder
        invariant system.particles == SpawnAll(old(system.particles), gen, spawned)
        invariant system.ringbufferHead == old(system.ringbufferHead)
        invariant position == old(position) && rate == old(rate) && scaleFactor == old(scaleFactor)
        decreases excessParticles.Floor
      {
        excessParticles := excessParticles - 1.0;
        system.SpawnParticle(gen(spawned));
        spawned := spawned + 1;
      }
    }
  }
}
