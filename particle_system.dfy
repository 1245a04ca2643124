/** The game's particle system (ParticleSystem): one capacity-capped list of
    live particles shared by every emitter, integrated each frame and drawn
    from a triple-buffered ring of mapped GPU memory. The buffer mapping,
    the fences and the draw calls are not modelled; the particle list and
    the ring-buffer head are. */
module Particles {
  import opened Common

  /** MAX_PARTICLES: the list never holds more particles than this. */
  const MaxParticles: nat := 100000

  /** The number of slots in the ring of particle buffers. */
  const RingSlots: nat := 3

  datatype Particle = Particle(
    position: Vec3,
    velocity: Vec3,
    rotation: real,
    angularVelocity: real,
    radius: real,
    colorScale: real,
    alphaScale: real,
    life: real,
    invTotalLife: real,
    texture: int,
    gravity: real)

  /** A particle one frame of dt later. Gravity acts first, so the position
      moves by the velocity gravity has already pulled down; the particle's
      looks, its gravity and its angular velocity do not change. */
  function Advanced(p: Particle, dt: real): (q: Particle)
    ensures q.velocity.x == p.velocity.x && q.velocity.y == p.velocity.y
    ensures q.velocity.z == p.velocity.z - p.gravity * dt
    ensures q.position == p.position.Plus(q.velocity.Scale(dt))
    ensures q.rotation == p.rotation + p.angularVelocity * dt
    ensures q.life == p.life - dt
    ensures q.radius == p.radius && q.colorScale == p.colorScale && q.alphaScale == p.alphaScale
    ensures q.invTotalLife == p.invTotalLife && q.texture == p.texture
    ensures q.gravity == p.gravity && q.angularVelocity == p.angularVelocity
  {
    var v := Vec3(p.velocity.x, p.velocity.y, p.velocity.z - p.gravity * dt);
    p.(velocity := v,
       position := p.position.Plus(v.Scale(dt)),
       rotation := p.rotation + p.angularVelocity * dt,
       life := p.life - dt)
  }

  /** Without gravity a particle moves in a straight line at constant speed,
      so two frames of a and b are one frame of a + b. */
  lemma WeightlessFramesCompose(p: Particle, a: real, b: real)
    requires p.gravity == 0.0
    ensures Advanced(Advanced(p, a), b) == Advanced(p, a + b)
  {
    var q := Advanced(Advanced(p, a), b);
    var r := Advanced(p, a + b);
    assert q.position.x == r.position.x by {
      assert q.position.x == p.position.x + a * p.velocity.x + b * p.velocity.x;
    }
    assert q.position.y == r.position.y by {
      assert q.position.y == p.position.y + a * p.velocity.y + b * p.velocity.y;
    }
    assert q.position.z == r.position.z by {
      assert q.position.z == p.position.z + a * p.velocity.z + b * p.velocity.z;
    }
    assert q.rotation == r.rotation by {
      assert q.rotation == p.rotation + p.angularVelocity * a + p.angularVelocity * b;
    }
  }

  /** A particle survives a frame when its life is still above zero. */
  predicate Alive(p: Particle)
  {
    p.life > 0.0
  }

  /** The list after one update of dt: every particle advanced, the dead
      ones dropped, the rest in their original order. */
  function Survivors(ps: seq<Particle>, dt: real): (r: seq<Particle>)
    ensures |r| <= |ps|
    ensures forall q | q in r :: Alive(q)
  {
    if |ps| == 0 then []
    else
      var q := Advanced(ps[|ps| - 1], dt);
      Survivors(ps[..|ps| - 1], dt) + (if Alive(q) then [q] else [])
  }

  /** Updating a list in two pieces is updating each piece: survivors keep
      their relative order. */
  lemma {:induction false} SurvivorsAppend(a: seq<Particle>, b: seq<Particle>, dt: real)
    ensures Survivors(a + b, dt) == Survivors(a, dt) + Survivors(b, dt)
  {
    if |b| == 0 {
      assert a + b == a;
    } else {
      var n := |b| - 1;
      assert (a + b)[..|a + b| - 1] == a + b[..n];
      assert (a + b)[|a + b| - 1] == b[n];
      SurvivorsAppend(a, b[..n], dt);
    }
  }

  /** A particle is in the updated list exactly when it is the advanced form
      of some particle of the old list and is still alive. */
  lemma {:induction false} SurvivorsMembers(ps: seq<Particle>, dt: real, q: Particle)
    ensures q in Survivors(ps, dt) <==> Alive(q) && exists i :: 0 <= i < |ps| && Advanced(ps[i], dt) == q
  {
    if |ps| > 0 {
      var n := |ps| - 1;
      var init := ps[..n];
      SurvivorsMembers(init, dt, q);
      if Alive(q) && (exists i :: 0 <= i < |ps| && Advanced(ps[i], dt) == q) {
        var i :| 0 <= i < |ps| && Advanced(ps[i], dt) == q;
        if i < n {
          assert init[i] == ps[i];
        }
      }
      if exists i :: 0 <= i < n && Advanced(init[i], dt) == q {
        var i :| 0 <= i < n && Advanced(init[i], dt) == q;
        assert ps[i] == init[i];
      }
    }
  }

  /** When no particle dies this frame, none is removed: the list is every
      particle advanced, in order. */
  lemma {:induction false} NoDeathsKeepsAll(ps: seq<Particle>, dt: real)
    requires forall i | 0 <= i < |ps| :: Alive(Advanced(ps[i], dt))
    ensures |Survivors(ps, dt)| == |ps|
    ensures forall i | 0 <= i < |ps| :: Survivors(ps, dt)[i] == Advanced(ps[i], dt)
  {
    if |ps| > 0 {
      var n := |ps| - 1;
      assert forall i | 0 <= i < n :: ps[..n][i] == ps[i];
      NoDeathsKeepsAll(ps[..n], dt);
    }
  }

  /** SpawnParticle on a list: the new particle goes to the front, unless
      the list is full, when it is dropped. */
  function SpawnedFront(ps: seq<Particle>, p: Particle): seq<Particle>
  {
    if |ps| < MaxParticles then [p] + ps else ps
  }

  /** The list after n spawns of gen(0), gen(1), ..., gen(n - 1), in that
      order. */
  function SpawnAll(ps: seq<Particle>, gen: nat -> Particle, n: nat): seq<Particle>
  {
    if n == 0 then ps else SpawnedFront(SpawnAll(ps, gen, n - 1), gen(n - 1))
  }

  /** n spawns add n particles up to the cap and no more; the old particles
      stay, in order, at the back; and when there was room the newest
      spawn is at the front. */
  lemma {:induction false} SpawnAllShape(ps: seq<Particle>, gen: nat -> Particle, n: nat)
    requires |ps| <= MaxParticles
    ensures var r := SpawnAll(ps, gen, n);
      && |r| == (if |ps| + n <= MaxParticles then |ps| + n else MaxParticles)
      && r[|r| - |ps|..] == ps
      && (0 < n && |ps| + n <= MaxParticles ==> r[0] == gen(n - 1))
  {
    if n > 0 {
      SpawnAllShape(ps, gen, n - 1);
      var prev := SpawnAll(ps, gen, n - 1);
      var r := SpawnAll(ps, gen, n);
      if |prev| < MaxParticles {
        assert r == [gen(n - 1)] + prev;
        assert r[|r| - |ps|..] == prev[|prev| - |ps|..];
      }
    }
  }

  /** The ring-buffer head after one render. */
  function NextHead(h: nat): (r: nat)
    ensures r < RingSlots
  {
    (h + 1) % RingSlots
  }

  /** The ring-buffer head after n renders starting from h. */
  function HeadAfter(h: nat, n: nat): nat
  {
    if n == 0 then h else NextHead(HeadAfter(h, n - 1))
  }

  lemma ModThreeStep(x: nat)
    ensures (x % 3 + 1) % 3 == (x + 1) % 3
  {
  }

  /** From a valid slot, n renders land on slot (h + n) mod 3: the head
      visits the three slots in turn and never leaves them. */
  lemma {:induction false} HeadAfterCycles(h: nat, n: nat)
    requires h < RingSlots
    ensures HeadAfter(h, n) == (h + n) % RingSlots
  {
    if n > 0 {
      HeadAfterCycles(h, n - 1);
      ModThreeStep(h + n - 1);
    }
  }

  /** The per-particle step of Update, field by field: gravity pulls the
      velocity down, the position moves by the new velocity, the particle
      turns and ages. */
  method Integrate(before: Particle, dt: real) returns (p: Particle)
    ensures p == Advanced(before, dt)
  {
    p := before;
    p := p.(velocity := p.velocity.(z := p.velocity.z - p.gravity * dt));
    p := p.(position := p.position.Plus(p.velocity.Scale(dt)));
    assert p.rotation == before.rotation && p.angularVelocity == before.angularVelocity;
    p := p.(rotation := p.rotation + p.angularVelocity * dt);
    p := p.(life := p.life - dt);
    ghost var q := Advanced(before, dt);
    assert p.velocity == q.velocity;
    assert p.position == q.position;
    assert p.rotation == q.rotation;
  }

  /** The particle system's shared state. In the game it is static: one
      list and one head for the whole program. */
  class ParticleSystem {
    var particles: seq<Particle>
    var ringbufferHead: nat

    predicate Valid()
      reads this
    {
      |particles| <= MaxParticles && ringbufferHead < RingSlots
    }

    /** The static initial state: no particles, head at slot 0. */
    constructor ()
      ensures Valid() && particles == [] && ringbufferHead == 0
    {
      particles := [];
      ringbufferHead := 0;
    }

    /** SpawnParticle: the particle is added at the front when the list
        holds fewer than MaxParticles, so the cap is never exceeded. */
    method SpawnParticle(p: Particle)
      requires Valid()
      modifies this
      ensures Valid()
      ensures particles == SpawnedFront(old(particles), p)
      ensures ringbufferHead == old(ringbufferHead)
    {
      if |particles| < MaxParticles {
        particles := [p] + particles;
      }
    }

    /** Update: every particle is advanced by dt, and exactly those whose
        life has run out are removed; nothing is added. */
    method Update(dt: real)
      requires Valid()
      modifies this
      ensures Valid()
      ensures particles == Survivors(old(particles), dt)
      ensures |particles| <= |old(particles)|
      ensures ringbufferHead == old(ringbufferHead)
    {
      var kept: seq<Particle> := [];
      var i := 0;
      while i < |particles|
        invariant particles == old(particles) && ringbufferHead == old(ringbufferHead)
        invariant 0 <= i <= |particles|
        invariant kept == Survivors(particles[..i], dt)
      {
        var p := Integrate(particles[i], dt);
        assert particles[..i + 1][..i] == particles[..i];
        if p.life > 0.0 {
          kept := kept + [p];
        }
        i := i + 1;
      }
      assert particles[..i] == particles;
      particles := kept;
    }

    /** The bookkeeping at the end of Render: the head moves on to the next
        of the three buffer slots. */
    method AdvanceRingBuffer()
      requires Valid()
      modifies this
      ensures Valid()
      ensures ringbufferHead == NextHead(old(ringbufferHead))
      ensures particles == old(particles)
    {
      ringbufferHead := (ringbufferHead + 1) % RingSlots;
    }
  }
}
