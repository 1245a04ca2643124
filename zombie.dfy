/** ZombieFairy: an enemy that idles or wanders near its leash point until it
    notices the player, then chases, shoots and swings at Okuu by distance;
    hits stagger it and enough of them knock it out. Distances are compared
    through their squares, which orders them the same way. */
module Zombie {
  import opened Common

  datatype ZombieState = Idle | Moving | Attacking | Shooting | Staggering | KO

  /** The fairy's animation clips. */
  datatype FairyAnim = IdleClip | MoveClip | AttackClip | ShootClip | HurtClip | KOClip

  /** The name each clip is looked up by in the fairy's mesh. */
  function ClipName(a: FairyAnim): string
  {
    match a
    case IdleClip => "idle"
    case MoveClip => "move"
    case AttackClip => "attack"
    case ShootClip => "shoot"
    case HurtClip => "hurt"
    case KOClip => "ko"
  }

  /** allAnimsOK: the mesh, given by the names of its animations, has the
      six clips the fairy plays. */
  predicate AllAnimsOK(animations: set<string>)
  {
    "idle" in animations && "move" in animations && "attack" in animations &&
    "shoot" in animations && "hurt" in animations && "ko" in animations
  }

  /** The check passes exactly when every clip the fairy can switch to is
      in the mesh, and a mesh missing one clip's name fails it. */
  lemma AllAnimsOKIsEveryClip(animations: set<string>)
    ensures AllAnimsOK(animations) <==> forall a: FairyAnim :: ClipName(a) in animations
  {
    if forall a: FairyAnim :: ClipName(a) in animations {
      assert ClipName(IdleClip) in animations && ClipName(MoveClip) in animations;
      assert ClipName(AttackClip) in animations && ClipName(ShootClip) in animations;
      assert ClipName(HurtClip) in animations && ClipName(KOClip) in animations;
    }
  }

  const VisionDistance := 20.0
  const LeashDistance := 50.0
  const MoveSpeed := 3.0
  const StaggerSpeed := -1.5
  const StaggerExtraDelay := 1.0
  const ProjectileDistance := 10.0
  const MeleeMoveDistance := 5.0
  const MeleeDistance := 2.0
  const ShootTime := 85.0 / 24.0
  const MoveDistanceGoal := 0.5
  const LeashIdleTime := 20.0
  const InitialHitPoints := 10

  /** A projectile handed to the world: radius 0.5 and 20 times the unit
      facing direction as velocity. */
  datatype ZombieProjectile = ZombieProjectile(Radius: real, Velocity: Vec3)

  /** The random draws one update may use: the idle time idle() and move()
      pick in [5, 10], whether a wandering fairy stays idle (a draw above
      0.7), and the offset from the leash point it wanders to. */
  datatype Rolls = Rolls(IdleTime: real, Stay: bool, WanderOffset: Vec3)

  /** The fairy's state. DistSq is the squared distance to the player when
      the player's location was last given; the facing direction is VelocityDir,
      since the fairy turns towards where it moves. */
  datatype Fairy = Fairy(
    State: ZombieState,
    Animation: FairyAnim,
    AnimTime: real,
    Position: Vec3,
    TargetLoc: Vec3,
    VelocityDir: Vec3,
    LeashLocation: Vec3,
    OkuuLocation: Vec3,
    DistSq: real,
    Aware: bool,
    WasHurt: bool,
    IdleTimer: real,
    StaggerTime: real,
    KoTime: real,
    HitStage: int,
    HitPoints: int,
    Outgoing: Option<ZombieProjectile>)

  function Dot(a: Vec3, b: Vec3): real { a.x * b.x + a.y * b.y + a.z * b.z }

  predicate IsUnit(v: Vec3)
  {
    Dot(v, v) == 1.0
  }

  /** What Vector3.Normalize, an OpenTK method, does to a non-zero vector:
      it gives the unit vector pointing the same way, so that scaling it by
      the original's length (its dot product with the original) gives the
      original back. The method is a parameter with this property. */
  ghost predicate IsNormalize(normalize: Vec3 -> Vec3)
  {
    forall d :: d != Zero3 ==>
      IsUnit(normalize(d)) && Dot(normalize(d), d) > 0.0 && normalize(d).Scale(Dot(normalize(d), d)) == d
  }

  // ------------------------------------------------------------ actions

  /** switchAnimationSmooth: start the named clip. */
  function SwitchTo(f: Fairy, a: FairyAnim): Fairy
  {
    f.(Animation := a, AnimTime := 0.0)
  }

  function GoIdle(f: Fairy, r: Rolls): Fairy
  {
    SwitchTo(f.(State := Idle), IdleClip).(IdleTimer := r.IdleTime)
  }

  function Move(f: Fairy, target: Vec3, r: Rolls): Fairy
  {
    SwitchTo(f.(State := Moving), MoveClip).(IdleTimer := r.IdleTime, TargetLoc := target)
  }

  function Attack(f: Fairy): Fairy
  {
    var g := if f.State == Attacking then f.(AnimTime := 0.0) else f;
    SwitchTo(g.(State := Attacking), AttackClip)
  }

  function Shoot(f: Fairy, target: Vec3): Fairy
  {
    var g := if f.State == Shooting then f.(AnimTime := 0.0) else f;
    SwitchTo(g.(State := Shooting), ShootClip).(TargetLoc := target)
  }

  function BeHurt(f: Fairy): Fairy
  {
    var g := if f.State == Staggering then f.(AnimTime := 0.0) else f;
    SwitchTo(g.(State := Staggering), HurtClip)
  }

  function KnockedOut(f: Fairy): Fairy
  {
    SwitchTo(f.(State := KO), KOClip)
  }

  /** launchProjectile: the projectile leaves the right hand (its position
      is not modelled) along the facing direction. */
  function Launch(f: Fairy): Fairy
  {
    f.(Outgoing := Some(ZombieProjectile(0.5, f.VelocityDir.Scale(20.0))))
  }

  function OutOfLeashRange(f: Fairy): bool
  {
    f.Position.Minus(f.LeashLocation).LengthSquared() > LeashDistance * LeashDistance
  }

  /** canSeeOkuu: once aware it keeps seeing the player; otherwise the player must be
      within vision distance and in front of it. */
  function CanSeeOkuu(f: Fairy): bool
  {
    var diff := f.OkuuLocation.Minus(f.Position);
    f.Aware || (diff.LengthSquared() < VisionDistance * VisionDistance && Dot(diff, f.VelocityDir) > 0.0)
  }

  /** The action chosen by distance to the player. */
  datatype Chase = MoveCloser | ShootAt | CloseIn | Swing

  function ChaseChoice(distSq: real): Chase
  {
    if distSq > ProjectileDistance * ProjectileDistance then MoveCloser
    else if distSq > MeleeMoveDistance * MeleeMoveDistance then ShootAt
    else if distSq > MeleeDistance * MeleeDistance then CloseIn
    else Swing
  }

  /** goAfterOkuu */
  function GoAfterOkuu(f: Fairy, r: Rolls): Fairy
  {
    match ChaseChoice(f.DistSq)
    case MoveCloser => Move(f, f.OkuuLocation, r)
    case ShootAt => Shoot(f, f.OkuuLocation)
    case CloseIn => Move(f, f.OkuuLocation, r)
    case Swing => Attack(f)
  }

  function RandomIdleAction(f: Fairy, r: Rolls): Fairy
  {
    if r.Stay then GoIdle(f, r) else Move(f, f.LeashLocation.Plus(r.WanderOffset), r)
  }

  /** advanceStateActive, after the animation player has moved the clip to
      animTime (ended says whether the clip ended). */
  function AdvanceStateActive(f0: Fairy, delta: real, animTime: real, ended: bool, r: Rolls): Fairy
  {
    var f := f0.(AnimTime := animTime);
    match f.State
    case Idle => if f.StaggerTime > 0.0 then f.(StaggerTime := f.StaggerTime - delta) else GoAfterOkuu(f, r)
    case Moving => GoAfterOkuu(f, r)
    case KO => f
    case Staggering => if ended then GoIdle(f.(StaggerTime := StaggerExtraDelay, HitStage := 0), r) else f
    case Shooting =>
      var g := f.(TargetLoc := f.OkuuLocation);
      var h := if animTime - delta < ShootTime <= animTime then Launch(g) else g;
      if ended then GoAfterOkuu(h, r) else h
    case Attacking => if ended then GoAfterOkuu(f, r) else f.(TargetLoc := f.OkuuLocation)
  }

  /** advanceStateIdle */
  function AdvanceStateIdle(f0: Fairy, delta: real, animTime: real, ended: bool, r: Rolls): Fairy
  {
    var f := f0.(AnimTime := animTime);
    match f.State
    case Idle =>
      var g := f.(IdleTimer := f.IdleTimer - delta);
      if g.IdleTimer <= 0.0 then RandomIdleAction(g, r) else g
    case Moving =>
      var g := f.(IdleTimer := f.IdleTimer - delta);
      var near := g.Position.Minus(g.TargetLoc).LengthSquared() < MoveDistanceGoal * MoveDistanceGoal;
      if near || g.IdleTimer <= 0.0 then GoIdle(g, r) else g
    case KO => f
    case _ => if ended then GoIdle(f, r) else f
  }

  /** setVelocityDir: face the target, normalised, unless already there. */
  function SetVelocityDir(f: Fairy, normalize: Vec3 -> Vec3): Fairy
  {
    if f.Position == f.TargetLoc then f else f.(VelocityDir := normalize(f.TargetLoc.Minus(f.Position)))
  }

  /** The decision part of update: leash first, then a pending hit, then
      active or idle behaviour; nothing happens beyond the render distance. */
  function Decide(f: Fairy, delta: real, animTime: real, ended: bool, r: Rolls): Fairy
  {
    if OutOfLeashRange(f) then Move(f, f.LeashLocation, r).(Aware := false, IdleTimer := LeashIdleTime)
    else if f.WasHurt then
      var g := f.(WasHurt := false);
      if g.HitPoints <= 0 then KnockedOut(g)
      else if g.State != KO then BeHurt(g)
      else g
    else if CanSeeOkuu(f) then AdvanceStateActive(f.(Aware := true), delta, animTime, ended, r)
    else AdvanceStateIdle(f, delta, animTime, ended, r)
  }

  /** distFromOkuu > renderDistance, through the squared distance. */
  function BeyondRender(distSq: real, renderDistance: real): bool
  {
    renderDistance < 0.0 || distSq > renderDistance * renderDistance
  }

  /** update, as far as the fairy's state goes (movement, collisions and the
      hand's fire are not modelled). */
  function Step(f: Fairy, renderDistance: real, delta: real, animTime: real, ended: bool, r: Rolls,
                normalize: Vec3 -> Vec3): Fairy
  {
    if BeyondRender(f.DistSq, renderDistance) then f
    else SetVelocityDir(Decide(CountKnockout(f, delta), delta, animTime, ended, r), normalize)
  }

  /** A knocked-out fairy counts the time it has been down. */
  function CountKnockout(f: Fairy, delta: real): Fairy
  {
    if f.State == KO then f.(KoTime := f.KoTime + delta) else f
  }

  /** Within the render distance, update is the knockout count, then the
      decision, then the new velocity direction. */
  lemma StepWithinRender(f: Fairy, renderDistance: real, delta: real, animTime: real, ended: bool, r: Rolls,
                         normalize: Vec3 -> Vec3, counted: Fairy, decided: Fairy)
    requires !BeyondRender(f.DistSq, renderDistance)
    requires counted == CountKnockout(f, delta) && decided == Decide(counted, delta, animTime, ended, r)
    ensures Step(f, renderDistance, delta, animTime, ended, r, normalize) == SetVelocityDir(decided, normalize)
  {
  }

  function RegisterHit(f: Fairy, stage: int): Fairy
  {
    f.(Aware := true, WasHurt := true, HitPoints := f.HitPoints - stage, HitStage := stage)
  }

  /** getMoveSpeed */
  function Speed(f: Fairy): real
  {
    if f.State == Moving then MoveSpeed
    else if f.State == Staggering then StaggerSpeed
    else 0.0
  }

  // ----------------------------------------------------------- properties

  /** goAfterOkuu by distance: beyond 10 (a squared distance over 100)
      move to the player, in (5, 10] shoot, in (2, 5] close in, within 2 swing;
      only moving and shooting aim at the player's location. */
  lemma ChaseByDistance(f: Fairy, r: Rolls)
    ensures var g := GoAfterOkuu(f, r);
      (f.DistSq > 100.0 ==> g.State == Moving && g.TargetLoc == f.OkuuLocation) &&
      (25.0 < f.DistSq <= 100.0 ==> g.State == Shooting && g.TargetLoc == f.OkuuLocation) &&
      (4.0 < f.DistSq <= 25.0 ==> g.State == Moving && g.TargetLoc == f.OkuuLocation) &&
      (f.DistSq <= 4.0 ==> g.State == Attacking && g.TargetLoc == f.TargetLoc && g.AnimTime == 0.0)
  {
  }

  /** A fairy farther away than the render distance does nothing. */
  lemma FarAwayUnchanged(f: Fairy, renderDistance: real, delta: real, animTime: real, ended: bool, r: Rolls,
                         normalize: Vec3 -> Vec3)
    requires BeyondRender(f.DistSq, renderDistance)
    ensures Step(f, renderDistance, delta, animTime, ended, r, normalize) == f
  {
  }

  /** The priority of update: a fairy out of leash range walks back and
      forgets the player; otherwise a pending hit is handled (knockout at no
      hit points, a stagger unless already knocked out); otherwise it acts
      on the player if it knows of the player, and idles if not. */
  lemma UpdatePriority(f: Fairy, delta: real, animTime: real, ended: bool, r: Rolls)
    ensures var g := Decide(f, delta, animTime, ended, r);
      (OutOfLeashRange(f) ==>
        g.State == Moving && g.TargetLoc == f.LeashLocation && !g.Aware && g.IdleTimer == 20.0 &&
        g.WasHurt == f.WasHurt) &&
      (!OutOfLeashRange(f) && f.WasHurt ==>
        !g.WasHurt &&
        g.State == (if f.HitPoints <= 0 then KO else if f.State == KO then KO else Staggering)) &&
      (!OutOfLeashRange(f) && !f.WasHurt && CanSeeOkuu(f) ==>
        g == AdvanceStateActive(f.(Aware := true), delta, animTime, ended, r) && g.Aware) &&
      (!OutOfLeashRange(f) && !f.WasHurt && !CanSeeOkuu(f) ==>
        g == AdvanceStateIdle(f, delta, animTime, ended, r) && !g.Aware)
  {
  }

  /** Active behaviour: the end of a stagger waits one more second with the
      hit stage cleared; an idle fairy waits that out before chasing; a
      knocked-out fairy only advances its clip. */
  lemma ActiveBehaviour(f: Fairy, delta: real, animTime: real, ended: bool, r: Rolls)
    ensures var g := AdvanceStateActive(f, delta, animTime, ended, r);
      (f.State == Staggering && ended ==> g.State == Idle && g.StaggerTime == 1.0 && g.HitStage == 0) &&
      (f.State == Staggering && !ended ==> g == f.(AnimTime := animTime)) &&
      (f.State == Idle && f.StaggerTime > 0.0 ==>
        g.State == Idle && g.StaggerTime == f.StaggerTime - delta) &&
      (f.State == Idle && f.StaggerTime <= 0.0 ==> g == GoAfterOkuu(f.(AnimTime := animTime), r)) &&
      (f.State == KO ==> g == f.(AnimTime := animTime))
  {
  }

  /** A shooting fairy launches a projectile exactly on the update in which
      the clip time crosses the release time; otherwise the pending
      projectile stays as it was. */
  lemma LaunchOnCrossing(f: Fairy, delta: real, animTime: real, r: Rolls)
    requires f.State == Shooting
    ensures var g := AdvanceStateActive(f, delta, animTime, false, r);
      var crossed := animTime - delta < ShootTime <= animTime;
      (crossed ==> g.Outgoing == Some(ZombieProjectile(0.5, f.VelocityDir.Scale(20.0)))) &&
      (crossed && IsUnit(f.VelocityDir) ==> g.Outgoing.value.Velocity.LengthSquared() == 400.0) &&
      (!crossed ==> g.Outgoing == f.Outgoing) &&
      g.State == Shooting && g.TargetLoc == f.OkuuLocation
  {
  }

  /** Idle behaviour: a moving fairy stops once within 0.5 of its target or
      when its timer runs out; a knocked-out fairy only advances its clip;
      any other action returns to idle when its clip ends. */
  lemma IdleBehaviour(f: Fairy, delta: real, animTime: real, ended: bool, r: Rolls)
    ensures var g := AdvanceStateIdle(f, delta, animTime, ended, r);
      (f.State == Moving ==>
        (g.State == Idle <==>
          f.Position.Minus(f.TargetLoc).LengthSquared() < 0.25 || f.IdleTimer - delta <= 0.0)) &&
      (f.State == KO ==> g == f.(AnimTime := animTime)) &&
      (f.State in {Attacking, Shooting, Staggering} ==> (g.State == Idle <==> ended)) &&
      (f.State == Idle ==> (f.IdleTimer - delta > 0.0 ==> g.State == Idle && g.IdleTimer == f.IdleTimer - delta))
  {
  }

  /** A hit lowers the hit points by its stage, makes the fairy aware and
      is handled on the next update: when it takes the last hit points the
      fairy is knocked out, wherever it is within its leash. */
  lemma HitThenUpdate(f: Fairy, stage: int, renderDistance: real, delta: real, animTime: real, ended: bool, r: Rolls,
                      normalize: Vec3 -> Vec3)
    requires !BeyondRender(f.DistSq, renderDistance)
    requires !OutOfLeashRange(f) && f.HitPoints <= stage
    ensures var g := Step(RegisterHit(f, stage), renderDistance, delta, animTime, ended, r, normalize);
      g.State == KO && g.Animation == KOClip && g.Aware && !g.WasHurt && g.HitPoints == f.HitPoints - stage
  {
  }

  /** Deciding never turns the fairy; only setVelocityDir does. */
  lemma DecideKeepsFacing(f: Fairy, delta: real, animTime: real, ended: bool, r: Rolls)
    ensures Decide(f, delta, animTime, ended, r).VelocityDir == f.VelocityDir
  {
  }

  /** The facing direction stays a unit vector from update to update, so
      every projectile leaves at speed 20; after an update within the render
      distance it points at the target whenever the fairy is away from it. */
  lemma FacingStaysUnit(f: Fairy, renderDistance: real, delta: real, animTime: real, ended: bool, r: Rolls,
                        normalize: Vec3 -> Vec3)
    requires IsNormalize(normalize) && IsUnit(f.VelocityDir)
    ensures var g := Step(f, renderDistance, delta, animTime, ended, r, normalize);
      IsUnit(g.VelocityDir) &&
      (!BeyondRender(f.DistSq, renderDistance) && g.Position != g.TargetLoc ==>
        var offset := g.TargetLoc.Minus(g.Position);
        Dot(g.VelocityDir, offset) > 0.0 && g.VelocityDir.Scale(Dot(g.VelocityDir, offset)) == offset)
  {
    DecideKeepsFacing(CountKnockout(f, delta), delta, animTime, ended, r);
  }

  /** getMoveSpeed: 3 while moving, -1.5 while staggering, 0 otherwise. */
  lemma SpeedValues(f: Fairy)
    ensures f.State == Moving ==> Speed(f) == 3.0
    ensures f.State == Staggering ==> Speed(f) == -1.5
    ensures f.State !in {Moving, Staggering} ==> Speed(f) == 0.0
  {
  }

  // ------------------------------------------------------------- the class

  class ZombieFairy {
    var zombieState: ZombieState
    var animation: FairyAnim
    var animTime: real
    var worldPosition: Vec3
    var targetLoc: Vec3
    var velocityDir: Vec3
    var leashLocation: Vec3
    var okuuLocation: Vec3
    var distSq: real
    var awareOfOkuu: bool
    var wasHurt: bool
    var idleTimer: real
    var staggerTime: real
    var koTime: real
    var hitStage: int
    var hitPoints: int
    var outgoingProjectile: Option<ZombieProjectile>

    function Snapshot(): Fairy
      reads this
    {
      Fairy(zombieState, animation, animTime, worldPosition, targetLoc, velocityDir, leashLocation,
            okuuLocation, distSq, awareOfOkuu, wasHurt, idleTimer, staggerTime, koTime, hitStage,
            hitPoints, outgoingProjectile)
    }

    /** The constructor: idle at loc, leashed there, facing forward, with
        10 hit points and an idle timer of 5 (set after idle() drew one).
        It is the constructor for a mesh with all six clips; NewZombieFairy
        models the exception otherwise. */
    constructor (loc: Vec3)
      ensures Snapshot() == Fairy(Idle, IdleClip, 0.0, loc, loc, Forward, loc, Zero3, 0.0, false, false,
                                  5.0, 0.0, 0.0, 0, InitialHitPoints, None)
      ensures IsUnit(velocityDir)
    {
      zombieState, animation, animTime := Idle, IdleClip, 0.0;
      worldPosition, targetLoc, velocityDir, leashLocation := loc, loc, Forward, loc;
      okuuLocation, distSq := Zero3, 0.0;
      awareOfOkuu, wasHurt := false, false;
      idleTimer, staggerTime, koTime := 5.0, 0.0, 0.0;
      hitStage, hitPoints := 0, InitialHitPoints;
      outgoingProjectile := None;
    }

    /** updateOkuuLocation: distSq is the squared distance to the player. */
    method UpdateOkuuLocation(loc: Vec3)
      modifies this
      ensures Snapshot() == old(Snapshot()).(OkuuLocation := loc, DistSq := worldPosition.Minus(loc).LengthSquared())
    {
      okuuLocation := loc;
      distSq := worldPosition.Minus(loc).LengthSquared();
    }

    method GoIdleMethod(r: Rolls)
      modifies this
      ensures Snapshot() == GoIdle(old(Snapshot()), r)
    {
      zombieState, animation, animTime := Idle, IdleClip, 0.0;
      idleTimer := r.IdleTime;
    }

    method MoveMethod(target: Vec3, r: Rolls)
      modifies this
      ensures Snapshot() == Move(old(Snapshot()), target, r)
    {
      zombieState, animation, animTime := Moving, MoveClip, 0.0;
      idleTimer := r.IdleTime;
      targetLoc := target;
    }

    method AttackMethod()
      modifies this
      ensures Snapshot() == Attack(old(Snapshot()))
    {
      if zombieState == Attacking {
        animTime := 0.0;
      }
      zombieState, animation, animTime := Attacking, AttackClip, 0.0;
    }

    method ShootMethod(target: Vec3)
      modifies this
      ensures Snapshot() == Shoot(old(Snapshot()), target)
    {
      if zombieState == Shooting {
        animTime := 0.0;
      }
      zombieState, animation, animTime := Shooting, ShootClip, 0.0;
      targetLoc := target;
    }

    method BeHurtMethod()
      modifies this
      ensures Snapshot() == BeHurt(old(Snapshot()))
    {
      if zombieState == Staggering {
        animTime := 0.0;
      }
      zombieState, animation, animTime := Staggering, HurtClip, 0.0;
    }

    method KnockedOutMethod()
      modifies this
      ensures Snapshot() == KnockedOut(old(Snapshot()))
    {
      zombieState, animation, animTime := KO, KOClip, 0.0;
    }

    method GoAfterOkuuMethod(r: Rolls)
      modifies this
      ensures Snapshot() == GoAfterOkuu(old(Snapshot()), r)
    {
      if distSq > ProjectileDistance * ProjectileDistance {
        MoveMethod(okuuLocation, r);
      } else if distSq > MeleeMoveDistance * MeleeMoveDistance {
        ShootMethod(okuuLocation);
      } else if distSq > MeleeDistance * MeleeDistance {
        MoveMethod(okuuLocation, r);
      } else {
        AttackMethod();
      }
    }

    method RandomIdleActionMethod(r: Rolls)
      modifies this
      ensures Snapshot() == RandomIdleAction(old(Snapshot()), r)
    {
      if r.Stay {
        GoIdleMethod(r);
      } else {
        MoveMethod(leashLocation.Plus(r.WanderOffset), r);
      }
    }

    /** getProjectile: hands out the pending projectile once. */
    method GetProjectile() returns (got: bool, projectile: Option<ZombieProjectile>)
      modifies this
      ensures got <==> old(outgoingProjectile).Some?
      ensures projectile == old(outgoingProjectile)
      ensures Snapshot() == old(Snapshot()).(Outgoing := None)
    {
      if outgoingProjectile.Some? {
        projectile := outgoingProjectile;
        outgoingProjectile := None;
        return true, projectile;
      }
      return false, None;
    }

    method AdvanceStateActiveMethod(delta: real, newAnimTime: real, ended: bool, r: Rolls)
      modifies this
      ensures Snapshot() == AdvanceStateActive(old(Snapshot()), delta, newAnimTime, ended, r)
    {
      animTime := newAnimTime;
      match zombieState {
        case Idle =>
          if staggerTime > 0.0 {
            staggerTime := staggerTime - delta;
          } else {
            GoAfterOkuuMethod(r);
          }
        case Moving =>
          GoAfterOkuuMethod(r);
        case KO =>
        case Staggering =>
          if ended {
            staggerTime := StaggerExtraDelay;
            hitStage := 0;
            GoIdleMethod(r);
          }
        case Shooting =>
          var prevAnimTime := animTime - delta;
          targetLoc := okuuLocation;
          if prevAnimTime < ShootTime && animTime >= ShootTime {
            outgoingProjectile := Some(ZombieProjectile(0.5, velocityDir.Scale(20.0)));
          }
          if ended {
            GoAfterOkuuMethod(r);
          }
        case Attacking =>
          if ended {
            GoAfterOkuuMethod(r);
          } else {
            targetLoc := okuuLocation;
          }
      }
    }

    method AdvanceStateIdleMethod(delta: real, newAnimTime: real, ended: bool, r: Rolls)
      modifies this
      ensures Snapshot() == AdvanceStateIdle(old(Snapshot()), delta, newAnimTime, ended, r)
    {
      animTime := newAnimTime;
      match zombieState {
        case Idle =>
          idleTimer := idleTimer - delta;
          if idleTimer <= 0.0 {
            RandomIdleActionMethod(r);
          }
        case Moving =>
          idleTimer := idleTimer - delta;
          var distSquared := worldPosition.Minus(targetLoc).LengthSquared();
          if distSquared < MoveDistanceGoal * MoveDistanceGoal || idleTimer <= 0.0 {
            GoIdleMethod(r);
          }
        case KO =>
        case _ =>
          if ended {
            GoIdleMethod(r);
          }
      }
    }

    method DecideMethod(delta: real, newAnimTime: real, ended: bool, r: Rolls)
      modifies this
      ensures Snapshot() == Decide(old(Snapshot()), delta, newAnimTime, ended, r)
    {
      if worldPosition.Minus(leashLocation).LengthSquared() > LeashDistance * LeashDistance {
        MoveMethod(leashLocation, r);
        awareOfOkuu := false;
        idleTimer := LeashIdleTime;
      } else if wasHurt {
        wasHurt := false;
        if hitPoints <= 0 {
          KnockedOutMethod();
        } else if zombieState != KO {
          BeHurtMethod();
        }
      } else if awareOfOkuu || CanSeeOkuu(Snapshot()) {
        awareOfOkuu := true;
        AdvanceStateActiveMethod(delta, newAnimTime, ended, r);
      } else {
        AdvanceStateIdleMethod(delta, newAnimTime, ended, r);
      }
    }

    /** update: renderDistance is GameMain.RenderDistance; the animation
        player's new clip time and end-of-clip flag, the random draws and
        Vector3.Normalize are given. */
    method Update(renderDistance: real, delta: real, newAnimTime: real, ended: bool, r: Rolls, normalize: Vec3 -> Vec3)
      modifies this
      ensures Snapshot() == Step(old(Snapshot()), renderDistance, delta, newAnimTime, ended, r, normalize)
    {
      if renderDistance < 0.0 || distSq > renderDistance * renderDistance {
        return;
      }
      ghost var f0 := Snapshot();
      CountKnockoutTime(delta);
      ghost var f1 := Snapshot();
      DecideMethod(delta, newAnimTime, ended, r);
      ghost var f2 := Snapshot();
      SetVelocityDirMethod(normalize);
      StepWithinRender(f0, renderDistance, delta, newAnimTime, ended, r, normalize, f1, f2);
    }

    /** A knocked-out fairy counts the time it has been down. */
    method CountKnockoutTime(delta: real)
      modifies this
      ensures Snapshot() == CountKnockout(old(Snapshot()), delta)
    {
      if zombieState == KO {
        koTime := koTime + delta;
      }
    }

    /** setVelocityDir */
    method SetVelocityDirMethod(normalize: Vec3 -> Vec3)
      modifies this
      ensures Snapshot() == SetVelocityDir(old(Snapshot()), normalize)
    {
      if worldPosition != targetLoc {
        velocityDir := targetLoc.Minus(worldPosition);
        velocityDir := normalize(velocityDir);
      }
    }

    /** registerHit */
    method RegisterHitMethod(stage: int)
      modifies this
      ensures Snapshot() == RegisterHit(old(Snapshot()), stage)
    {
      awareOfOkuu := true;
      wasHurt := true;
      hitPoints := hitPoints - stage;
      hitStage := stage;
    }

    /** getMoveSpeed */
    method GetMoveSpeed() returns (speed: real)
      ensures speed == Speed(Snapshot())
    {
      if zombieState == Moving {
        return MoveSpeed;
      }
      if zombieState == Staggering {
        return StaggerSpeed;
      }
      return 0.0;
    }

    /** timeKOed */
    method TimeKOed() returns (t: real)
      ensures t == Snapshot().KoTime
    {
      return koTime;
    }

    /** lastHitStage */
    method LastHitStage() returns (stage: int)
      ensures stage == Snapshot().HitStage
    {
      return hitStage;
    }
  }

  /** A pending projectile is handed out once: a second request right after
      gets nothing. */
  method ProjectileHandedOutOnce(z: ZombieFairy) returns (first: bool, second: bool)
    modifies z
    ensures first <==> old(z.outgoingProjectile).Some?
    ensures !second
  {
    var p1, p2;
    first, p1 := z.GetProjectile();
    second, p2 := z.GetProjectile();
  }

  /** new ZombieFairy(m, loc), with the exception thrown when the mesh m
      lacks one of the fairy's animations. */
  method NewZombieFairy(animations: set<string>, loc: Vec3) returns (r: Result<ZombieFairy>)
    ensures r.Err? <==> !AllAnimsOK(animations)
    ensures r.Err? ==> r.error == MissingAnimations
    ensures r.Ok? ==> fresh(r.value) && IsUnit(r.value.velocityDir)
    ensures r.Ok? ==>
      r.value.Snapshot() == Fairy(Idle, IdleClip, 0.0, loc, loc, Forward, loc, Zero3, 0.0, false, false,
                                  5.0, 0.0, 0.0, 0, InitialHitPoints, None)
  {
    if !AllAnimsOK(animations) {
      return Err(MissingAnimations);
    }
    var fairy := new ZombieFairy(loc);
    return Ok(fairy);
  }
}
