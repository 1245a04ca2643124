/** UtsuhoReiuji: the player character's state machine. Each step takes the
    inputs gathered since the last step, lets the one with the highest
    priority act, and otherwise advances the current action; an action
    switches the animation, which is recorded by name. */
module Okuu {
  import opened Common

  datatype OkuuState =
    | Idle | Interruptable | Moving | Attacking | Recovering
    | Backstepping | Transitioning | Aiming | Uninterruptable | KO

  datatype BufferAction = Nothing | BufferAttack | BufferBackstep

  /** The input flags set between two steps. */
  datatype Inputs = Inputs(
    Movement: Vec3, Cheer: bool, Attack: bool, Backstep: bool,
    Cannon: bool, Damage: bool, InstantKO: bool, Miracle: bool)

  const NoInput := Inputs(Zero3, false, false, false, false, false, false, false)

  const RunSpeed := 8.0
  const WalkSpeed := 2.0
  const AttackMoveSpeed := 6.0
  const AttackStartMove := 5.0 / 24.0
  const AttackEndMove := 19.0 / 24.0
  const RecoverBackSpeed := -1.6
  const RecoverStartMove := 22.0 / 24.0
  const RecoverEndMove := 36.0 / 24.0
  const BackstepSpeed := -8.0
  const BackstepStartMove := 2.0 / 24.0
  const BackstepEndMove := 17.0 / 24.0

  /** The character's animation clips. */
  datatype Anim =
    | IdleAnim | WalkAnim | RunAnim | CheerAnim | ReadyAnim
    | Attack1Swing | Attack1Recover | Attack2Swing | Attack2Recover | Attack3Swing
    | Attack3Recover | BackstepAnim | RaiseCannon | AimingAnim | FireAnim
    | LowerCannon | IdleHurt | ReadyHurt | RunHurt | RunHurtRecover
    | KOAnim

  /** The clip's name in the model file. */
  function AnimName(a: Anim): string
  {
    match a
    case IdleAnim => "idle"
    case WalkAnim => "walk"
    case RunAnim => "run"
    case CheerAnim => "cheer"
    case ReadyAnim => "ready"
    case Attack1Swing => "attack1_swing"
    case Attack1Recover => "attack1_recover"
    case Attack2Swing => "attack2_swing"
    case Attack2Recover => "attack2_recover"
    case Attack3Swing => "attack3_swing"
    case Attack3Recover => "attack3_recover"
    case BackstepAnim => "backstep"
    case RaiseCannon => "raise_cannon"
    case AimingAnim => "aiming"
    case FireAnim => "fire"
    case LowerCannon => "lower_cannon"
    case IdleHurt => "idle_hurt"
    case ReadyHurt => "ready_hurt"
    case RunHurt => "run_hurt"
    case RunHurtRecover => "run_hurt_recover"
    case KOAnim => "ko"
  }

  /** allAnimsOK: the model provides every clip the character uses. */
  predicate AllAnimsOK(clips: map<Anim, real>)
  {
    forall a: Anim :: a in clips
  }

  /** The character's state, apart from the pending input. Clips gives the
      duration of each animation; Animation and AnimTime describe the clip
      playing; Facing is the direction last turned to. */
  datatype Okuu = Okuu(
    State: OkuuState,
    AttackStage: int,
    Buffered: BufferAction,
    Transition: OkuuState,
    Running: bool,
    Ready: bool,
    BlinkEnabled: bool,
    BlinkTime: real,
    Animation: Anim,
    AnimTime: real,
    VelocityDir: Vec3,
    Facing: Vec3,
    Clips: map<Anim, real>)

  function ClipDuration(clips: map<Anim, real>, name: Anim): real
  {
    if name in clips then clips[name] else 0.0
  }

  /** The duration of the clip playing (currentAnimation.Duration). */
  function Duration(s: Okuu): real
  {
    ClipDuration(s.Clips, s.Animation)
  }

  // ------------------------------------------------------------ actions

  /** switchAnimationSmooth / switchAnimation: start the named clip. */
  function SwitchTo(s: Okuu, name: Anim): Okuu
  {
    s.(Animation := name, AnimTime := 0.0)
  }

  function ReadyOrIdle(s: Okuu): Okuu
  {
    SwitchTo(s.(State := Idle), if s.Ready then ReadyAnim else IdleAnim)
  }

  function RunOrWalk(s: Okuu): Okuu
  {
    SwitchTo(s.(State := Moving), if s.Running then RunAnim else WalkAnim)
  }

  function Cheer(s: Okuu): Okuu
  {
    SwitchTo(s.(State := Interruptable), CheerAnim)
  }

  function SwingName(stage: int): Anim
  {
    if stage == 0 then Attack1Swing
    else if stage == 1 then Attack2Swing
    else if stage == 2 then Attack3Swing
    else CheerAnim
  }

  function RecoverName(stage: int): Anim
  {
    if stage == 1 then Attack1Recover
    else if stage == 2 then Attack2Recover
    else if stage == 3 then Attack3Recover
    else CheerAnim
  }

  /** attack: the swing of the current combo stage, turned towards the
      movement input if there is one and otherwise kept facing; the third
      swing also moves Okuu that way. */
  function Attack(s: Okuu, movement: Vec3): Okuu
  {
    var dir := if movement != Zero3 then movement else s.Facing;
    var facing := if 0 <= s.AttackStage <= 2 then dir else s.Facing;
    var velocity := if s.AttackStage == 2 then dir else s.VelocityDir;
    s.(State := Attacking, Facing := facing, VelocityDir := velocity,
       Animation := SwingName(s.AttackStage), AnimTime := 0.0, AttackStage := s.AttackStage + 1)
  }

  function AttackRecover(s: Okuu): Okuu
  {
    SwitchTo(s.(State := Recovering), RecoverName(s.AttackStage))
  }

  function Backstep(s: Okuu): Okuu
  {
    SwitchTo(s.(State := Backstepping, AttackStage := 0), BackstepAnim)
  }

  function StartAiming(s: Okuu): Okuu
  {
    SwitchTo(s.(State := Transitioning, Transition := Aiming), RaiseCannon)
  }

  function Aim(s: Okuu): Okuu
  {
    SwitchTo(s.(State := Aiming), AimingAnim)
  }

  function Fire(s: Okuu): Okuu
  {
    SwitchTo(s.(State := Uninterruptable, Transition := Aiming), FireAnim)
  }

  function StopAiming(s: Okuu): Okuu
  {
    SwitchTo(s.(State := Transitioning, Transition := Idle), LowerCannon)
  }

  /** The hurt animation and the state to return to, by the state Okuu was
      hit in. */
  function HurtReaction(state: OkuuState, ready: bool): (Anim, OkuuState)
  {
    match state
    case Idle => (if ready then ReadyHurt else IdleHurt, Idle)
    case Moving => (RunHurt, Moving)
    case Aiming => (ReadyHurt, Aiming)
    case _ => (ReadyHurt, Idle)
  }

  /** beHurt: the hurt animation, then back to moving or aiming when Okuu was
      doing that, and to idle otherwise. The attack stage is left as it was. */
  function BeHurt(s: Okuu): Okuu
  {
    var (anim, back) := HurtReaction(s.State, s.Ready);
    SwitchTo(s.(Transition := back, State := Transitioning), anim)
  }

  function KnockedOut(s: Okuu): Okuu
  {
    SwitchTo(s.(BlinkEnabled := false, BlinkTime := 0.0, State := KO), KOAnim)
  }

  /** transition: enter the state recorded for after the transition, then
      forget it. */
  function Transition(s: Okuu): Okuu
  {
    var entered :=
      match s.Transition
      case Aiming => Aim(s)
      case Moving => RunOrWalk(s)
      case _ => ReadyOrIdle(s);
    entered.(Transition := Idle)
  }

  // ------------------------------------------------------------- inputs

  function ProcessDamageTaken(s: Okuu): (Okuu, bool)
  {
    match s.State
    case Uninterruptable | Attacking | KO => (s, false)
    case Backstepping => if s.AnimTime <= BackstepEndMove then (s, false) else (BeHurt(s), true)
    case _ => (BeHurt(s), true)
  }

  function ProcessBackstepInput(s: Okuu): (Okuu, bool)
  {
    match s.State
    case Idle | Interruptable | Moving | Recovering | Aiming => (Backstep(s), true)
    case Attacking =>
      (if s.AnimTime >= 0.5 * Duration(s) then s.(Buffered := BufferBackstep) else s, false)
    case _ => (s, false)
  }

  function ProcessAttackInput(s: Okuu, movement: Vec3): (Okuu, bool)
  {
    match s.State
    case Idle | Interruptable | Moving => (Attack(s, movement), true)
    case Attacking =>
      (if s.AnimTime >= 0.5 * Duration(s) && s.AttackStage < 3 then s.(Buffered := BufferAttack) else s, false)
    case Recovering => if s.AttackStage < 3 then (Attack(s, movement), true) else (s, false)
    case Aiming => (Fire(s), true)
    case _ => (s, false)
  }

  function ProcessCannonInput(s: Okuu): (Okuu, bool)
  {
    match s.State
    case Idle | Interruptable | Moving => (StartAiming(s), true)
    case Aiming => (StopAiming(s), true)
    case _ => (s, false)
  }

  function ProcessMovementInput(s: Okuu, movement: Vec3): (Okuu, bool)
  {
    match s.State
    case Idle | Interruptable => (RunOrWalk(s).(Facing := movement, VelocityDir := movement), true)
    case Moving => (s.(Facing := movement, VelocityDir := movement), false)
    case _ => (s, false)
  }

  function ProcessCheerInput(s: Okuu): (Okuu, bool)
  {
    match s.State
    case Idle | Interruptable => (Cheer(s), true)
    case _ => (s, false)
  }

  function ProcessIdleInput(s: Okuu): (Okuu, bool)
  {
    match s.State
    case Moving => (ReadyOrIdle(s), true)
    case _ => (s, false)
  }

  /** The input that setNextState acts on. */
  datatype Command = Revive | InstantKnockout | Damage | BackstepCmd | AttackCmd | CannonCmd | Move | CheerCmd | NoCommand

  function TopCommand(i: Inputs): Command
  {
    if i.Miracle then Revive
    else if i.InstantKO then InstantKnockout
    else if i.Damage then Damage
    else if i.Backstep then BackstepCmd
    else if i.Attack then AttackCmd
    else if i.Cannon then CannonCmd
    else if i.Movement != Zero3 then Move
    else if i.Cheer then CheerCmd
    else NoCommand
  }

  /** setNextState: handle the highest-priority input; the flag says
      whether that changed the state. */
  function SetNextState(s: Okuu, i: Inputs): (Okuu, bool)
  {
    match TopCommand(i)
    case Revive =>
      if s.State == KO then (ReadyOrIdle(s.(BlinkEnabled := true)), true) else (s, false)
    case InstantKnockout =>
      if s.State == KO then (s, false) else (KnockedOut(s), true)
    case Damage => ProcessDamageTaken(s)
    case BackstepCmd => ProcessBackstepInput(s)
    case AttackCmd => ProcessAttackInput(s, i.Movement)
    case CannonCmd => ProcessCannonInput(s)
    case Move => ProcessMovementInput(s, i.Movement)
    case CheerCmd => ProcessCheerInput(s)
    case NoCommand => ProcessIdleInput(s)
  }

  /** What ends the current action when its clip has ended. */
  function FinishAction(s: Okuu, movement: Vec3): Okuu
  {
    match s.State
    case Interruptable | Backstepping => ReadyOrIdle(s)
    case Attacking =>
      var next :=
        match s.Buffered
        case BufferAttack => Attack(s, movement)
        case BufferBackstep => Backstep(s)
        case Nothing => AttackRecover(s);
      next.(Buffered := Nothing)
    case Recovering => ReadyOrIdle(s.(AttackStage := 0))
    case Uninterruptable | Transitioning => Transition(s)
    case _ => s
  }

  /** advanceCurrentState: the clip time is advanced (to animTime, by the
      animation player) and, when the clip has ended, the current action
      finishes. */
  function AdvanceCurrentState(s: Okuu, movement: Vec3, animTime: real, ended: bool): Okuu
  {
    var t := s.(AnimTime := animTime);
    if ended then FinishAction(t, movement) else t
  }

  /** One update of the state machine: the input, or else the current
      action; the input flags are cleared afterwards. */
  function Step(s: Okuu, i: Inputs, animTime: real, ended: bool): Okuu
  {
    var (t, changed) := SetNextState(s, i);
    if changed then t else AdvanceCurrentState(t, i.Movement, animTime, ended)
  }

  /** getMoveSpeed */
  function MoveSpeed(s: Okuu): real
  {
    var normal := if s.Running then RunSpeed else WalkSpeed;
    if s.State == Attacking && s.AttackStage == 3 && AttackStartMove <= s.AnimTime <= AttackEndMove then AttackMoveSpeed
    else if s.State == Recovering && s.AttackStage == 3 && RecoverStartMove <= s.AnimTime <= RecoverEndMove then RecoverBackSpeed
    else if s.State == Backstepping && BackstepStartMove <= s.AnimTime <= BackstepEndMove then BackstepSpeed
    else if s.State == Moving then normal
    else if s.State == Transitioning && s.Transition == Moving then 0.5 * normal
    else 0.0
  }

  function ToggleRunWalk(s: Okuu, newRunning: bool): Okuu
  {
    if s.Running == newRunning then s
    else
      var t := s.(Running := newRunning);
      if t.State == Moving then SwitchTo(t, if newRunning then RunAnim else WalkAnim) else t
  }

  function ToggleReadyIdle(s: Okuu, newReady: bool): Okuu
  {
    if s.Ready == newReady then s
    else
      var t := s.(Ready := newReady);
      if t.State == Idle then SwitchTo(t, if newReady then ReadyAnim else IdleAnim) else t
  }

  // ----------------------------------------------------------- properties

  /** setNextState acts on one input only: inputs with the same
      highest-priority command (and the same movement direction, which an
      attack aims with) lead to the same state. */
  lemma OneInputPerStep(s: Okuu, i: Inputs, j: Inputs)
    requires TopCommand(i) == TopCommand(j) && i.Movement == j.Movement
    ensures SetNextState(s, i) == SetNextState(s, j)
  {
  }

  /** A revival acts only on a knocked-out character, who gets back to
      idle with blinking on; an instant knockout acts on anyone else. */
  lemma ReviveAndKnockout(s: Okuu, i: Inputs)
    ensures TopCommand(i) == Revive ==>
      (SetNextState(s, i).1 <==> s.State == KO) &&
      (s.State == KO ==> SetNextState(s, i).0.State == Idle && SetNextState(s, i).0.BlinkEnabled)
    ensures TopCommand(i) == InstantKnockout ==>
      (SetNextState(s, i).1 <==> s.State != KO) &&
      SetNextState(s, i).0.State == KO &&
      (s.State != KO ==> !SetNextState(s, i).0.BlinkEnabled && SetNextState(s, i).0.Animation == KOAnim)
  {
  }

  /** Damage is shrugged off while uninterruptable, attacking, knocked out
      or early in a backstep; otherwise Okuu transitions back to moving,
      aiming or idle, and the attack stage is kept. */
  lemma DamageHandling(s: Okuu, i: Inputs)
    requires TopCommand(i) == Damage
    ensures var (t, changed) := SetNextState(s, i);
      var immune := s.State in {Uninterruptable, Attacking, KO} || (s.State == Backstepping && s.AnimTime <= BackstepEndMove);
      (immune ==> !changed && t == s) &&
      (!immune ==>
        (changed && t.State == Transitioning && t.AttackStage == s.AttackStage &&
         t.Transition == (if s.State == Moving then Moving else if s.State == Aiming then Aiming else Idle)))
  {
  }

  /** Attack input by state: attack out of idle, interruptable or moving;
      buffer late in a swing before the third; continue the combo from a
      recovery before the third; fire while aiming. */
  lemma AttackHandling(s: Okuu, i: Inputs)
    requires TopCommand(i) == AttackCmd
    ensures var (t, changed) := SetNextState(s, i);
      (s.State in {Idle, Interruptable, Moving} ==> changed && t == Attack(s, i.Movement)) &&
      (s.State == Attacking ==>
        (!changed &&
         t.Buffered == (if s.AnimTime >= 0.5 * Duration(s) && s.AttackStage < 3 then BufferAttack else s.Buffered) &&
         t.State == Attacking)) &&
      (s.State == Recovering ==> (changed <==> s.AttackStage < 3) && (changed ==> t == Attack(s, i.Movement))) &&
      (s.State == Aiming ==> changed && t.State == Uninterruptable && t.Transition == Aiming && t.Animation == FireAnim) &&
      (s.State in {Backstepping, Transitioning, Uninterruptable, KO} ==> !changed && t == s)
  {
  }

  /** attack plays the swing of the current stage (the cheer animation past
      the third) and moves to the next stage, aiming with the movement input
      when there is one; backstep resets the combo. */
  lemma AttackStages(s: Okuu, movement: Vec3)
    ensures var t := Attack(s, movement);
      t.State == Attacking && t.AttackStage == s.AttackStage + 1 &&
      t.Animation == (if s.AttackStage == 0 then Attack1Swing
                      else if s.AttackStage == 1 then Attack2Swing
                      else if s.AttackStage == 2 then Attack3Swing
                      else CheerAnim) &&
      t.AnimTime == 0.0 &&
      (0 <= s.AttackStage <= 2 && movement != Zero3 ==> t.Facing == movement) &&
      (s.AttackStage == 2 ==> t.VelocityDir == t.Facing)
    ensures Backstep(s).AttackStage == 0 && Backstep(s).State == Backstepping
  {
  }

  /** The end of a clip: a swing continues with what was buffered and
      clears the buffer; a recovery ends the combo; a transition enters its
      target and forgets it; idle, moving, aiming and knocked out go on. */
  lemma AnimationEnd(s: Okuu, movement: Vec3, animTime: real)
    ensures var t := AdvanceCurrentState(s, movement, animTime, true);
      (s.State == Attacking ==>
        t.Buffered == Nothing &&
        t.State == (if s.Buffered == BufferAttack then Attacking
                    else if s.Buffered == BufferBackstep then Backstepping
                    else Recovering)) &&
      (s.State == Recovering ==> t.AttackStage == 0 && t.State == Idle) &&
      (s.State in {Transitioning, Uninterruptable} ==>
        t.Transition == Idle &&
        t.State == (if s.Transition == Aiming then Aiming else if s.Transition == Moving then Moving else Idle)) &&
      (s.State in {Idle, Aiming, Moving, KO} ==> t == s.(AnimTime := animTime))
    ensures AdvanceCurrentState(s, movement, animTime, false) == s.(AnimTime := animTime)
  {
  }

  /** Cannon input raises the cannon from idle, interruptable or moving and
      lowers it while aiming; with no input at all only moving changes, to
      idle. */
  lemma CannonAndNoInput(s: Okuu, i: Inputs)
    ensures TopCommand(i) == CannonCmd ==>
      var (t, changed) := SetNextState(s, i);
      (s.State in {Idle, Interruptable, Moving} ==> changed && t.State == Transitioning && t.Transition == Aiming) &&
      (s.State == Aiming ==> changed && t.State == Transitioning && t.Transition == Idle) &&
      (s.State !in {Idle, Interruptable, Moving, Aiming} ==> !changed && t == s)
    ensures TopCommand(i) == NoCommand ==>
      var (t, changed) := SetNextState(s, i);
      (changed <==> s.State == Moving) && (changed ==> t.State == Idle) && (!changed ==> t == s)
  {
  }

  /** getMoveSpeed is one of the fixed speeds, and a standing character
      does not move. */
  lemma MoveSpeedValues(s: Okuu)
    ensures MoveSpeed(s) in {AttackMoveSpeed, RecoverBackSpeed, BackstepSpeed, RunSpeed, WalkSpeed, 4.0, 1.0, 0.0}
    ensures s.State in {Idle, Interruptable, Aiming, Uninterruptable, KO} ==> MoveSpeed(s) == 0.0
    ensures s.State == Moving ==> MoveSpeed(s) == (if s.Running then 8.0 else 2.0)
    ensures s.State == Transitioning && s.Transition == Moving ==> MoveSpeed(s) == (if s.Running then 4.0 else 1.0)
  {
  }

  /** Handling an input never makes the attack stage negative. */
  lemma InputKeepsStageNonNegative(s: Okuu, i: Inputs)
    requires s.AttackStage >= 0
    ensures SetNextState(s, i).0.AttackStage >= 0
  {
  }

  /** Finishing an action never makes the attack stage negative. */
  lemma FinishKeepsStageNonNegative(s: Okuu, movement: Vec3)
    requires s.AttackStage >= 0
    ensures FinishAction(s, movement).AttackStage >= 0
  {
  }

  /** The attack stage never becomes negative. */
  lemma AttackStageNonNegative(s: Okuu, i: Inputs, animTime: real, ended: bool)
    requires s.AttackStage >= 0
    ensures Step(s, i, animTime, ended).AttackStage >= 0
  {
    InputKeepsStageNonNegative(s, i);
    var t := SetNextState(s, i).0;
    FinishKeepsStageNonNegative(t.(AnimTime := animTime), i.Movement);
  }

  /** attackStage <= 3 is not kept: damage during the recovery from the
      third swing keeps stage 3, and the next attack after the transition
      plays the cheer animation at stage 4. */
  lemma AttackStageCanPassThree(s: Okuu)
    requires s.State == Recovering && s.AttackStage == 3
    ensures var hurt := Step(s, NoInput.(Damage := true), 0.0, false);
      var back := Step(hurt, NoInput, 1.0, true);
      var swing := Step(back, NoInput.(Attack := true), 0.0, false);
      hurt.State == Transitioning && back.State == Idle && back.AttackStage == 3 &&
      swing.State == Attacking && swing.AttackStage == 4 && swing.Animation == CheerAnim
  {
  }

  // ------------------------------------------------------------- the class

  class UtsuhoReiuji {
    var okuuState: OkuuState
    var attackStage: int
    var bufferedAction: BufferAction
    var transitionState: OkuuState
    var running: bool
    var readyForAction: bool
    var blinkEnabled: bool
    var currentBlinkTime: real
    var animation: Anim
    var animTime: real
    var velocityDir: Vec3
    var facing: Vec3
    /** The input flags set since the last update (input.Movement,
        cheerPressed, attackPressed, backstepPressed, cannonPressed,
        damageTaken, instantKO and miracle). */
    var input: Inputs
    const clips: map<Anim, real>

    function Snapshot(): Okuu
      reads this
    {
      Okuu(okuuState, attackStage, bufferedAction, transitionState, running, readyForAction,
           blinkEnabled, currentBlinkTime, animation, animTime, velocityDir, facing, clips)
    }

    function Pending(): Inputs
      reads this
    {
      input
    }

    /** The constructor starts idle, running, not ready, facing forward,
        with no input; a model without all the animations is refused. */
    constructor (clipDurations: map<Anim, real>)
      requires AllAnimsOK(clipDurations)
      ensures Snapshot() == Okuu(Idle, 0, Nothing, Idle, true, false, true, 0.0, IdleAnim, 0.0,
                                 Forward, Forward, clipDurations)
      ensures Pending() == NoInput
    {
      clips := clipDurations;
      okuuState := Idle;
      attackStage := 0;
      bufferedAction := Nothing;
      transitionState := Idle;
      running := true;
      readyForAction := false;
      blinkEnabled := true;
      currentBlinkTime := 0.0;
      animTime := 0.0;
      velocityDir := Forward;
      facing := Forward;
      input := NoInput;
      animation := IdleAnim;
    }

    method SwitchAnimationSmooth(name: Anim)
      modifies this
      ensures Snapshot() == SwitchTo(old(Snapshot()), name)
      ensures Pending() == old(Pending())
    {
      animation := name;
      animTime := 0.0;
    }

    method ReadyOrIdleMethod()
      modifies this
      ensures Snapshot() == ReadyOrIdle(old(Snapshot()))
      ensures Pending() == old(Pending())
    {
      okuuState := Idle;
      SwitchAnimationSmooth(if readyForAction then ReadyAnim else IdleAnim);
    }

    method RunOrWalkMethod()
      modifies this
      ensures Snapshot() == RunOrWalk(old(Snapshot()))
      ensures Pending() == old(Pending())
    {
      okuuState := Moving;
      SwitchAnimationSmooth(if running then RunAnim else WalkAnim);
    }

    method CheerMethod()
      modifies this
      ensures Snapshot() == Cheer(old(Snapshot()))
      ensures Pending() == old(Pending())
    {
      okuuState := Interruptable;
      SwitchAnimationSmooth(CheerAnim);
    }

    method AttackMethod()
      modifies this
      ensures Snapshot() == Attack(old(Snapshot()), old(input.Movement))
      ensures Pending() == old(Pending())
    {
      var attackDir := if input.Movement != Zero3 then input.Movement else facing;
      var attack, newFacing, newVelocity := CheerAnim, facing, velocityDir;
      if attackStage == 0 {
        attack, newFacing := Attack1Swing, attackDir;
      } else if attackStage == 1 {
        attack, newFacing := Attack2Swing, attackDir;
      } else if attackStage == 2 {
        attack, newFacing, newVelocity := Attack3Swing, attackDir, attackDir;
      }
      okuuState, facing, velocityDir := Attacking, newFacing, newVelocity;
      animation, animTime, attackStage := attack, 0.0, attackStage + 1;
    }

    method AttackRecoverMethod()
      modifies this
      ensures Snapshot() == AttackRecover(old(Snapshot()))
      ensures Pending() == old(Pending())
    {
      okuuState := Recovering;
      var recovery := CheerAnim;
      if attackStage == 1 {
        recovery := Attack1Recover;
      } else if attackStage == 2 {
        recovery := Attack2Recover;
      } else if attackStage == 3 {
        recovery := Attack3Recover;
      }
      SwitchAnimationSmooth(recovery);
    }

    method BackstepMethod()
      modifies this
      ensures Snapshot() == Backstep(old(Snapshot()))
      ensures Pending() == old(Pending())
    {
      okuuState := Backstepping;
      attackStage := 0;
      SwitchAnimationSmooth(BackstepAnim);
    }

    method StartAimingMethod()
      modifies this
      ensures Snapshot() == StartAiming(old(Snapshot()))
      ensures Pending() == old(Pending())
    {
      okuuState := Transitioning;
      SwitchAnimationSmooth(RaiseCannon);
      transitionState := Aiming;
    }

    method AimMethod()
      modifies this
      ensures Snapshot() == Aim(old(Snapshot()))
      ensures Pending() == old(Pending())
    {
      okuuState := Aiming;
      SwitchAnimationSmooth(AimingAnim);
    }

    method FireMethod()
      modifies this
      ensures Snapshot() == Fire(old(Snapshot()))
      ensures Pending() == old(Pending())
    {
      okuuState := Uninterruptable;
      SwitchAnimationSmooth(FireAnim);
      transitionState := Aiming;
    }

    method StopAimingMethod()
      modifies this
      ensures Snapshot() == StopAiming(old(Snapshot()))
      ensures Pending() == old(Pending())
    {
      okuuState := Transitioning;
      SwitchAnimationSmooth(LowerCannon);
      transitionState := Idle;
    }

    method BeHurtMethod()
      modifies this
      ensures Snapshot() == BeHurt(old(Snapshot()))
      ensures Pending() == old(Pending())
    {
      var hurt, back;
      match okuuState {
        case Idle =>
          hurt := if readyForAction then ReadyHurt else IdleHurt;
          back := Idle;
        case Moving =>
          hurt, back := RunHurt, Moving;
        case Aiming =>
          hurt, back := ReadyHurt, Aiming;
        case _ =>
          hurt, back := ReadyHurt, Idle;
      }
      SwitchAnimationSmooth(hurt);
      transitionState := back;
      okuuState := Transitioning;
    }

    method KnockedOutMethod()
      modifies this
      ensures Snapshot() == KnockedOut(old(Snapshot()))
      ensures Pending() == old(Pending())
    {
      blinkEnabled := false;
      currentBlinkTime := 0.0;
      okuuState := KO;
      SwitchAnimationSmooth(KOAnim);
    }

    method TransitionMethod()
      modifies this
      ensures Snapshot() == Transition(old(Snapshot()))
      ensures Pending() == old(Pending())
    {
      match transitionState {
        case Aiming => AimMethod();
        case Moving => RunOrWalkMethod();
        case _ => ReadyOrIdleMethod();
      }
      transitionState := Idle;
    }

    method FinishActionMethod()
      modifies this
      ensures Snapshot() == FinishAction(old(Snapshot()), old(input.Movement))
      ensures Pending() == old(Pending())
    {
      match okuuState {
        case Interruptable | Backstepping => ReadyOrIdleMethod();
        case Attacking =>
          match bufferedAction {
            case BufferAttack => AttackMethod();
            case BufferBackstep => BackstepMethod();
            case Nothing => AttackRecoverMethod();
          }
          bufferedAction := Nothing;
        case Recovering =>
          attackStage := 0;
          ReadyOrIdleMethod();
        case Uninterruptable | Transitioning => TransitionMethod();
        case _ =>
      }
    }

    /** advanceCurrentState: the animation player's new clip time and
        whether the clip ended are given. */
    method AdvanceCurrentStateMethod(newAnimTime: real, animationEnded: bool)
      modifies this
      ensures Snapshot() == AdvanceCurrentState(old(Snapshot()), old(input.Movement), newAnimTime, animationEnded)
      ensures Pending() == old(Pending())
    {
      animTime := newAnimTime;
      if animationEnded {
        FinishActionMethod();
      }
    }

    method SetNextStateMethod() returns (changed: bool)
      modifies this
      ensures (Snapshot(), changed) == SetNextState(old(Snapshot()), old(Pending()))
      ensures Pending() == old(Pending())
    {
      if input.Miracle {
        if okuuState == KO {
          blinkEnabled := true;
          ReadyOrIdleMethod();
          return true;
        }
        return false;
      } else if input.InstantKO {
        if okuuState == KO {
          return false;
        }
        KnockedOutMethod();
        return true;
      } else if input.Damage {
        changed := ProcessDamageTakenMethod();
      } else if input.Backstep {
        changed := ProcessBackstepInputMethod();
      } else if input.Attack {
        changed := ProcessAttackInputMethod();
      } else if input.Cannon {
        changed := ProcessCannonInputMethod();
      } else if input.Movement != Zero3 {
        changed := ProcessMovementInputMethod();
      } else if input.Cheer {
        changed := ProcessCheerInputMethod();
      } else {
        changed := ProcessIdleInputMethod();
      }
    }

    method ProcessDamageTakenMethod() returns (changed: bool)
      modifies this
      ensures (Snapshot(), changed) == ProcessDamageTaken(old(Snapshot()))
      ensures Pending() == old(Pending())
    {
      match okuuState {
        case Uninterruptable | Attacking | KO => return false;
        case Backstepping =>
          if animTime <= BackstepEndMove {
            return false;
          }
          BeHurtMethod();
          return true;
        case _ =>
          BeHurtMethod();
          return true;
      }
    }

    method ProcessBackstepInputMethod() returns (changed: bool)
      modifies this
      ensures (Snapshot(), changed) == ProcessBackstepInput(old(Snapshot()))
      ensures Pending() == old(Pending())
    {
      match okuuState {
        case Idle | Interruptable | Moving | Recovering | Aiming =>
          BackstepMethod();
          return true;
        case Attacking =>
          if animTime >= 0.5 * ClipDuration(clips, animation) {
            bufferedAction := BufferBackstep;
          }
          return false;
        case _ => return false;
      }
    }

    method ProcessAttackInputMethod() returns (changed: bool)
      modifies this
      ensures (Snapshot(), changed) == ProcessAttackInput(old(Snapshot()), old(input.Movement))
      ensures Pending() == old(Pending())
    {
      match okuuState {
        case Idle | Interruptable | Moving =>
          AttackMethod();
          return true;
        case Attacking =>
          if animTime >= 0.5 * ClipDuration(clips, animation) && attackStage < 3 {
            bufferedAction := BufferAttack;
          }
          return false;
        case Recovering =>
          if attackStage < 3 {
            AttackMethod();
            return true;
          }
          return false;
        case Aiming =>
          FireMethod();
          return true;
        case _ => return false;
      }
    }

    method ProcessCannonInputMethod() returns (changed: bool)
      modifies this
      ensures (Snapshot(), changed) == ProcessCannonInput(old(Snapshot()))
      ensures Pending() == old(Pending())
    {
      match okuuState {
        case Idle | Interruptable | Moving =>
          StartAimingMethod();
          return true;
        case Aiming =>
          StopAimingMethod();
          return true;
        case _ => return false;
      }
    }

    method ProcessMovementInputMethod() returns (changed: bool)
      modifies this
      ensures (Snapshot(), changed) == ProcessMovementInput(old(Snapshot()), old(input.Movement))
      ensures Pending() == old(Pending())
    {
      match okuuState {
        case Idle | Interruptable =>
          RunOrWalkMethod();
          facing, velocityDir := input.Movement, input.Movement;
          return true;
        case Moving =>
          facing, velocityDir := input.Movement, input.Movement;
          return false;
        case _ => return false;
      }
    }

    method ProcessCheerInputMethod() returns (changed: bool)
      modifies this
      ensures (Snapshot(), changed) == ProcessCheerInput(old(Snapshot()))
      ensures Pending() == old(Pending())
    {
      match okuuState {
        case Idle | Interruptable =>
          CheerMethod();
          return true;
        case _ => return false;
      }
    }

    method ProcessIdleInputMethod() returns (changed: bool)
      modifies this
      ensures (Snapshot(), changed) == ProcessIdleInput(old(Snapshot()))
      ensures Pending() == old(Pending())
    {
      match okuuState {
        case Moving =>
          ReadyOrIdleMethod();
          return true;
        case _ => return false;
      }
    }

    method ClearInputFlags()
      modifies this
      ensures Snapshot() == old(Snapshot())
      ensures Pending() == NoInput
    {
      input := NoInput;
    }

    /** update, as far as the state machine goes: the animation player's
        new clip time and end-of-clip flag are given. */
    method Update(newAnimTime: real, animationEnded: bool)
      modifies this
      ensures Snapshot() == Step(old(Snapshot()), old(Pending()), newAnimTime, animationEnded)
      ensures Pending() == NoInput
    {
      var stateChangedFromInput := SetNextStateMethod();
      if !stateChangedFromInput {
        AdvanceCurrentStateMethod(newAnimTime, animationEnded);
      }
      ClearInputFlags();
    }

    /** getMoveSpeed */
    method GetMoveSpeed() returns (speed: real)
      ensures speed == MoveSpeed(Snapshot())
    {
      if okuuState == Attacking && attackStage == 3 && animTime >= AttackStartMove && animTime <= AttackEndMove {
        return AttackMoveSpeed;
      } else if okuuState == Recovering && attackStage == 3 && animTime >= RecoverStartMove && animTime <= RecoverEndMove {
        return RecoverBackSpeed;
      } else if okuuState == Backstepping && animTime >= BackstepStartMove && animTime <= BackstepEndMove {
        return BackstepSpeed;
      } else if okuuState == Moving {
        return if running then RunSpeed else WalkSpeed;
      } else if okuuState == Transitioning && transitionState == Moving {
        var normalSpeed := if running then RunSpeed else WalkSpeed;
        return 0.5 * normalSpeed;
      }
      return 0.0;
    }

    method ToggleRunWalkMethod(newRunning: bool)
      modifies this
      ensures Snapshot() == ToggleRunWalk(old(Snapshot()), newRunning)
      ensures Pending() == old(Pending())
    {
      if running != newRunning {
        running := newRunning;
        if okuuState == Moving {
          SwitchAnimationSmooth(if running then RunAnim else WalkAnim);
        }
      }
    }

    /** toggleReadyIdle() flips readiness; toggleReadyIdle(b) sets it. */
    method ToggleReadyIdleMethod(newReady: bool)
      modifies this
      ensures Snapshot() == ToggleReadyIdle(old(Snapshot()), newReady)
      ensures Pending() == old(Pending())
    {
      if readyForAction != newReady {
        readyForAction := newReady;
        if okuuState == Idle {
          SwitchAnimationSmooth(if readyForAction then ReadyAnim else IdleAnim);
        }
      }
    }

    method InputCheer()
      modifies this
      ensures Snapshot() == old(Snapshot())
      ensures Pending() == old(Pending()).(Cheer := true)
    {
      input := input.(Cheer := true);
    }

    method InputMove(vel: Vec3)
      modifies this
      ensures Snapshot() == old(Snapshot())
      ensures Pending() == old(Pending()).(Movement := vel)
    {
      input := input.(Movement := vel);
    }

    method InputAttack()
      modifies this
      ensures Snapshot() == old(Snapshot())
      ensures Pending() == old(Pending()).(Attack := true)
    {
      input := input.(Attack := true);
    }

    method InputBackstep()
      modifies this
      ensures Snapshot() == old(Snapshot())
      ensures Pending() == old(Pending()).(Backstep := true)
    {
      input := input.(Backstep := true);
    }

    method InputCannon()
      modifies this
      ensures Snapshot() == old(Snapshot())
      ensures Pending() == old(Pending()).(Cannon := true)
    {
      input := input.(Cannon := true);
    }

    /** getHurt: the attack power is not used. */
    method GetHurt(attackPower: int)
      modifies this
      ensures Snapshot() == old(Snapshot())
      ensures Pending() == old(Pending()).(Damage := true)
    {
      input := input.(Damage := true);
    }

    method InstantKnockout()
      modifies this
      ensures Snapshot() == old(Snapshot())
      ensures Pending() == old(Pending()).(InstantKO := true)
    {
      input := input.(InstantKO := true);
    }

    method MedicalMiracle()
      modifies this
      ensures Snapshot() == old(Snapshot())
      ensures Pending() == old(Pending()).(Miracle := true)
    {
      input := input.(Miracle := true);
    }
  }

  /** new UtsuhoReiuji(...), with the exception thrown when the model lacks
      one of her animations. */
  method NewUtsuhoReiuji(clipDurations: map<Anim, real>) returns (r: Result<UtsuhoReiuji>)
    ensures r.Err? <==> !AllAnimsOK(clipDurations)
    ensures r.Err? ==> r.error == MissingAnimations
    ensures r.Ok? ==> fresh(r.value) && r.value.Pending() == NoInput
    ensures r.Ok? ==>
      r.value.Snapshot() == Okuu(Idle, 0, Nothing, Idle, true, false, true, 0.0, IdleAnim, 0.0, Forward, Forward, clipDurations)
  {
    if !AllAnimsOK(clipDurations) {
      return Err(MissingAnimations);
    }
    var okuu := new UtsuhoReiuji(clipDurations);
    return Ok(okuu);
  }
}
