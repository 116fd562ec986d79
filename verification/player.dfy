/** Player.cs: the wind-up robot. Its power runs down while it acts and is wound
    back up by holding the rewind key; `Update` chooses between the two each frame
    and turns a click into a throw or a recall depending on the disc. Throwing,
    recalling, catching and the level intro walk run as routines resumed one frame
    (or one wait) at a time, and each re-checks the power before acting.

    Calls the player makes into the disc (`Disc.ChangeState`) are returned as a
    command in a `Step`; what the player reads of the disc is its state, passed in. */
module Players {

  import opened Wrappers
  import opened Scene
  import opened Spinners
  import Discs
  import Lists

  datatype PlayerState =
    | Disabled
    | PoweredOff
    | PoweringOn
    | PoweredOn
    | Throwing
    | Recalling
    | BatteryCaught
    | LevelCompleted
    | GameCompleted
    | GameRewinded

  /** A routine parked at one of its yield points. */
  datatype Routine =
    | PoweringOnWait       // PoweringOnRoutine, waiting for the power-on animation
    | ThrowFacing          // ThrowRoutine, turned to the target, end of frame
    | ThrowWindup          // ThrowRoutine, waiting for the launch moment
    | ThrowFollowThrough   // ThrowRoutine, disc fired, waiting for the animation
    | RecallStopping       // RecallRoutine, disc told to return, end of frame
    | RecallFacing         // RecallRoutine, turned to the disc, end of frame
    | RecallAnimating      // RecallRoutine, animation triggered, end of frame
    | RecallAwaiting       // RecallRoutine, inside its wait-for-the-disc loop
    | CatchFacing          // CatchingRoutine, turned to the disc, end of frame
    | CatchReaching        // CatchingRoutine, hand extending, end of frame
    | CatchAttaching       // CatchingRoutine, disc forced onto the hand, end of frame
    | CatchHolding         // CatchingRoutine, waiting for the catch animation
    | IntroWalking         // LevelIntroRoutine, warped or walking to the end point
    | IntroSettling        // LevelIntroRoutine, standing on the end point

  /** Designer settings: seconds to wind fully up and fully down, and the wind-up
      key's rotation axis for each direction. */
  datatype Config = Config(rewindSpeed: real, unwindSpeed: real, upAxis: Vec3, downAxis: Vec3)

  /** The inspector does not bound the two durations. As meant, both are a positive
      number of seconds; the power steps below also give a meaning to the others. */
  predicate ValidConfig(cfg: Config) {
    cfg.rewindSpeed > 0.0 && cfg.unwindSpeed > 0.0
  }

  /** Neither duration is negative: the power then never leaves its range. */
  predicate NonNegativeSpeeds(cfg: Config) {
    cfg.rewindSpeed >= 0.0 && cfg.unwindSpeed >= 0.0
  }

  datatype Player = Player(
    state: PlayerState,
    power: real,               // `CurrentPower`, out of `MaxPower` = 1
    inputsDisabled: bool,      // `DisableInputs`
    catchTrigger: bool,        // whether `discCatchTrigger` is enabled
    key: Spinner,              // the wind-up key
    routines: seq<Routine>)    // live coroutines, oldest first

  /** One frame of input: the movement axes, the rewind key held, the fire button
      pressed this frame. */
  datatype Input = Input(horizontal: real, vertical: real, rewindHeld: bool, clicked: bool)

  predicate Moving(input: Input) {
    input.horizontal != 0.0 || input.vertical != 0.0
  }

  /** The player after a call, with the command it gave the disc, if any. */
  datatype Step = Step(player: Player, command: Option<Discs.DiscState>)

  function Quiet(p: Player): Step {
    Step(p, None)
  }

  /** The power stays within its bounds. */
  predicate PowerInRange(p: Player) {
    0.0 <= p.power <= 1.0
  }

  /** `IsPoweredOn`: neither off nor still powering on, and some power left. */
  predicate IsPoweredOn(p: Player) {
    p.state != PoweredOff && p.state != PoweringOn && p.power > 0.0
  }

  /** `DisableUpdates`: the end-of-level and end-of-game states, or a paused game. */
  predicate DisableUpdates(p: Player, paused: bool) {
    p.state in {Disabled, GameCompleted, GameRewinded, LevelCompleted} || paused
  }

  function Min(a: real, b: real): real {
    if a <= b then a else b
  }

  function Max(a: real, b: real): real {
    if a >= b then a else b
  }

  /** `Start`: inputs disabled, catch trigger off, and the state `Disabled`. */
  function Initial(key: Spinner): (p: Player)
    ensures p.state == Disabled && p.inputsDisabled && !p.catchTrigger
    ensures PowerInRange(p) && !IsPoweredOn(p) && p.routines == []
  {
    Player(Disabled, 0.0, true, false, key, [])
  }

  // ---------------------------------------------------------------------------
  // State transitions

  /** `ChangeState`: sets the state, then applies its entry effect. Entering
      `GameRewinded` drains the power and ends in `PoweredOff`; entering `Recalling`
      commands the disc to return. */
  function ChangeState(p: Player, s: PlayerState): (r: Step)
    decreases if s == GameRewinded then 1 else 0
    ensures r.player.state == (if s == GameRewinded then PoweredOff else s)
    ensures s == GameRewinded ==> r.player.power == 0.0
    ensures s != GameRewinded ==> r.player.power == p.power
    ensures PowerInRange(p) ==> PowerInRange(r.player)
    ensures r.player.state in {PoweredOff, GameCompleted} ==> r.player.inputsDisabled && !r.player.catchTrigger && !Spinning(r.player.key)
    ensures s == PoweredOn ==> !r.player.inputsDisabled
    ensures s == LevelCompleted ==> r.player.inputsDisabled
    ensures s in {Disabled, PoweringOn, Throwing, Recalling, BatteryCaught} ==> r.player.inputsDisabled == p.inputsDisabled
    ensures s == Recalling ==> !r.player.catchTrigger
    ensures s in {Disabled, PoweringOn, PoweredOn, Throwing, BatteryCaught, LevelCompleted} ==> r.player.catchTrigger == p.catchTrigger
    ensures r.command == (if s == Recalling then Some(Discs.Recalled) else None)
    ensures s == PoweringOn ==> r.player.routines == p.routines + [PoweringOnWait]
    ensures s == Throwing ==> r.player.routines == p.routines + [ThrowFacing]
    ensures s == Recalling ==> r.player.routines == p.routines + [RecallStopping]
    ensures s !in {PoweringOn, Throwing, Recalling} ==> r.player.routines == p.routines
  {
    var p0 := p.(state := s);
    match s
    case PoweredOff => Quiet(p0.(inputsDisabled := true, catchTrigger := false, key := Stop(p0.key)))
    case GameCompleted => Quiet(p0.(inputsDisabled := true, catchTrigger := false, key := Stop(p0.key)))
    case PoweringOn => Quiet(p0.(routines := p0.routines + [PoweringOnWait]))
    case PoweredOn => Quiet(p0.(inputsDisabled := false))
    case Throwing => Quiet(p0.(routines := p0.routines + [ThrowFacing]))
    case Recalling =>
      // the first segment of RecallRoutine runs inside StartCoroutine
      Step(p0.(catchTrigger := false, routines := p0.routines + [RecallStopping]), Some(Discs.Recalled))
    case LevelCompleted => Quiet(p0.(inputsDisabled := true))
    case GameRewinded => ChangeState(p0.(power := 0.0), PoweredOff)
    case Disabled => Quiet(p0)
    case BatteryCaught => Quiet(p0)
  }

  /** `TriggerCatchingRoutine`: starts a catch, whose first segment disables the catch
      trigger; when asked to look at the disc it first turns to it. */
  function TriggerCatching(p: Player, lookAtDisc: bool): (r: Player)
    ensures !r.catchTrigger
    ensures r.routines == p.routines + [if lookAtDisc then CatchFacing else CatchReaching]
    ensures r.(catchTrigger := p.catchTrigger, routines := p.routines) == p
  {
    p.(catchTrigger := false, routines := p.routines + [if lookAtDisc then CatchFacing else CatchReaching])
  }

  // ---------------------------------------------------------------------------
  // Power

  /** `Rewind`: winds the power up by `dt / rewindSpeed`, capped at full, and starts
      powering on when a powered-off robot reaches full power. The key turns the
      winding-up way unless the power was already full. A zero duration makes the
      float step infinite, or NaN in a zero-length frame; `Mathf.Min` returns its
      second argument unless the first is smaller, so either way the power is full.
      A negative duration winds the power down. */
  function Rewind(cfg: Config, p: Player, dt: real): (r: Step)
    requires dt >= 0.0
    ensures r.command == None
    ensures r.player.power <= 1.0
    ensures cfg.rewindSpeed > 0.0 && p.power <= 1.0 ==> r.player.power >= p.power
    ensures cfg.rewindSpeed < 0.0 ==> r.player.power <= p.power
    ensures cfg.rewindSpeed == 0.0 ==> r.player.power == 1.0
    ensures cfg.rewindSpeed != 0.0 ==> (r.player.power == 1.0 <==> p.power + dt / cfg.rewindSpeed >= 1.0)
    ensures cfg.rewindSpeed != 0.0 && r.player.power < 1.0 ==> r.player.power == p.power + dt / cfg.rewindSpeed
    ensures cfg.rewindSpeed >= 0.0 && PowerInRange(p) ==> PowerInRange(r.player)
    ensures r.player.state == PoweringOn <==> (p.state == PoweringOn || (p.state == PoweredOff && r.player.power == 1.0))
    ensures r.player.state != p.state ==> p.state == PoweredOff && r.player.state == PoweringOn
    ensures r.player.state == p.state ==> r.player.routines == p.routines
    ensures r.player.state != p.state ==> r.player.routines == p.routines + [PoweringOnWait]
    ensures r.player.key.axis == (if p.power == 1.0 then p.key.axis else cfg.upAxis)
    ensures r.player.inputsDisabled == p.inputsDisabled && r.player.catchTrigger == p.catchTrigger
  {
    var key := if p.power == 1.0 then p.key else SetAxis(p.key, cfg.upAxis);
    var p1 := p.(key := key, power := if cfg.rewindSpeed == 0.0 then 1.0 else Min(p.power + dt / cfg.rewindSpeed, 1.0));
    if p1.power == 1.0 && p.state == PoweredOff then ChangeState(p1, PoweringOn) else Quiet(p1)
  }

  /** `Unwind`: lets the power run down by `dt / unwindSpeed`, floored at empty, and
      powers off when it reaches empty in any state but `PoweredOff`. The key turns
      the winding-down way unless the power was already empty; powering off stops it.
      As in `Rewind`, a zero duration empties the power at once (`Mathf.Max` returns
      its second argument unless the first is larger), and a negative one winds the
      power up without bound. */
  function Unwind(cfg: Config, p: Player, dt: real): (r: Step)
    requires dt >= 0.0
    ensures r.command == None
    ensures r.player.power >= 0.0
    ensures cfg.unwindSpeed > 0.0 && p.power >= 0.0 ==> r.player.power <= p.power
    ensures cfg.unwindSpeed < 0.0 ==> r.player.power >= p.power
    ensures cfg.unwindSpeed == 0.0 ==> r.player.power == 0.0
    ensures cfg.unwindSpeed != 0.0 ==> (r.player.power == 0.0 <==> p.power - dt / cfg.unwindSpeed <= 0.0)
    ensures cfg.unwindSpeed != 0.0 && r.player.power > 0.0 ==> r.player.power == p.power - dt / cfg.unwindSpeed
    ensures cfg.unwindSpeed >= 0.0 && PowerInRange(p) ==> PowerInRange(r.player)
    ensures r.player.state == PoweredOff <==> r.player.power == 0.0 || p.state == PoweredOff
    ensures r.player.state != PoweredOff ==> r.player.state == p.state
    ensures r.player.routines == p.routines
    ensures r.player.state != p.state ==> r.player.inputsDisabled && !r.player.catchTrigger && !Spinning(r.player.key)
    ensures r.player.state == p.state ==> r.player.inputsDisabled == p.inputsDisabled && r.player.catchTrigger == p.catchTrigger
    ensures r.player.state == p.state ==> r.player.key.axis == (if p.power == 0.0 then p.key.axis else cfg.downAxis)
  {
    var key := if p.power == 0.0 then p.key else SetAxis(p.key, cfg.downAxis);
    var p1 := p.(key := key, power := if cfg.unwindSpeed == 0.0 then 0.0 else Max(p.power - dt / cfg.unwindSpeed, 0.0));
    if p1.power == 0.0 && p.state != PoweredOff then ChangeState(p1, PoweredOff) else Quiet(p1)
  }

  /** Whether this frame winds the power up: in `PoweredOff` whenever the rewind key
      is held; in `PoweredOn` only when also standing still and not clicking. */
  predicate RewindsThisFrame(p: Player, input: Input) {
    && input.rewindHeld
    && (p.state == PoweredOff || (p.state == PoweredOn && !Moving(input) && !input.clicked))
  }

  /** `Update`: nothing while updates are disabled. Otherwise the key stops, the power
      is wound up or down, and a click by a robot still powered on after that either
      recalls a disc lying away from it or throws the disc it holds. */
  function Update(cfg: Config, p: Player, input: Input, disc: Discs.DiscState, paused: bool, dt: real): (r: Step)
    requires dt >= 0.0
    ensures DisableUpdates(p, paused) ==> r == Quiet(p)
    ensures NonNegativeSpeeds(cfg) && PowerInRange(p) ==> PowerInRange(r.player)
    ensures r.command != None ==> r.command == Some(Discs.Recalled) && r.player.state == Recalling
    ensures r.player.state != p.state ==> r.player.state in {PoweringOn, PoweredOff, Throwing, Recalling}
    ensures r.player.state == Throwing && p.state != Throwing ==>
      p.state == PoweredOn && input.clicked && disc == Discs.Attached
    ensures r.player.state == Recalling && p.state != Recalling ==>
      p.state == PoweredOn && input.clicked && disc in {Discs.Dispensed, Discs.Charged, Discs.Flying}
  {
    if DisableUpdates(p, paused) then Quiet(p)
    else
      var p1 := p.(key := Stop(p.key));
      if p.state == PoweredOff then
        if input.rewindHeld then Rewind(cfg, p1, dt) else Unwind(cfg, p1, dt)
      else if p.state == PoweredOn then
        var st := if !Moving(input) && !input.clicked && input.rewindHeld then Rewind(cfg, p1, dt) else Unwind(cfg, p1, dt);
        // ran out of power
        if st.player.state != PoweredOn then st
        else if input.clicked && disc in {Discs.Dispensed, Discs.Charged, Discs.Flying} then ChangeState(st.player, Recalling)
        else if input.clicked && disc == Discs.Attached then ChangeState(st.player, Throwing)
        else st
      else Unwind(cfg, p1, dt)
  }

  // ---------------------------------------------------------------------------
  // Routines

  /** How a routine ends: with nothing more, by calling `ChangeState(PoweredOn)`, or
      by handing over to a routine it starts (the recall starting the catch). */
  datatype Outcome = Done | ToPoweredOn | Spawn(next: Routine)

  /** What resuming a routine leads to: it parks at its next yield, or it ends; either
      way it may have commanded the disc. */
  datatype Progress =
    | Yielded(player: Player, next: Routine, command: Option<Discs.DiscState>)
    | Finished(player: Player, outcome: Outcome, command: Option<Discs.DiscState>)

  /** The end of ThrowRoutine: with power left the catch trigger is armed and the
      robot is back to `PoweredOn`; without, the routine just ends. */
  function ThrowEnd(p: Player): (g: Progress)
    ensures g.Finished? && g.command == None
    ensures p.power > 0.0 <==> g.outcome == ToPoweredOn
    ensures g.player == if p.power > 0.0 then p.(catchTrigger := true) else p
  {
    if p.power > 0.0 then Finished(p.(catchTrigger := true), ToPoweredOn, None) else Finished(p, Done, None)
  }

  /** RecallRoutine from its wait loop on: keep waiting while powered and the disc is
      not yet attached; once attached, start the catch if still powered. */
  function RecallWait(p: Player, disc: Discs.DiscState): (g: Progress)
    ensures g.command == None
    ensures g.Yielded? <==> IsPoweredOn(p) && disc != Discs.Attached
    ensures g.Yielded? ==> g == Yielded(p, RecallAwaiting, None)
    ensures g.Finished? ==> g.outcome == (if IsPoweredOn(p) then Spawn(CatchReaching) else Done)
    ensures g.Finished? && IsPoweredOn(p) ==> g.player == p.(catchTrigger := false)
    ensures g.Finished? && !IsPoweredOn(p) ==> g.player == p
  {
    if IsPoweredOn(p) && disc != Discs.Attached then Yielded(p, RecallAwaiting, None)
    else if IsPoweredOn(p) then Finished(p.(catchTrigger := false), Spawn(CatchReaching), None)
    else Finished(p, Done, None)
  }

  /** CatchingRoutine once the disc is attached: wait for the animation if powered. */
  function CatchHold(p: Player): (g: Progress)
    ensures g.command == None && g.player == p
    ensures g.Yielded? <==> IsPoweredOn(p)
    ensures g.Yielded? ==> g.next == CatchHolding
    ensures g.Finished? ==> g.outcome == Done
  {
    if IsPoweredOn(p) then Yielded(p, CatchHolding, None) else Finished(p, Done, None)
  }

  /** Resume routine `r` from where it is parked. `disc` is the disc's state and
      `arrived` says whether the intro walk has come within reach of its end point. */
  function Continue(p: Player, r: Routine, disc: Discs.DiscState, arrived: bool): (g: Progress)
    ensures g.command != None ==> (r == ThrowWindup && g.command == Some(Discs.Fired)) || (r == CatchReaching && g.command == Some(Discs.Attached))
    ensures g.Finished? && g.outcome == ToPoweredOn ==> r in {PoweringOnWait, ThrowWindup, ThrowFollowThrough, CatchHolding, IntroSettling}
    ensures g.player.power == p.power && g.player.state == p.state && g.player.routines == p.routines
    ensures g.player.inputsDisabled == p.inputsDisabled && g.player.key == p.key
  {
    match r
    case PoweringOnWait => Finished(p, ToPoweredOn, None)
    case ThrowFacing => Yielded(p, ThrowWindup, None)
    case ThrowWindup =>
      if p.power > 0.0 then Yielded(p, ThrowFollowThrough, Some(Discs.Fired)) else ThrowEnd(p)
    case ThrowFollowThrough => ThrowEnd(p)
    case RecallStopping => Yielded(p, RecallFacing, None)
    case RecallFacing => Yielded(p, RecallAnimating, None)
    case RecallAnimating => RecallWait(p, disc)
    case RecallAwaiting => RecallWait(p, disc)
    case CatchFacing => Yielded(p, CatchReaching, None)
    case CatchReaching =>
      if disc != Discs.Attached then Yielded(p, CatchAttaching, Some(Discs.Attached)) else CatchHold(p)
    case CatchAttaching => CatchHold(p)
    case CatchHolding =>
      if IsPoweredOn(p) then Finished(p, ToPoweredOn, None) else Finished(p, Done, None)
    case IntroWalking => Yielded(p, if arrived then IntroSettling else IntroWalking, None)
    case IntroSettling => Finished(p, ToPoweredOn, None)
  }

  /** The scheduler resumes the routine at index `i`: a yield parks it in place, an
      end removes it and then applies its outcome. */
  function Resume(p: Player, i: nat, disc: Discs.DiscState, arrived: bool): (r: Step)
    requires i < |p.routines|
    ensures PowerInRange(p) ==> PowerInRange(r.player)
    ensures r.player.power == p.power
    ensures r.player.state == p.state || r.player.state == PoweredOn
    ensures r.player.state != p.state ==> !r.player.inputsDisabled
    ensures r.command != None ==> p.routines[i] in {ThrowWindup, CatchReaching}
  {
    var g := Continue(p, p.routines[i], disc, arrived);
    match g
    case Yielded(q, next, c) => Step(q.(routines := q.routines[i := next]), c)
    case Finished(q, o, c) =>
      var q1 := q.(routines := Lists.RemoveAt(q.routines, i));
      match o
      case Done => Step(q1, c)
      case ToPoweredOn => Step(ChangeState(q1, PoweredOn).player, c)
      case Spawn(next) => Step(q1.(routines := q1.routines + [next]), c)
  }

  /** The start of LevelIntroRoutine: at least 30% power, then the walk. */
  function BeginIntro(p: Player): (r: Player)
    ensures r.power >= 0.3 && r.power >= p.power
    ensures p.power >= 0.3 ==> r.power == p.power
    ensures PowerInRange(p) ==> PowerInRange(r)
    ensures r.routines == p.routines + [IntroWalking]
    ensures r.(power := p.power, routines := p.routines) == p
  {
    p.(power := if p.power < 0.3 then 0.3 else p.power, routines := p.routines + [IntroWalking])
  }
}
