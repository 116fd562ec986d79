/** Properties of the player that span several frames or several routine resumes:
    winding up powers the robot on, idling runs it down, a click acts on the disc,
    and the throw, recall and catch sequences check the power before each step. */
module PlayerRuns {

  import opened Wrappers
  import opened Players
  import Discs
  import Lists

  /** No movement, no click; the rewind key held or not. */
  function Still(rewindHeld: bool): Input {
    Input(0.0, 0.0, rewindHeld, false)
  }

  // ---------------------------------------------------------------------------
  // Power over several frames

  /** Hold the rewind key for up to `n` unpaused frames while the robot is off. */
  function HoldRewind(cfg: Config, p: Player, disc: Discs.DiscState, dt: real, n: nat): Player
    requires dt >= 0.0
    decreases n
  {
    if n == 0 || p.state != PoweredOff then p
    else HoldRewind(cfg, Update(cfg, p, Still(true), disc, false, dt).player, disc, dt, n - 1)
  }

  /** Holding the rewind key long enough winds a powered-off robot up to full power,
      and it starts powering on. */
  lemma {:induction false} HoldingRewindPowersOn(cfg: Config, p: Player, disc: Discs.DiscState, dt: real, n: nat)
    requires ValidConfig(cfg) && dt > 0.0
    requires p.state == PoweredOff && p.power < 1.0
    requires p.power + (n as real) * dt / cfg.rewindSpeed >= 1.0
    ensures var f := HoldRewind(cfg, p, disc, dt, n);
      f.state == PoweringOn && f.power == 1.0 && |f.routines| == |p.routines| + 1 && f.routines[|p.routines|] == PoweringOnWait
    decreases n
  {
    var e := Update(cfg, p, Still(true), disc, false, dt).player;
    assert e == Rewind(cfg, p.(key := Spinners.Stop(p.key)), dt).player;
    if e.state == PoweredOff {
      assert e.power == p.power + dt / cfg.rewindSpeed;
      assert (n as real) * dt / cfg.rewindSpeed == dt / cfg.rewindSpeed + ((n - 1) as real) * dt / cfg.rewindSpeed;
      HoldingRewindPowersOn(cfg, e, disc, dt, n - 1);
    } else {
      assert HoldRewind(cfg, e, disc, dt, n - 1) == e;
    }
  }

  /** Stand still without winding for up to `n` unpaused frames while powered on. */
  function Idle(cfg: Config, p: Player, disc: Discs.DiscState, dt: real, n: nat): Player
    requires dt >= 0.0
    decreases n
  {
    if n == 0 || p.state != PoweredOn then p
    else Idle(cfg, Update(cfg, p, Still(false), disc, false, dt).player, disc, dt, n - 1)
  }

  /** A powered-on robot left idle runs down and powers off once its power is spent:
      inputs are disabled, the catch trigger is off and the key stands still. */
  lemma {:induction false} IdlingPowersOff(cfg: Config, p: Player, disc: Discs.DiscState, dt: real, n: nat)
    requires ValidConfig(cfg) && dt > 0.0
    requires p.state == PoweredOn && p.power > 0.0
    requires p.power - (n as real) * dt / cfg.unwindSpeed <= 0.0
    ensures var f := Idle(cfg, p, disc, dt, n);
      && f.state == PoweredOff && f.power == 0.0 && !IsPoweredOn(f)
      && f.inputsDisabled && !f.catchTrigger && !Spinners.Spinning(f.key)
      && f.routines == p.routines
    decreases n
  {
    var e := Update(cfg, p, Still(false), disc, false, dt).player;
    assert e == Unwind(cfg, p.(key := Spinners.Stop(p.key)), dt).player;
    if e.state == PoweredOn {
      assert e.power == p.power - dt / cfg.unwindSpeed;
      assert (n as real) * dt / cfg.unwindSpeed == dt / cfg.unwindSpeed + ((n - 1) as real) * dt / cfg.unwindSpeed;
      IdlingPowersOff(cfg, e, disc, dt, n - 1);
    } else {
      assert Idle(cfg, e, disc, dt, n - 1) == e;
    }
  }

  // ---------------------------------------------------------------------------
  // One frame

  /** Each enabled frame runs exactly one of the two power steps: with power short of
      full the power rises exactly when the frame rewinds, and with power left it
      falls exactly when the frame does not. */
  lemma UpdateWindsExactlyWhenRewinding(cfg: Config, p: Player, input: Input, disc: Discs.DiscState, dt: real)
    requires ValidConfig(cfg) && dt > 0.0 && PowerInRange(p)
    requires !DisableUpdates(p, false)
    ensures var q := Update(cfg, p, input, disc, false, dt).player;
      && (p.power < 1.0 ==> (q.power > p.power <==> RewindsThisFrame(p, input)))
      && (p.power > 0.0 ==> (q.power < p.power <==> !RewindsThisFrame(p, input)))
  {
  }

  /** What the disc reads as `IsPoweredOn` agrees with the robot's own state after
      every frame: running out of power ends `PoweredOn` in the same frame, so a robot
      left in `PoweredOn` is powered on, and one left in any other state is powered on
      exactly when it is throwing or recalling with power left (or in the unused
      `BatteryCaught` state with power left). */
  lemma PoweredOnAfterFrame(cfg: Config, p: Player, input: Input, disc: Discs.DiscState, dt: real)
    requires ValidConfig(cfg) && dt >= 0.0 && PowerInRange(p)
    requires dt > 0.0 || p.power > 0.0
    requires !DisableUpdates(p, false)
    ensures var q := Update(cfg, p, input, disc, false, dt).player;
      && (q.state == PoweredOn ==> IsPoweredOn(q))
      && (q.state != PoweredOn ==> (IsPoweredOn(q) <==> q.state in {Throwing, Recalling, BatteryCaught} && q.power > 0.0))
  {
  }

  /** A click by a robot that stays powered on through this frame's power step acts
      on the disc: a disc away from the robot is recalled, a held disc is thrown, and
      a disc in any other state is ignored. Without a click the robot never starts
      an action. */
  lemma ClickDispatch(cfg: Config, p: Player, input: Input, disc: Discs.DiscState, dt: real)
    requires ValidConfig(cfg) && dt >= 0.0
    requires p.state == PoweredOn
    ensures var r := Update(cfg, p, input, disc, false, dt);
      && (!input.clicked ==> r.player.state in {PoweredOn, PoweredOff} && r.command == None)
      && (input.clicked && p.power - dt / cfg.unwindSpeed > 0.0 ==>
            && (disc in {Discs.Dispensed, Discs.Charged, Discs.Flying} <==> r.player.state == Recalling)
            && (disc in {Discs.Dispensed, Discs.Charged, Discs.Flying} <==> r.command == Some(Discs.Recalled))
            && (disc == Discs.Attached <==> r.player.state == Throwing)
            && (disc !in {Discs.Dispensed, Discs.Charged, Discs.Flying, Discs.Attached} ==> r.player.state == PoweredOn))
      && (input.clicked && p.power - dt / cfg.unwindSpeed <= 0.0 ==> r.player.state == PoweredOff && r.command == None)
  {
  }

  /** While updates are disabled a frame changes nothing at all. */
  lemma DisabledFrameIsNoOp(cfg: Config, p: Player, input: Input, disc: Discs.DiscState, paused: bool, dt: real)
    requires dt >= 0.0
    requires p.state in {Disabled, GameCompleted, GameRewinded, LevelCompleted} || paused
    ensures Update(cfg, p, input, disc, paused, dt) == Quiet(p)
  {
  }

  // ---------------------------------------------------------------------------
  // Routines

  /** The throw fires the disc only if power is left when the launch moment comes;
      otherwise the routine ends there, leaving the robot as it was. */
  lemma ThrowFiresOnlyWithPower(p: Player, i: nat, disc: Discs.DiscState, arrived: bool)
    requires i < |p.routines| && p.routines[i] == ThrowWindup
    ensures var r := Resume(p, i, disc, arrived);
      && (r.command == Some(Discs.Fired) <==> p.power > 0.0)
      && (p.power > 0.0 ==> r.player == p.(routines := p.routines[i := ThrowFollowThrough]))
      && (p.power <= 0.0 ==> r.player == p.(routines := Lists.RemoveAt(p.routines, i)))
  {
  }

  /** The throw ends by arming the catch trigger and returning to `PoweredOn` only if
      power is still left; otherwise it just ends. */
  lemma ThrowEndsArmedOnlyWithPower(p: Player, i: nat, disc: Discs.DiscState, arrived: bool)
    requires i < |p.routines| && p.routines[i] == ThrowFollowThrough
    ensures var r := Resume(p, i, disc, arrived);
      && r.command == None
      && r.player.routines == Lists.RemoveAt(p.routines, i)
      && (p.power > 0.0 ==> r.player.catchTrigger && r.player.state == PoweredOn && !r.player.inputsDisabled)
      && (p.power <= 0.0 ==> r.player == p.(routines := Lists.RemoveAt(p.routines, i)))
  {
  }

  /** The recall keeps waiting exactly while the robot is powered and the disc is not
      yet attached; when the disc is attached to a powered robot the recall hands
      over to a catch, and an unpowered robot just stops waiting. */
  lemma RecallHandsOverToCatch(p: Player, i: nat, disc: Discs.DiscState, arrived: bool)
    requires i < |p.routines| && p.routines[i] in {RecallAnimating, RecallAwaiting}
    ensures var r := Resume(p, i, disc, arrived);
      var rest := Lists.RemoveAt(p.routines, i);
      && r.command == None
      && (IsPoweredOn(p) && disc != Discs.Attached ==> r.player == p.(routines := p.routines[i := RecallAwaiting]))
      && (IsPoweredOn(p) && disc == Discs.Attached ==> r.player == p.(catchTrigger := false, routines := rest + [CatchReaching]))
      && (!IsPoweredOn(p) ==> r.player == p.(routines := rest))
  {
  }

  /** The catch forces the disc onto the hand exactly when it is not attached yet. */
  lemma CatchForcesAttach(p: Player, i: nat, disc: Discs.DiscState, arrived: bool)
    requires i < |p.routines| && p.routines[i] == CatchReaching
    ensures var r := Resume(p, i, disc, arrived);
      && (r.command == Some(Discs.Attached) <==> disc != Discs.Attached)
      && (disc != Discs.Attached ==> r.player.routines == p.routines[i := CatchAttaching])
      && (disc == Discs.Attached && IsPoweredOn(p) ==> r.player.routines == p.routines[i := CatchHolding])
  {
  }

  /** The catch ends in `PoweredOn`, inputs enabled, only if the robot is still
      powered; otherwise it ends leaving the robot as it was. */
  lemma CatchEndsPoweredOnOnlyWithPower(p: Player, i: nat, disc: Discs.DiscState, arrived: bool)
    requires i < |p.routines| && p.routines[i] == CatchHolding
    ensures var r := Resume(p, i, disc, arrived);
      && r.player.routines == Lists.RemoveAt(p.routines, i)
      && (IsPoweredOn(p) ==> r.player.state == PoweredOn && !r.player.inputsDisabled)
      && (!IsPoweredOn(p) ==> r.player == p.(routines := Lists.RemoveAt(p.routines, i)))
  {
  }

  /** Rewinding the game drains the power and leaves the robot off, with inputs
      disabled and the catch trigger off. */
  lemma GameRewindPowersOff(p: Player)
    ensures var q := ChangeState(p, GameRewinded).player;
      && q.state == PoweredOff && q.power == 0.0 && !IsPoweredOn(q)
      && q.inputsDisabled && !q.catchTrigger && q.routines == p.routines
  {
  }
}
