/** The disc, the player and a charge station wired together: the requests each
    returns are carried out on the other, in the order the source makes the calls.
    The engine's frame, fixed tick, collision, trigger and routine resumption are
    the events; which of them happens next is the caller's choice. */
module Game {

  import opened Wrappers
  import opened Scene
  import Discs
  import Players
  import ChargeStations

  datatype World = World(
    discCfg: Discs.Config,
    playerCfg: Players.Config,
    disc: Discs.Disc,
    player: Players.Player,
    station: ChargeStations.Station,
    mount: Vec3,     // the player's disc mounting point, where it currently is
    launch: Vec3)    // the player's disc launch point

  predicate ValidWorld(w: World) {
    Discs.ValidConfig(w.discCfg)
  }

  /** What the disc reads of the player. */
  function View(w: World): (v: Discs.PlayerView)
    ensures v.poweredOn <==> Players.IsPoweredOn(w.player)
    ensures v.mount == w.mount && v.launch == w.launch
  {
    Discs.PlayerView(w.mount, w.launch, Players.IsPoweredOn(w.player))
  }

  /** Take the disc's step and carry out its requests on the player: disabling its
      inputs, and starting a catch that first turns to the disc. */
  function ApplyDisc(w: World, st: Discs.Step): (r: World)
    ensures r.disc == st.disc
    ensures st.disableInputs ==> r.player.inputsDisabled
    ensures !st.disableInputs ==> r.player.inputsDisabled == w.player.inputsDisabled
    ensures st.startCatch ==> r.player == Players.TriggerCatching(w.player.(inputsDisabled := r.player.inputsDisabled), true)
    ensures !st.startCatch ==> r.player.routines == w.player.routines && r.player.catchTrigger == w.player.catchTrigger
    ensures r.player.state == w.player.state && r.player.power == w.player.power
    ensures r.(disc := w.disc, player := w.player) == w
  {
    var p1 := if st.disableInputs then w.player.(inputsDisabled := true) else w.player;
    var p2 := if st.startCatch then Players.TriggerCatching(p1, true) else p1;
    w.(disc := st.disc, player := p2)
  }

  /** Take the player's step, then carry out its command on the disc, which sees the
      player as it now is. */
  function ApplyPlayer(w: World, st: Players.Step): (r: World)
    requires ValidWorld(w)
    ensures st.command == None ==> r == w.(player := st.player)
    ensures st.command.Some? ==>
      r == ApplyDisc(w.(player := st.player), Discs.ChangeState(w.discCfg, w.disc, st.command.value, View(w.(player := st.player))))
    ensures r.player.state == st.player.state && r.player.power == st.player.power
  {
    var w1 := w.(player := st.player);
    match st.command
    case None => w1
    case Some(s) => ApplyDisc(w1, Discs.ChangeState(w.discCfg, w.disc, s, View(w1)))
  }

  // ---------------------------------------------------------------------------
  // Events

  /** The disc is initialised: a disc starting on the charge station powers the
      station exactly when it is charged, through the corrected setter. */
  function InitDisc(w: World, isCharged: bool, place: Discs.StartingPlace, at: Vec3): (r: World)
    requires ValidWorld(w)
    ensures place == Discs.ChargingStation ==> r.station.poweredOn == isCharged && r.station.trigger == isCharged
    ensures place != Discs.ChargingStation ==> r.station == w.station
    ensures r.disc.isCharged == isCharged && r.player == w.player
  {
    var (st, power) := Discs.Init(w.discCfg, isCharged, place, at, View(w));
    var station := match power case None => w.station case Some(b) => ChargeStations.SetPoweredOn(w.station, b);
    w.(disc := st.disc, station := station)
  }

  /** A rendered frame: the player's `Update`, then the disc's. */
  function Frame(w: World, input: Players.Input, paused: bool, dt: real): (r: World)
    requires ValidWorld(w) && dt >= 0.0
    ensures Players.NonNegativeSpeeds(w.playerCfg) && Players.PowerInRange(w.player) ==> Players.PowerInRange(r.player)
  {
    var w1 := ApplyPlayer(w, Players.Update(w.playerCfg, w.player, input, w.disc.state, paused, dt));
    w1.(disc := Discs.Frame(w1.discCfg, w1.disc, View(w1)))
  }

  /** A fixed physics tick of the disc. */
  function FixedTick(w: World): (r: World)
    ensures r.player == w.player
    ensures w.disc.state == Discs.Fired ==> r.disc.state == Discs.Flying && r.disc.path == [w.mount]
  {
    w.(disc := Discs.FixedTick(w.disc, View(w)))
  }

  /** The disc hits something solid. */
  function Collide(w: World): (r: World)
    requires ValidWorld(w)
    ensures r.player == w.player
  {
    ApplyDisc(w, Discs.Collide(w.discCfg, w.disc, View(w)).0)
  }

  /** The disc reaches the player's pickup trigger, which only reports it while the
      player has it enabled. */
  function EnterPickup(w: World): (r: World)
    requires ValidWorld(w)
    ensures w.player.catchTrigger && w.disc.state == Discs.Flying && Players.IsPoweredOn(w.player) ==>
      r.disc.state == Discs.Caught && !r.player.catchTrigger && r.player.routines == w.player.routines + [Players.CatchFacing]
    ensures !(w.player.catchTrigger && w.disc.state == Discs.Flying && Players.IsPoweredOn(w.player)) ==> r == w
    ensures !w.player.catchTrigger ==> r == w
  {
    ApplyDisc(w, Discs.EnterTrigger(w.discCfg, w.disc, w.player.catchTrigger, View(w)))
  }

  /** The disc enters the charge station's trigger, which only reports it when enabled. */
  function EnterStation(w: World): (r: World)
    requires ValidWorld(w)
    ensures !w.station.trigger ==> r == w
    ensures w.station.trigger && w.station.poweredOn ==> r.disc.state in {Discs.Charging, Discs.Charged}
  {
    if !w.station.trigger then w
    else match ChargeStations.DiscEnters(w.discCfg, w.station, Some(w.disc), View(w))
      case None => w
      case Some(st) => ApplyDisc(w, st)
  }

  /** The scheduler resumes player routine `i`; `arrived` is for the intro walk. */
  function ResumePlayer(w: World, i: nat, arrived: bool): (r: World)
    requires ValidWorld(w) && i < |w.player.routines|
    ensures r.player.power == w.player.power
  {
    ApplyPlayer(w, Players.Resume(w.player, i, w.disc.state, arrived))
  }

  /** The scheduler resumes disc routine `i`; `next` is where the geometry has moved
      the disc to. */
  function ResumeDisc(w: World, i: nat, next: Vec3, dt: real): (r: World)
    requires ValidWorld(w) && dt >= 0.0 && i < |w.disc.routines|
    ensures r.player.state == w.player.state && r.player.power == w.player.power
  {
    ApplyDisc(w, Discs.Resume(w.discCfg, w.disc, i, View(w), next, dt))
  }

  // ---------------------------------------------------------------------------
  // Scenarios

  /** A throw from start to flight: a powered robot holding the disc clicks, its
      throw routine turns, winds up and fires the disc, and the next physics tick
      launches it from the launch point with a path holding only the mounting
      point. */
  lemma ThrowLaunchesDisc(w: World, input: Players.Input, dt: real)
    requires ValidWorld(w) && dt >= 0.0
    requires w.player.state == Players.PoweredOn && w.player.routines == []
    requires w.disc.state == Discs.Attached
    requires Players.ValidConfig(w.playerCfg) && input.clicked && w.player.power - dt / w.playerCfg.unwindSpeed > 0.0
    ensures var w1 := Frame(w, input, false, dt);
      && w1.player.state == Players.Throwing && w1.player.routines == [Players.ThrowFacing]
      && var w2 := ResumePlayer(w1, 0, false);
      && w2.player.routines == [Players.ThrowWindup]
      && var w3 := ResumePlayer(w2, 0, false);
      && w3.disc.state == Discs.Fired && w3.player.routines == [Players.ThrowFollowThrough]
      && var w4 := FixedTick(w3);
      && w4.disc.state == Discs.Flying && w4.disc.path == [w.mount] && w4.disc.position == w.launch
      && w4.disc.bounces == 0
  {
    var w1 := Frame(w, input, false, dt);
    assert w1.player.power > 0.0;
    var w2 := ResumePlayer(w1, 0, false);
    assert w2.player.power > 0.0 && w2.player.routines == [Players.ThrowWindup];
    var w3 := ResumePlayer(w2, 0, false);
    assert w3.disc.state == Discs.Fired;
  }

  /** A flying disc caught by a powered robot with its catch trigger armed: the disc
      stops in the robot's hand, and the catch routine, started by the disc, forces
      nothing because the disc attaches, then returns the robot to `PoweredOn` with
      inputs enabled. */
  lemma CatchReturnsToPoweredOn(w: World)
    requires ValidWorld(w)
    requires w.disc.state == Discs.Flying && Players.IsPoweredOn(w.player)
    requires w.player.catchTrigger && w.player.routines == []
    ensures var w1 := EnterPickup(w);
      && w1.disc.state == Discs.Caught && w1.disc.motion == Discs.Halted
      && w1.player.routines == [Players.CatchFacing]
      && var w2 := ResumePlayer(w1, 0, false);
      && w2.player.routines == [Players.CatchReaching]
      && var w3 := ResumePlayer(w2, 0, false);
      && w3.disc.state == Discs.Attached && w3.disc.position == w.mount
      && w3.player.routines == [Players.CatchAttaching]
      && var w4 := ResumePlayer(w3, 0, false);
      && w4.player.routines == [Players.CatchHolding]
      && var w5 := ResumePlayer(w4, 0, false);
      && w5.player.state == Players.PoweredOn && !w5.player.inputsDisabled && w5.player.routines == []
  {
    var w1 := EnterPickup(w);
    var w2 := ResumePlayer(w1, 0, false);
    var w3 := ResumePlayer(w2, 0, false);
    assert w3.player.routines == [Players.CatchAttaching];
    var w4 := ResumePlayer(w3, 0, false);
    assert w4.player.routines == [Players.CatchHolding];
  }

  /** A rewind recall started by a click disables the robot's inputs in the same
      frame. */
  lemma RewindRecallLocksInputs(w: World, input: Players.Input, dt: real)
    requires ValidWorld(w) && dt >= 0.0
    requires w.discCfg.recallType == Discs.Rewind
    requires w.player.state == Players.PoweredOn && w.disc.state == Discs.Flying
    requires Players.ValidConfig(w.playerCfg) && input.clicked && w.player.power - dt / w.playerCfg.unwindSpeed > 0.0
    ensures var w1 := Frame(w, input, false, dt);
      && w1.player.state == Players.Recalling && w1.player.inputsDisabled && !w1.player.catchTrigger
      && w1.disc.state in {Discs.Recalled, Discs.Attached}
  {
  }

  /** A disc that starts uncharged on the charge station starts charging although the
      station it sits on is left unpowered, its trigger off. */
  lemma UnchargedStartChargesOnDarkStation(w: World, at: Vec3)
    requires ValidWorld(w)
    ensures var r := InitDisc(w, false, Discs.ChargingStation, at);
      && r.disc.state == Discs.Charging && r.disc.routines == [Discs.ChargingUp(0.0)]
      && !r.station.poweredOn && !r.station.trigger
  {
  }
}
