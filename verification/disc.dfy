/** Disc.cs: the throwable disc. `ChangeState` is the single entry point of every
    transition; physics ticks, collisions and trigger volumes feed it; three recall
    strategies, charging and breaking run as routines that are resumed one frame
    (or one wait) at a time.

    Calls the disc makes into the player (`DisableInputs`, `TriggerCatchingRoutine`)
    are returned as requests in a `Step`; what the disc reads of the player is passed
    in as a `PlayerView`. */
module Discs {

  import opened Wrappers
  import opened Scene
  import Lists

  datatype DiscState =
    | Dispensed   // at the dispenser
    | Attached    // with the player
    | Caught      // entered the player's pickup trigger
    | Fired       // thrown; launched on the next fixed tick
    | Flying
    | Recalled    // returning to the player
    | Breaking    // ran out of bounces
    | Connected   // on the power station
    | Charging    // on the charge station
    | Charged

  /** The states in which the disc sits on a mounting point and follows it. */
  predicate Docked(s: DiscState) {
    s == Attached || s == Connected || s == Dispensed || s == Charging || s == Charged
  }

  /** The states whose entry starts a routine. */
  predicate StartsRoutine(s: DiscState) {
    s == Breaking || s == Charging || s == Recalled
  }

  datatype RecallType = Simple | Rewind | SimpleRewind | Immediate

  /** `DiscElementalState`; its `None` is called `Inert` here. */
  datatype ElementalState = Inert | Fire

  datatype StartingPlace = Dispenser | ChargingStation | PowerStation

  /** The transform the disc follows (`targetAttachedTo`); `Unmounted` is null. */
  datatype Mount = Unmounted | DispenserMount | PlayerMount | ChargeMount | PowerMount

  /** `Halted`: collisions off and zero velocity (`StopDisc`); `Launched`: collisions
      on and moving under physics. */
  datatype Motion = Halted | Launched

  /** A routine parked at one of its yield points. */
  datatype Routine =
    | BreakFading             // BreakRoutine, waiting for the end of the frame
    | ChargingUp(charge: real) // ChargingRoutine with its `currentCharge`
    | SimpleReturning         // SimpleReturnRoutine, inside its approach loop
    | RewindingTo(dest: Vec3)  // RewindRecallRoutine, heading for `dest`
    | RewindPausing           // SimpleRewindRecallRoutine, waiting after a teleport

  /** Designer settings of the disc and of the level it is in. */
  datatype Config = Config(
    recallType: RecallType,
    totalBounces: int,
    bounceClips: nat,          // length of `bounceClipInfos`
    chargingTime: real,        // seconds to charge fully
    chargedOnBreak: bool,      // LevelController.BatteryChargedOnBreak
    dispenserMount: Vec3,
    chargeMount: Vec3,
    powerMount: Vec3)

  /** The inspector keeps the charging time in [1, 3]; the model needs it positive. */
  predicate ValidConfig(cfg: Config) {
    cfg.chargingTime > 0.0
  }

  /** What the disc reads of the player: the disc mounting point, the launch point
      and `Player.IsPoweredOn`. */
  datatype PlayerView = PlayerView(mount: Vec3, launch: Vec3, poweredOn: bool)

  datatype Disc = Disc(
    state: DiscState,
    elemental: ElementalState,
    isCharged: bool,
    bounces: nat,
    path: seq<Vec3>,           // `collisionPoints`
    position: Vec3,
    target: Mount,
    motion: Motion,
    wind: Option<nat>,         // the wind volume the disc is inside, by identity
    routines: seq<Routine>)    // live coroutines, oldest first

  /** The disc after a call, with the requests it made of the player. */
  datatype Step = Step(disc: Disc, disableInputs: bool, startCatch: bool)

  function Quiet(d: Disc): Step {
    Step(d, false, false)
  }

  /** What resuming a routine leads to: it parks at its next yield, or it ends by
      calling `ChangeState(final)`. */
  datatype Progress = Yielded(disc: Disc, next: Routine) | Finished(disc: Disc, final: DiscState)

  /** Position of a mounting point; the player's moves with the player. */
  function MountPosition(cfg: Config, view: PlayerView, m: Mount): Vec3
    requires m != Unmounted
  {
    match m
    case DispenserMount => cfg.dispenserMount
    case PlayerMount => view.mount
    case ChargeMount => cfg.chargeMount
    case PowerMount => cfg.powerMount
  }

  /** `AttachToTarget`: stop, follow `m` and snap onto it. */
  function AttachTo(cfg: Config, d: Disc, m: Mount, view: PlayerView): (r: Disc)
    requires m != Unmounted
    ensures r.motion == Halted && r.target == m && r.position == MountPosition(cfg, view, m)
    ensures r.(motion := d.motion, target := d.target, position := d.position) == d
  {
    d.(motion := Halted, target := m, position := MountPosition(cfg, view, m))
  }

  // ---------------------------------------------------------------------------
  // State transitions

  function Rank(s: DiscState): nat {
    if StartsRoutine(s) then 1 else 0
  }

  /** `ChangeState`: sets the state, clears the elemental state, then applies the
      entry effect of the new state. Entering `Recalled` or `Charging` may end in
      a further transition before the call returns, when the started routine
      finishes without yielding. */
  function ChangeState(cfg: Config, d: Disc, s: DiscState, view: PlayerView): (r: Step)
    requires ValidConfig(cfg)
    decreases Rank(s), 1
    ensures r.disc.elemental == Inert
    ensures !StartsRoutine(s) ==> r.disc.state == s
    ensures s == Charging ==> r.disc.state == (if d.isCharged then Charged else Charging)
    ensures s == Charging ==> r.disc.routines == d.routines + (if d.isCharged then [] else [ChargingUp(0.0)])
    ensures s == Breaking ==> r.disc.state == Breaking && r.disc.routines == d.routines + [BreakFading]
    ensures s == Recalled ==> r.disc.state in {Recalled, Attached, Flying}
    ensures s == Recalled && cfg.recallType == Immediate ==> r.disc.state == Attached
    ensures s == Attached ==> r.disc.target == PlayerMount && r.disc.position == view.mount
    ensures s == Dispensed ==> r.disc.target == DispenserMount && r.disc.position == cfg.dispenserMount
    ensures s == Connected ==> r.disc.target == PowerMount && r.disc.position == cfg.powerMount
    ensures s == Charging ==> r.disc.target == ChargeMount && r.disc.position == cfg.chargeMount
    ensures s in {Attached, Dispensed, Connected, Caught, Charging} ==> r.disc.motion == Halted
    ensures r.startCatch <==> s == Caught
    ensures r.disableInputs <==> s == Recalled && cfg.recallType == Rewind
    ensures r.disc.bounces == d.bounces && r.disc.wind == d.wind
    ensures s != Recalled ==> r.disc.path == d.path
    ensures r.disc.isCharged == (if s == Breaking then cfg.chargedOnBreak else d.isCharged)
    ensures s in {Fired, Flying, Charged, Breaking} ==>
      r.disc.target == d.target && r.disc.position == d.position && r.disc.motion == d.motion
    ensures !StartsRoutine(s) ==> r.disc.routines == d.routines
    ensures StartsRoutine(s) ==> r.disc.routines == d.routines || (|r.disc.routines| == |d.routines| + 1 && r.disc.routines[..|d.routines|] == d.routines)
  {
    var d0 := d.(state := s, elemental := Inert);
    match s
    case Attached => Quiet(AttachTo(cfg, d0, PlayerMount, view))
    case Dispensed => Quiet(AttachTo(cfg, d0, DispenserMount, view))
    case Connected => Quiet(AttachTo(cfg, d0, PowerMount, view))
    case Caught => Step(d0.(motion := Halted), false, true)
    case Fired => Quiet(d0)
    case Flying => Quiet(d0)
    case Charged => Quiet(d0)
    case Breaking => Start(cfg, BeginBreak(cfg, d0), view)
    case Charging => Start(cfg, BeginCharging(cfg, d0, view), view)
    case Recalled =>
      var st := Start(cfg, BeginRecall(cfg, d0, view), view);
      st.(disableInputs := cfg.recallType == Rewind)
  }

  /** `StartCoroutine`: run the routine to its first yield and register it there, or,
      when it ends without yielding, make its final transition. */
  function Start(cfg: Config, p: Progress, view: PlayerView): (r: Step)
    requires ValidConfig(cfg)
    requires p.Finished? ==> !StartsRoutine(p.final)
    decreases 1, 0
    ensures p.Yielded? ==> r == Quiet(p.disc.(routines := p.disc.routines + [p.next]))
    ensures p.Finished? ==> r.disc.state == p.final && r.disc.routines == p.disc.routines
    ensures !r.startCatch || (p.Finished? && p.final == Caught)
    ensures !r.disableInputs
  {
    match p
    case Yielded(d, next) => Quiet(d.(routines := d.routines + [next]))
    case Finished(d, final) => ChangeState(cfg, d, final, view)
  }

  // ---------------------------------------------------------------------------
  // Routines: first segment (Begin...) and resumption (Continue)

  /** `BreakRoutine` up to its yield: the disc becomes charged or not according to
      the level, then waits one frame. */
  function BeginBreak(cfg: Config, d: Disc): (p: Progress)
    ensures p.Yielded? && p.next == BreakFading
    ensures p.disc.isCharged == cfg.chargedOnBreak && p.disc.(isCharged := d.isCharged) == d
  {
    Yielded(d.(isCharged := cfg.chargedOnBreak), BreakFading)
  }

  /** `ChargingRoutine` up to its first yield: attach to the charge station and start
      from full charge when already charged, from zero otherwise. A charged disc does
      not wait: it becomes `Charged` at once. */
  function BeginCharging(cfg: Config, d: Disc, view: PlayerView): (p: Progress)
    ensures p.disc.target == ChargeMount && p.disc.motion == Halted
    ensures p.disc.position == cfg.chargeMount
    ensures d.isCharged ==> p.Finished? && p.final == Charged && p.disc.isCharged
    ensures !d.isCharged ==> p.Yielded? && p.next == ChargingUp(0.0) && !p.disc.isCharged
    ensures p.disc.state == d.state && p.disc.path == d.path && p.disc.routines == d.routines
    ensures p.disc.bounces == d.bounces && p.disc.wind == d.wind && p.disc.elemental == d.elemental
  {
    var d1 := AttachTo(cfg, d, ChargeMount, view);
    var charge := if d.isCharged then 1.0 else 0.0;
    ChargeLoop(cfg, d1, charge)
  }

  /** Head of the charging loop: keep waiting while the charge is below one;
      otherwise clamp it, mark the disc charged and move to `Charged`. */
  function ChargeLoop(cfg: Config, d: Disc, charge: real): (p: Progress)
    ensures p.Yielded? <==> charge < 1.0
    ensures p.Yielded? ==> p.disc == d && p.next == ChargingUp(charge)
    ensures p.Finished? ==> p.final == Charged && p.disc.isCharged && p.disc.(isCharged := d.isCharged) == d
  {
    if charge < 1.0 then Yielded(d, ChargingUp(charge)) else Finished(d.(isCharged := true), Charged)
  }

  /** The recall dispatch of `TriggerRecallRoutine`; an exhaustive match leaves no
      recall type without a routine. */
  function BeginRecall(cfg: Config, d: Disc, view: PlayerView): (p: Progress)
    ensures p.Finished? ==> p.final in {Attached, Flying}
    ensures cfg.recallType == Immediate ==> p == Finished(d, Attached)
    ensures p.disc.state == d.state && p.disc.routines == d.routines
    ensures p.disc.bounces == d.bounces && p.disc.wind == d.wind
    ensures p.disc.isCharged == d.isCharged && p.disc.elemental == d.elemental
  {
    match cfg.recallType
    case Simple => SimpleLoop(d.(motion := Halted), view)
    case Rewind => BeginRewind(d, view)
    case SimpleRewind => RewindSnap(d.(motion := Halted, path := Lists.Reverse(d.path)))
    case Immediate => Finished(d, Attached)
  }

  /** Head of the approach loop of `SimpleReturnRoutine`. The disc waits while it is
      away from the mounting point and the player is powered. Once it stops waiting it
      attaches when the player is powered, and otherwise is launched again. */
  function SimpleLoop(d: Disc, view: PlayerView): (p: Progress)
    ensures p.Yielded? <==> d.position != view.mount && view.poweredOn
    ensures p.Yielded? ==> p == Yielded(d, SimpleReturning)
    ensures p.Finished? && view.poweredOn ==> p == Finished(d, Attached)
    ensures p.Finished? && !view.poweredOn ==> p == Finished(d.(motion := Launched), Flying)
  {
    if d.position == view.mount || !view.poweredOn then
      if !view.poweredOn then Finished(d.(motion := Launched), Flying) else Finished(d, Attached)
    else
      Yielded(d, SimpleReturning)
  }

  /** `FirstOrDefault` on a list of vectors. */
  function FirstOrDefault(s: seq<Vec3>): Vec3 {
    if s == [] then Zero else s[0]
  }

  /** The waypoints of a rewind recall: the player's current mounting point is put in
      front of the recorded path unless it already heads it, and the list is reversed.
      So the path is replayed backwards and the mounting point comes last, except for
      an empty path while the mounting point is at the origin. */
  function Waypoints(path: seq<Vec3>, mount: Vec3): (w: seq<Vec3>)
    ensures |w| == if FirstOrDefault(path) != mount then |path| + 1 else |path|
    ensures forall k :: 0 <= k < |path| ==> w[k] == path[|path| - 1 - k]
    ensures w != [] ==> w[|w| - 1] == mount
    ensures w == [] <==> path == [] && mount == Zero
  {
    var full := if FirstOrDefault(path) != mount then [mount] + path else path;
    Lists.Reverse(full)
  }

  /** The waypoints left once those the disc already stands on are passed over. */
  function SkipReached(pos: Vec3, wps: seq<Vec3>): (rest: seq<Vec3>)
    ensures |rest| <= |wps| && rest == wps[|wps| - |rest|..]
    ensures forall k :: 0 <= k < |wps| - |rest| ==> wps[k] == pos
    ensures rest != [] ==> rest[0] != pos
  {
    if wps == [] || wps[0] != pos then wps else SkipReached(pos, wps[1..])
  }

  /** The outer loop of `RewindRecallRoutine`: take the next waypoint the disc is not
      already on and head for it, or attach once none is left. The rest of the list
      stays in `path`. */
  function RewindAdvance(d: Disc, wps: seq<Vec3>): (p: Progress)
    ensures p.Finished? ==> p == Finished(d.(path := []), Attached) && SkipReached(d.position, wps) == []
    ensures p.Yielded? ==> (p.next.RewindingTo? && p.disc == d.(path := p.disc.path)
      && [p.next.dest] + p.disc.path == SkipReached(d.position, wps))
  {
    var rest := SkipReached(d.position, wps);
    if rest == [] then Finished(d.(path := []), Attached)
    else
      assert rest == [rest[0]] + rest[1..];
      Yielded(d.(path := rest[1..]), RewindingTo(rest[0]))
  }

  /** `RewindRecallRoutine` up to its first yield. */
  function BeginRewind(d: Disc, view: PlayerView): (p: Progress)
    ensures p.Finished? ==> p.final == Attached && p.disc.path == []
    ensures p.Yielded? ==> (p.next.RewindingTo?
      && [p.next.dest] + p.disc.path == SkipReached(d.position, Waypoints(d.path, view.mount)))
    ensures p.disc.motion == Halted && p.disc.position == d.position
  {
    RewindAdvance(d.(motion := Halted), Waypoints(d.path, view.mount))
  }

  /** Head of the loop of `SimpleRewindRecallRoutine` (the path is already reversed):
      teleport to the next point and wait, or attach once none is left. */
  function RewindSnap(d: Disc): (p: Progress)
    ensures p.Finished? <==> d.path == []
    ensures p.Finished? ==> p.final == Attached && p.disc == d
    ensures p.Yielded? ==>
      && p.next == RewindPausing
      && [p.disc.position] + p.disc.path == d.path
      && p.disc.(position := d.position, path := d.path) == d
  {
    if d.path == [] then Finished(d, Attached)
    else Yielded(d.(position := d.path[0], path := d.path[1..]), RewindPausing)
  }

  /** Resume a parked routine. `next` is where the geometry has moved the disc this
      frame (`MoveTowards`); arriving means reaching the destination. `dt` is the
      frame time. The routine list itself is left to the caller. */
  function Continue(cfg: Config, d: Disc, r: Routine, view: PlayerView, next: Vec3, dt: real): (p: Progress)
    requires ValidConfig(cfg) && dt >= 0.0
    ensures p.disc.routines == d.routines && p.disc.state == d.state
    ensures p.disc.bounces == d.bounces && p.disc.wind == d.wind && p.disc.elemental == d.elemental
    ensures p.Finished? ==> p.final in {Dispensed, Charged, Attached, Flying}
  {
    match r
    case BreakFading => Finished(d, Dispensed)
    case ChargingUp(charge) => ChargeLoop(cfg, d, charge + dt / cfg.chargingTime)
    case SimpleReturning => SimpleLoop(d.(position := next), view)
    case RewindingTo(dest) =>
      if next == dest then RewindAdvance(d.(position := next), d.path)
      else Yielded(d.(position := next), RewindingTo(dest))
    case RewindPausing => RewindSnap(d)
  }

  /** The scheduler resumes the `i`-th live routine: it stays parked in its place or
      ends, is dropped from the list and makes its final transition. */
  function Resume(cfg: Config, d: Disc, i: nat, view: PlayerView, next: Vec3, dt: real): (r: Step)
    requires ValidConfig(cfg) && dt >= 0.0
    requires i < |d.routines|
    ensures !r.startCatch && !r.disableInputs
    ensures r.disc.bounces == d.bounces && r.disc.wind == d.wind
    ensures |r.disc.routines| == |d.routines| || r.disc.routines == Lists.RemoveAt(d.routines, i)
  {
    match Continue(cfg, d, d.routines[i], view, next, dt)
    case Yielded(d1, r) => Quiet(d1.(routines := d.routines[i := r]))
    case Finished(d1, final) => ChangeState(cfg, d1.(routines := Lists.RemoveAt(d.routines, i)), final, view)
  }

  // ---------------------------------------------------------------------------
  // Engine callbacks

  /** `Init`: a fresh disc (empty path, designer's charge flag) goes to its starting
      place. Starting on the charge station also powers that station exactly when the
      disc is charged; the returned option is that request. */
  function Init(cfg: Config, isCharged: bool, place: StartingPlace, at: Vec3, view: PlayerView): (r: (Step, Option<bool>))
    requires ValidConfig(cfg)
    ensures r.0.disc.path == [] && r.0.disc.bounces == 0 && r.0.disc.elemental == Inert
    ensures r.0.disc.isCharged == isCharged && !r.0.startCatch && !r.0.disableInputs
    ensures place == Dispenser ==> r.0.disc.state == Dispensed && r.1 == None
    ensures place == PowerStation ==> r.0.disc.state == Connected && r.1 == None
    ensures place == ChargingStation ==> (r.1 == Some(isCharged)
      && r.0.disc.state == (if isCharged then Charged else Charging)
      && r.0.disc.routines == (if isCharged then [] else [ChargingUp(0.0)]))
  {
    var d := Disc(Dispensed, Inert, isCharged, 0, [], at, Unmounted, Halted, None, []);
    match place
    case Dispenser => (ChangeState(cfg, d, Dispensed, view), None)
    case ChargingStation => (ChangeState(cfg, d, Charging, view), Some(isCharged))
    case PowerStation => (ChangeState(cfg, d, Connected, view), None)
  }

  /** `Update`: in every docked state the bounce count is reset and the disc snaps to
      what it is attached to; in the other states nothing happens. */
  function Frame(cfg: Config, d: Disc, view: PlayerView): (r: Disc)
    ensures Docked(d.state) ==> r.bounces == 0
    ensures Docked(d.state) && d.target != Unmounted ==> r.position == MountPosition(cfg, view, d.target)
    ensures r.(bounces := d.bounces, position := d.position) == d
    ensures !Docked(d.state) ==> r == d
  {
    if Docked(d.state) then
      d.(bounces := 0, position := if d.target != Unmounted then MountPosition(cfg, view, d.target) else d.position)
    else d
  }

  /** `FixedUpdate`: a fired disc is launched from the player's launch point; its path
      restarts with the player's mounting point alone. The state is assigned directly,
      so the elemental state survives. Flight steering is geometry and not modelled. */
  function FixedTick(d: Disc, view: PlayerView): (r: Disc)
    ensures d.state == Fired ==> r.state == Flying && r.path == [view.mount] && r.bounces == 0
    ensures d.state == Fired ==> r.motion == Launched && r.position == view.launch
    ensures r.(state := d.state, path := d.path, bounces := d.bounces, motion := d.motion, position := d.position) == d
    ensures d.state != Fired ==> r == d
  {
    if d.state == Fired then
      d.(path := [view.mount], bounces := 0, position := view.launch, motion := Launched, state := Flying)
    else d
  }

  /** Which clip a collision plays; `Fault` is the out-of-range exception raised
      when there are no bounce clips. */
  datatype Sound = Silent | BounceClip(index: nat) | BreakClip | Fault

  /** The index `OnCollisionEnter` reads from the bounce clips: the bounce count when
      in range, otherwise the first clip (not the last). */
  function ClipIndex(bounces: nat, clips: nat): (k: nat)
    requires clips > 0
    ensures k < clips
    ensures k == bounces || (bounces >= clips && k == 0)
  {
    if bounces < clips then bounces else 0
  }

  /** `OnCollisionEnter`: only a flying disc reacts. It records where it is and counts
      the bounce; while the count before the bounce is below the limit it keeps
      flying, otherwise it breaks. */
  function Collide(cfg: Config, d: Disc, view: PlayerView): (r: (Step, Sound))
    requires ValidConfig(cfg)
    ensures d.state != Flying ==> r == (Quiet(d), Silent)
    ensures d.state == Flying ==> r.0.disc.path == d.path + [d.position]
    ensures d.state == Flying && cfg.bounceClips > 0 ==>
      && r.0.disc.bounces == d.bounces + 1
      && (r.0.disc.state == Flying <==> d.bounces < cfg.totalBounces)
      && (r.0.disc.state == Breaking <==> d.bounces >= cfg.totalBounces)
      && (r.1 == BreakClip <==> d.bounces >= cfg.totalBounces)
      && (d.bounces < cfg.totalBounces ==> r.1 == BounceClip(ClipIndex(d.bounces, cfg.bounceClips)))
    ensures d.state == Flying && cfg.bounceClips == 0 ==> r == (Quiet(d.(path := d.path + [d.position])), Fault)
    ensures !r.0.startCatch && !r.0.disableInputs
  {
    if d.state != Flying then (Quiet(d), Silent)
    else
      var d1 := d.(path := d.path + [d.position]);
      if cfg.bounceClips == 0 then (Quiet(d1), Fault)
      else
        var clip := ClipIndex(d.bounces, cfg.bounceClips);
        var d2 := d1.(bounces := d.bounces + 1);
        if d.bounces < cfg.totalBounces then (Quiet(d2), BounceClip(clip))
        else (ChangeState(cfg, d2, Breaking, view), BreakClip)
  }

  /** `OnTriggerEnter`: a flying disc entering the player's pickup trigger while the
      player is powered is stopped and caught; nothing else happens otherwise. */
  function EnterTrigger(cfg: Config, d: Disc, pickup: bool, view: PlayerView): (r: Step)
    requires ValidConfig(cfg)
    ensures (d.state == Flying && pickup && view.poweredOn) ==>
      r.disc.state == Caught && r.disc.motion == Halted && r.startCatch
    ensures !(d.state == Flying && pickup && view.poweredOn) ==> r == Quiet(d)
  {
    if d.state != Flying then Quiet(d)
    else if pickup && view.poweredOn then ChangeState(cfg, d.(motion := Halted), Caught, view)
    else Quiet(d)
  }
}
