/** Properties of the disc that span several calls: the recall routines run to the
    end, charging completes, and the bounce limit breaks the disc. Each run assumes
    the routine under study is the disc's only live one. */
module DiscRuns {

  import opened Scene
  import opened Discs
  import Lists

  // ---------------------------------------------------------------------------
  // Rewind recall

  /** The waypoints a parked rewind recall still has to visit, current one first. */
  function Remaining(d: Disc): seq<Vec3>
    requires |d.routines| == 1 && d.routines[0].RewindingTo?
  {
    [d.routines[0].dest] + d.path
  }

  /** A rewind recall parked as the disc's only routine. */
  predicate RewindParked(d: Disc) {
    d.state == Recalled && |d.routines| == 1 && d.routines[0].RewindingTo?
  }

  /** Resume the rewind recall, the geometry bringing the disc onto its destination
      in one frame each time, until the routine ends. Returns the final disc and, for
      every waypoint consumed, where the disc stood when it was consumed. */
  function RunRewind(cfg: Config, d: Disc, view: PlayerView): (Disc, seq<Vec3>)
    requires ValidConfig(cfg) && RewindParked(d)
    decreases |d.path|
  {
    var dest := d.routines[0].dest;
    var e := Resume(cfg, d, 0, view, dest, 0.0).disc;
    var consumed := |Remaining(d)| - (if RewindParked(e) then |Remaining(e)| else 0);
    if RewindParked(e) && |e.path| < |d.path| then
      var (f, trace) := RunRewind(cfg, e, view);
      (f, seq(consumed, _ => dest) + trace)
    else (e, seq(consumed, _ => dest))
  }

  /** What one arriving resume of a parked rewind recall does, spelled out. */
  lemma RewindArrival(cfg: Config, d: Disc, view: PlayerView)
    requires ValidConfig(cfg) && RewindParked(d)
    ensures var dest := d.routines[0].dest;
      var rest := SkipReached(dest, d.path);
      var st := Resume(cfg, d, 0, view, dest, 0.0);
      && (rest == [] ==> st.disc == ChangeState(cfg, d.(position := dest, path := [], routines := []), Attached, view).disc)
      && (rest != [] ==> st.disc == d.(position := dest, path := rest[1..], routines := [RewindingTo(rest[0])]))
  {
    var dest := d.routines[0].dest;
    var p := RewindAdvance(d.(position := dest), d.path);
    assert Continue(cfg, d, d.routines[0], view, dest, 0.0) == p;
  }

  /** The waypoints passed over on arriving at `dest` are all `dest`, and what is
      left is the tail of the list. */
  lemma ArrivalConsumesPrefix(dest: Vec3, path: seq<Vec3>)
    ensures var R := [dest] + path;
      var rest := SkipReached(dest, path);
      && R[|R| - |rest|..] == rest
      && forall k :: 0 <= k < |R| - |rest| ==> R[k] == dest
  {
    var R := [dest] + path;
    var rest := SkipReached(dest, path);
    forall k | 0 <= k < |R| - |rest| ensures R[k] == dest {
      if k > 0 { assert R[k] == path[k - 1]; }
    }
  }

  /** An arriving resume with no unreached waypoint left attaches the disc to the
      player and ends the routine. */
  lemma ArrivalAttaches(cfg: Config, d: Disc, view: PlayerView)
    requires ValidConfig(cfg) && RewindParked(d)
    requires SkipReached(d.routines[0].dest, d.path) == []
    ensures var e := Resume(cfg, d, 0, view, d.routines[0].dest, 0.0).disc;
      e.state == Attached && e.path == [] && e.routines == [] && e.position == view.mount
  {
    var dest := d.routines[0].dest;
    RewindArrival(cfg, d, view);
    AttachKeepsPath(cfg, d.(position := dest, path := [], routines := []), view);
  }

  /** Attaching to the player keeps the path and the routine list and puts the disc
      on the player's mounting point. */
  lemma AttachKeepsPath(cfg: Config, a: Disc, view: PlayerView)
    requires ValidConfig(cfg)
    ensures var e := ChangeState(cfg, a, Attached, view).disc;
      e.state == Attached && e.path == a.path && e.routines == a.routines && e.position == view.mount
  {
  }

  /** An arriving resume with unreached waypoints left heads for the first of them;
      what remains is exactly those waypoints. */
  lemma ArrivalAdvances(cfg: Config, d: Disc, view: PlayerView)
    requires ValidConfig(cfg) && RewindParked(d)
    requires SkipReached(d.routines[0].dest, d.path) != []
    ensures var e := Resume(cfg, d, 0, view, d.routines[0].dest, 0.0).disc;
      RewindParked(e) && Remaining(e) == SkipReached(d.routines[0].dest, d.path) && |e.path| < |d.path|
  {
    var dest := d.routines[0].dest;
    var rest := SkipReached(dest, d.path);
    RewindArrival(cfg, d, view);
    assert Resume(cfg, d, 0, view, dest, 0.0).disc == d.(position := dest, path := rest[1..], routines := [RewindingTo(rest[0])]);
  }

  /** One resume of a rewind recall that arrives: the disc consumes the leading
      waypoints it stands on and either heads for the next one, which is the rest of
      the list, or attaches to the player with nothing left. */
  lemma RewindResumeStep(cfg: Config, d: Disc, view: PlayerView)
    requires ValidConfig(cfg) && RewindParked(d)
    ensures var e := Resume(cfg, d, 0, view, d.routines[0].dest, 0.0).disc;
      var R := Remaining(d);
      && (RewindParked(e) || (e.state == Attached && e.path == [] && e.routines == [] && e.position == view.mount))
      && (RewindParked(e) ==> |e.path| < |d.path| && |Remaining(e)| <= |R| && Remaining(e) == R[|R| - |Remaining(e)|..])
      && (forall k :: 0 <= k < |R| - (if RewindParked(e) then |Remaining(e)| else 0) ==> R[k] == d.routines[0].dest)
  {
    var dest := d.routines[0].dest;
    ArrivalConsumesPrefix(dest, d.path);
    if SkipReached(dest, d.path) == [] {
      ArrivalAttaches(cfg, d, view);
    } else {
      ArrivalAdvances(cfg, d, view);
    }
  }

  /** A rewind recall visits its remaining waypoints in order, standing on each when
      it is consumed, and ends attached to the player with an empty path and no
      routine left. */
  lemma {:induction false} RewindVisitsRemaining(cfg: Config, d: Disc, view: PlayerView)
    requires ValidConfig(cfg) && RewindParked(d)
    ensures var (f, trace) := RunRewind(cfg, d, view);
      && trace == Remaining(d)
      && f.state == Attached && f.path == [] && f.routines == [] && f.position == view.mount
    decreases |d.path|
  {
    var dest := d.routines[0].dest;
    var e := Resume(cfg, d, 0, view, dest, 0.0).disc;
    RewindResumeStep(cfg, d, view);
    var R := Remaining(d);
    if RewindParked(e) {
      var n := |R| - |Remaining(e)|;
      RewindVisitsRemaining(cfg, e, view);
      assert RunRewind(cfg, d, view).1 == seq(n, _ => dest) + RunRewind(cfg, e, view).1;
      RepeatThenRest(R, n, dest);
    } else {
      RepeatThenRest(R, |R|, dest);
    }
  }

  /** A list whose first `n` elements are all `x` is `n` copies of `x` followed by
      the rest. */
  lemma RepeatThenRest<T>(R: seq<T>, n: nat, x: T)
    requires n <= |R| && forall k :: 0 <= k < n ==> R[k] == x
    ensures seq(n, _ => x) + R[n..] == R
  {
    assert seq(n, _ => x) == R[..n];
    assert R == R[..n] + R[n..];
  }

  /** Rewind recall from the start: player inputs are disabled; the waypoints the disc
      already stands on are passed over at once, and the rest are visited in order
      until the disc is attached at the player's mounting point. Together with
      `Waypoints` this is the recorded path backwards, ending at the mounting point. */
  lemma RewindRecall(cfg: Config, d: Disc, view: PlayerView)
    requires ValidConfig(cfg) && cfg.recallType == Rewind && d.routines == []
    ensures var st := ChangeState(cfg, d, Recalled, view);
      var W := Waypoints(d.path, view.mount);
      && st.disableInputs
      && (st.disc.state == Attached || RewindParked(st.disc))
      && (st.disc.state == Attached ==>
            st.disc.path == [] && st.disc.routines == [] && forall k :: 0 <= k < |W| ==> W[k] == d.position)
      && (RewindParked(st.disc) ==>
            var (f, trace) := RunRewind(cfg, st.disc, view);
            && |trace| <= |W| && trace == W[|W| - |trace|..]
            && (forall k :: 0 <= k < |W| - |trace| ==> W[k] == d.position)
            && f.state == Attached && f.path == [] && f.routines == [] && f.position == view.mount)
  {
    var st := ChangeState(cfg, d, Recalled, view);
    var W := Waypoints(d.path, view.mount);
    var rest := SkipReached(d.position, W);
    RewindRecallStart(cfg, d, view);
    if rest != [] {
      assert rest == [rest[0]] + rest[1..];
      assert Remaining(st.disc) == rest;
      RewindVisitsRemaining(cfg, st.disc, view);
    }
  }

  /** The first segment of a rewind recall, spelled out: inputs are disabled, the
      disc halts, and it either heads for the first waypoint it is not on or, when
      there is none, attaches at once. */
  lemma RewindRecallStart(cfg: Config, d: Disc, view: PlayerView)
    requires ValidConfig(cfg) && cfg.recallType == Rewind && d.routines == []
    ensures var st := ChangeState(cfg, d, Recalled, view);
      var rest := SkipReached(d.position, Waypoints(d.path, view.mount));
      var d0 := d.(state := Recalled, elemental := Inert, motion := Halted);
      && st.disableInputs
      && (rest == [] ==> st.disc == ChangeState(cfg, d0.(path := []), Attached, view).disc)
      && (rest != [] ==> st.disc == d0.(path := rest[1..], routines := [RewindingTo(rest[0])]))
  {
    var d0 := d.(state := Recalled, elemental := Inert);
    assert BeginRecall(cfg, d0, view) == BeginRewind(d0, view);
  }

  // ---------------------------------------------------------------------------
  // Simple rewind recall

  predicate SnapParked(d: Disc) {
    d.state == Recalled && d.routines == [RewindPausing]
  }

  /** Resume the simple rewind recall until it ends; returns the final disc and the
      position reached by each teleport. */
  function RunSnaps(cfg: Config, d: Disc, view: PlayerView): (Disc, seq<Vec3>)
    requires ValidConfig(cfg) && SnapParked(d)
    decreases |d.path|
  {
    var e := Resume(cfg, d, 0, view, d.position, 0.0).disc;
    if SnapParked(e) && |e.path| < |d.path| then
      var (f, trace) := RunSnaps(cfg, e, view);
      (f, [e.position] + trace)
    else (e, [])
  }

  /** Each resume teleports the disc to the next point of the (reversed) path; the
      last resume attaches it to the player. */
  lemma {:induction false} SnapsVisitPath(cfg: Config, d: Disc, view: PlayerView)
    requires ValidConfig(cfg) && SnapParked(d)
    ensures var (f, trace) := RunSnaps(cfg, d, view);
      && trace == d.path
      && f.state == Attached && f.path == [] && f.routines == [] && f.position == view.mount
    decreases |d.path|
  {
    var e := Resume(cfg, d, 0, view, d.position, 0.0).disc;
    if d.path != [] {
      assert e.path == d.path[1..] && e.position == d.path[0] && SnapParked(e);
      SnapsVisitPath(cfg, e, view);
    }
  }

  /** Simple rewind recall from the start: the recorded points are visited in reverse
      order, by teleport, without the mounting point being added, and the disc ends
      attached to the player. Player inputs stay enabled. */
  lemma SimpleRewindRecall(cfg: Config, d: Disc, view: PlayerView)
    requires ValidConfig(cfg) && cfg.recallType == SimpleRewind && d.routines == []
    ensures var st := ChangeState(cfg, d, Recalled, view);
      && !st.disableInputs
      && (d.path == [] ==> st.disc.state == Attached && st.disc.routines == [])
      && (d.path != [] ==>
            SnapParked(st.disc) &&
            var (f, trace) := RunSnaps(cfg, st.disc, view);
            && [st.disc.position] + trace == Lists.Reverse(d.path)
            && f.state == Attached && f.path == [] && f.position == view.mount)
  {
    var st := ChangeState(cfg, d, Recalled, view);
    var rev := Lists.Reverse(d.path);
    if d.path != [] {
      assert st.disc.position == rev[0] && st.disc.path == rev[1..];
      SnapsVisitPath(cfg, st.disc, view);
      assert rev == [rev[0]] + rev[1..];
    }
  }

  // ---------------------------------------------------------------------------
  // Simple and immediate recall

  /** Simple recall: while the player stays powered the disc keeps approaching; once
      on the mounting point it attaches. If the player loses power the disc is
      launched again and flies. */
  lemma SimpleRecall(cfg: Config, d: Disc, view: PlayerView, later: PlayerView)
    requires ValidConfig(cfg) && cfg.recallType == Simple && d.routines == []
    requires view.poweredOn && d.position != view.mount
    ensures var st := ChangeState(cfg, d, Recalled, view);
      && st.disc.state == Recalled && st.disc.routines == [SimpleReturning]
      && st.disc.motion == Halted && !st.disableInputs
      && var e := Resume(cfg, st.disc, 0, later, later.mount, 0.0).disc;
      && (later.poweredOn ==> e.state == Attached && e.position == later.mount && e.routines == [])
      && (!later.poweredOn ==> e.state == Flying && e.motion == Launched && e.routines == [])
  {
  }

  /** Immediate recall attaches the disc at once, with no routine. */
  lemma ImmediateRecall(cfg: Config, d: Disc, view: PlayerView)
    requires ValidConfig(cfg) && cfg.recallType == Immediate
    ensures var st := ChangeState(cfg, d, Recalled, view);
      st.disc.state == Attached && st.disc.routines == d.routines && st.disc.position == view.mount
  {
  }

  // ---------------------------------------------------------------------------
  // Charging

  predicate ChargeParked(d: Disc) {
    d.state == Charging && |d.routines| == 1 && d.routines[0].ChargingUp?
  }

  /** One resume of the charging routine with a positive frame time: the charge grows
      by exactly `dt / chargingTime` and stays below one, or the disc becomes charged. */
  lemma ChargeStep(cfg: Config, d: Disc, view: PlayerView, dt: real)
    requires ValidConfig(cfg) && ChargeParked(d) && dt > 0.0
    ensures var c := d.routines[0].charge;
      var e := Resume(cfg, d, 0, view, d.position, dt).disc;
      && (ChargeParked(e) ==> e.routines[0].charge == c + dt / cfg.chargingTime && e.routines[0].charge < 1.0)
      && (ChargeParked(e) <==> c + dt / cfg.chargingTime < 1.0)
      && (!ChargeParked(e) ==> e.state == Charged && e.isCharged && e.routines == [])
  {
  }

  /** `n` resumes of the charging routine with the same frame time. */
  function ChargeFor(cfg: Config, d: Disc, view: PlayerView, dt: real, n: nat): Disc
    requires ValidConfig(cfg) && dt >= 0.0
    decreases n
  {
    if n == 0 || !ChargeParked(d) then d
    else ChargeFor(cfg, Resume(cfg, d, 0, view, d.position, dt).disc, view, dt, n - 1)
  }

  /** Charging ends: once the frames add up to the rest of the charging time the disc
      is `Charged` and `isCharged`, with the routine gone. */
  lemma {:induction false} ChargingCompletes(cfg: Config, d: Disc, view: PlayerView, dt: real, n: nat)
    requires ValidConfig(cfg) && ChargeParked(d) && dt > 0.0
    requires d.routines[0].charge < 1.0
    requires d.routines[0].charge + (n as real) * dt / cfg.chargingTime >= 1.0
    ensures var f := ChargeFor(cfg, d, view, dt, n);
      f.state == Charged && f.isCharged && f.routines == []
    decreases n
  {
    var c := d.routines[0].charge;
    var e := Resume(cfg, d, 0, view, d.position, dt).disc;
    ChargeStep(cfg, d, view, dt);
    if ChargeParked(e) {
      assert (n as real) * dt / cfg.chargingTime == dt / cfg.chargingTime + ((n - 1) as real) * dt / cfg.chargingTime;
      ChargingCompletes(cfg, e, view, dt, n - 1);
    } else {
      assert ChargeFor(cfg, e, view, dt, n - 1) == e;
    }
  }

  /** Entering `Charging` with an uncharged disc parks the charging routine at zero;
      a charged disc goes straight to `Charged`. */
  lemma ChargingStart(cfg: Config, d: Disc, view: PlayerView)
    requires ValidConfig(cfg) && d.routines == []
    ensures var st := ChangeState(cfg, d, Charging, view);
      && (d.isCharged ==> st.disc.state == Charged && st.disc.isCharged && st.disc.routines == [])
      && (!d.isCharged ==> ChargeParked(st.disc) && st.disc.routines[0].charge == 0.0)
  {
  }

  // ---------------------------------------------------------------------------
  // Bounces and breaking

  /** `n` collisions with no movement in between. */
  function CollideN(cfg: Config, d: Disc, view: PlayerView, n: nat): Disc
    requires ValidConfig(cfg)
    decreases n
  {
    if n == 0 then d else CollideN(cfg, Collide(cfg, d, view).0.disc, view, n - 1)
  }

  /** While the count stays within the limit, every collision keeps the disc flying,
      adds one to the count and records the disc's position once more. */
  lemma {:induction false} BouncesWithinLimit(cfg: Config, d: Disc, view: PlayerView, n: nat)
    requires ValidConfig(cfg) && cfg.bounceClips > 0 && d.state == Flying
    requires d.bounces + n <= cfg.totalBounces
    ensures var f := CollideN(cfg, d, view, n);
      && f.state == Flying && f.bounces == d.bounces + n
      && f.path == d.path + seq(n, _ => d.position)
      && f.routines == d.routines
    decreases n
  {
    if n > 0 {
      var e := Collide(cfg, d, view).0.disc;
      BouncesWithinLimit(cfg, e, view, n - 1);
      assert e.position == d.position;
      assert d.path + seq(n, _ => d.position) == (d.path + [d.position]) + seq(n - 1, _ => d.position);
    }
  }

  /** The collision after the limit breaks the disc: with a limit of five, a freshly
      launched disc survives five collisions and breaks on the sixth. The break routine
      then leaves it at the dispenser, charged exactly when the level says so. */
  lemma LimitPlusOneBreaks(cfg: Config, d: Disc, view: PlayerView)
    requires ValidConfig(cfg) && cfg.bounceClips > 0 && cfg.totalBounces >= 0
    requires d.state == Flying && d.bounces == 0 && d.routines == []
    ensures var f := CollideN(cfg, d, view, cfg.totalBounces);
      var b := Collide(cfg, f, view).0.disc;
      && f.state == Flying
      && b.state == Breaking && b.routines == [BreakFading] && b.bounces == cfg.totalBounces + 1
      && var g := Resume(cfg, b, 0, view, b.position, 0.0).disc;
      && g.state == Dispensed && g.isCharged == cfg.chargedOnBreak
      && g.position == cfg.dispenserMount && g.routines == []
  {
    BouncesWithinLimit(cfg, d, view, cfg.totalBounces);
  }
}
