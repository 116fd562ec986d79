/** ChargeStation.cs: a pad that charges the disc while powered. Powering it
    enables its disc trigger and sets its rotor spinning; a disc entering the
    trigger of a powered station starts charging. It is one of the two kinds of
    switch target. */
module ChargeStations {

  import opened Wrappers
  import opened Scene
  import opened Spinners
  import Discs

  /** `spinDirection` is the designer's rotor axis; `trigger` is whether the disc
      trigger is enabled. */
  datatype Station = Station(poweredOn: bool, trigger: bool, spinner: Spinner, spinDirection: Vec3)

  /** The `IsPoweredOn` setter as the source writes it: the trigger follows the
      value and the rotor is told `Spin(value)`, which resumes whatever axis the
      rotor last remembered, or stops it. */
  function SetPoweredOnAsWritten(st: Station, b: bool): (r: Station)
    ensures r.poweredOn == b && r.trigger == b
    ensures !b ==> !Spinning(r.spinner) && r.spinner.previous == st.spinner.axis
    ensures b ==> r.spinner.axis == st.spinner.previous
    ensures r.spinDirection == st.spinDirection
  {
    st.(poweredOn := b, trigger := b, spinner := SpinIf(st.spinner, b))
  }

  /** `Start` as written: the rotor is pointed along the designer's axis, then the
      setter is applied with the initial value. */
  function StartAsWritten(spinner: Spinner, spinDirection: Vec3, poweredOn: bool): (r: Station)
    ensures r.poweredOn == poweredOn && r.trigger == poweredOn
    ensures !poweredOn ==> !Spinning(r.spinner) && r.spinner.previous == spinDirection
    ensures poweredOn ==> r.spinner.axis == spinner.previous
  {
    SetPoweredOnAsWritten(Station(poweredOn, poweredOn, SetAxis(spinner, spinDirection), spinDirection), poweredOn)
  }

  /** A station set to off twice in a row (its own `Start`, then the initial fan-out
      of a switch that starts off) forgets its rotor axis: switched on later it is
      powered and charges, but its rotor stands still. */
  lemma OffTwiceThenOnStandsStill(spinner: Spinner, dir: Vec3)
    requires dir != Zero
    ensures var st := SetPoweredOnAsWritten(SetPoweredOnAsWritten(StartAsWritten(spinner, dir, false), false), true);
      st.poweredOn && st.trigger && !Spinning(st.spinner)
  {
  }

  /** A station that starts powered resumes the axis its rotor held when it woke up,
      not the designer's axis: with a rotor that woke up still, it never spins. */
  lemma PoweredStartResumesWakeAxis(dir: Vec3)
    requires dir != Zero
    ensures var st := StartAsWritten(Awake(Zero), dir, true);
      st.poweredOn && !Spinning(st.spinner)
  {
  }

  // ---------------------------------------------------------------------------
  // The setter as evidently intended: the rotor spins along the designer's axis
  // exactly while the station is powered.

  /** The rotor turns exactly when powered, along the designer's axis. */
  predicate RotorMatches(st: Station) {
    st.spinner.axis == (if st.poweredOn then st.spinDirection else Zero)
  }

  /** The `IsPoweredOn` setter, corrected: the trigger follows the value and the
      rotor is pointed along the designer's axis or stopped. */
  function SetPoweredOn(st: Station, b: bool): (r: Station)
    ensures r.poweredOn == b && r.trigger == b
    ensures RotorMatches(r)
    ensures st.spinDirection != Zero ==> (Spinning(r.spinner) <==> b)
    ensures r.spinDirection == st.spinDirection
  {
    st.(poweredOn := b, trigger := b, spinner := SetAxis(st.spinner, if b then st.spinDirection else Zero))
  }

  /** `Start`, corrected. */
  function Start(spinner: Spinner, spinDirection: Vec3, poweredOn: bool): (r: Station)
    ensures r.poweredOn == poweredOn && r.trigger == poweredOn && RotorMatches(r)
    ensures spinDirection != Zero ==> (Spinning(r.spinner) <==> poweredOn)
  {
    SetPoweredOn(Station(poweredOn, poweredOn, SetAxis(spinner, spinDirection), spinDirection), poweredOn)
  }

  /** `SetState`: the switch-target entry point, through the corrected setter. It
      agrees with the setter as written on power, trigger and a stopped rotor; switched
      on, the two rotors agree exactly when the remembered axis is the designer's. */
  function SetState(st: Station, isOn: bool): (r: Station)
    ensures var w := SetPoweredOnAsWritten(st, isOn);
      && r.poweredOn == w.poweredOn == isOn && r.trigger == w.trigger == isOn
      && r.spinDirection == w.spinDirection == st.spinDirection
      && (!isOn ==> r.spinner.axis == w.spinner.axis == Zero)
      && (isOn ==> (r.spinner.axis == w.spinner.axis <==> st.spinner.previous == st.spinDirection))
    ensures RotorMatches(r)
  {
    SetPoweredOn(st, isOn)
  }

  /** Apply a series of settings, in order. */
  function SetMany(st: Station, values: seq<bool>): Station
    decreases |values|
  {
    if values == [] then st else SetMany(SetState(st, values[0]), values[1..])
  }

  /** Whatever series of settings a station receives, its trigger and rotor follow
      the last one; none of the earlier ones leaves a trace. */
  lemma {:induction false} LastSettingWins(st: Station, values: seq<bool>)
    requires values != []
    ensures var r := SetMany(st, values);
      && r.poweredOn == values[|values| - 1] && r.trigger == values[|values| - 1]
      && RotorMatches(r)
      && (st.spinDirection != Zero ==> (Spinning(r.spinner) <==> values[|values| - 1]))
      && r.spinDirection == st.spinDirection
    decreases |values|
  {
    var s1 := SetState(st, values[0]);
    if |values| > 1 {
      LastSettingWins(s1, values[1..]);
      assert values[1..][|values[1..]| - 1] == values[|values| - 1];
    } else {
      assert SetMany(s1, values[1..]) == s1;
    }
  }

  /** `OnTriggerEnter`: an unpowered station ignores everything; a powered one sends
      a disc that enters to `Charging` and ignores anything else. */
  function DiscEnters(cfg: Discs.Config, st: Station, other: Option<Discs.Disc>, view: Discs.PlayerView): (r: Option<Discs.Step>)
    requires Discs.ValidConfig(cfg)
    ensures r.Some? <==> st.poweredOn && other.Some?
    ensures r.Some? ==>
      && r.value.disc.state in {Discs.Charging, Discs.Charged}
      && r.value.disc.target == Discs.ChargeMount && r.value.disc.position == cfg.chargeMount
      && (r.value.disc.state == Discs.Charged <==> other.value.isCharged)
  {
    if !st.poweredOn then None
    else match other
      case None => None
      case Some(d) => Some(Discs.ChangeState(cfg, d, Discs.Charging, view))
  }
}
