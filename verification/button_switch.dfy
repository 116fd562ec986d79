/** ButtonSwitch.cs: a floor button the disc presses by passing over it. It keeps an
    on/off state and passes every change to its targets: charge stations, and
    plain indicators (ButtonTarget.cs) that only show the state. A toggle button
    flips on every press; a single-press button changes once and then ignores
    presses. */
module Switches {

  import ChargeStations

  datatype ButtonType = SinglePress | Toggle

  /** A switch target (`IButtonInteractible`). */
  datatype Target = Station(station: ChargeStations.Station) | Indicator(shown: bool)

  /** The state a target was last set to. */
  function TargetOn(t: Target): bool {
    match t
    case Station(st) => st.poweredOn
    case Indicator(shown) => shown
  }

  /** `SetState` on one target. */
  function SetTarget(t: Target, isOn: bool): (r: Target)
    ensures TargetOn(r) == isOn
    ensures r.Station? <==> t.Station?
    ensures r.Station? ==> r.station == ChargeStations.SetState(t.station, isOn)
  {
    match t
    case Station(st) => Station(ChargeStations.SetState(st, isOn))
    case Indicator(_) => Indicator(isOn)
  }

  /** `targets.ForEach(t => t.SetState(isOn))`. */
  function FanOut(ts: seq<Target>, isOn: bool): (r: seq<Target>)
    ensures |r| == |ts|
    ensures forall k :: 0 <= k < |ts| ==> r[k] == SetTarget(ts[k], isOn)
  {
    seq(|ts|, k requires 0 <= k < |ts| => SetTarget(ts[k], isOn))
  }

  /** `onClip`/`offClip` say whether a sound is configured for turning on/off;
      `shown` is the switch's own animation flag. */
  datatype Switch = Switch(
    isOn: bool,
    kind: ButtonType,
    hasChanged: bool,
    shown: bool,
    targets: seq<Target>,
    onClip: bool,
    offClip: bool)

  datatype Sound = Silent | OnSound | OffSound

  /** Every target and the animation agree with the switch. */
  predicate InSync(sw: Switch) {
    sw.shown == sw.isOn && forall k :: 0 <= k < |sw.targets| ==> TargetOn(sw.targets[k]) == sw.isOn
  }

  /** `Start`: the animation and every target take the initial state. */
  function Start(sw: Switch): (r: Switch)
    ensures InSync(r)
    ensures r.isOn == sw.isOn && r.hasChanged == sw.hasChanged && |r.targets| == |sw.targets|
  {
    sw.(shown := sw.isOn, targets := FanOut(sw.targets, sw.isOn))
  }

  /** `ToggleState`: a single-press button that has already changed does nothing;
      otherwise the state flips, the matching sound plays if configured, and the
      animation and every target take the new state. */
  function ToggleState(sw: Switch): (r: (Switch, Sound))
    ensures sw.kind == SinglePress && sw.hasChanged ==> r == (sw, Silent)
    ensures !(sw.kind == SinglePress && sw.hasChanged) ==>
      && r.0.isOn == !sw.isOn && r.0.hasChanged && InSync(r.0)
      && |r.0.targets| == |sw.targets|
      && (r.1 == OnSound <==> r.0.isOn && sw.onClip)
      && (r.1 == OffSound <==> !r.0.isOn && sw.offClip)
    ensures r.0.kind == sw.kind && r.0.onClip == sw.onClip && r.0.offClip == sw.offClip
  {
    if sw.kind == SinglePress && sw.hasChanged then (sw, Silent)
    else
      var on := !sw.isOn;
      var sound := if on && sw.onClip then OnSound else if !on && sw.offClip then OffSound else Silent;
      (sw.(hasChanged := true, isOn := on, shown := on, targets := FanOut(sw.targets, on)), sound)
  }

  /** `OnTriggerEnter`: only a collider tagged as the disc presses the button. */
  function Enter(sw: Switch, taggedDisc: bool): (r: (Switch, Sound))
    ensures !taggedDisc ==> r == (sw, Silent)
    ensures taggedDisc ==> r == ToggleState(sw)
  {
    if taggedDisc then ToggleState(sw) else (sw, Silent)
  }

  /** The switch after `n` presses by the disc. */
  function Presses(sw: Switch, n: nat): Switch
    decreases n
  {
    if n == 0 then sw else Presses(ToggleState(sw).0, n - 1)
  }

  /** A toggle button flips on every press: after `n` presses it is on exactly when
      it started on and `n` is even, or started off and `n` is odd; its targets
      follow. Two presses restore the state. */
  lemma {:induction false} ToggleParity(sw: Switch, n: nat)
    requires sw.kind == Toggle
    ensures var r := Presses(sw, n);
      && r.isOn == (if n % 2 == 0 then sw.isOn else !sw.isOn)
      && r.kind == Toggle && |r.targets| == |sw.targets|
      && (n > 0 ==> InSync(r))
    decreases n
  {
    if n > 0 {
      ToggleParity(ToggleState(sw).0, n - 1);
    }
  }

  /** A single-press button changes state at most once: after any number of presses
      it is on exactly when it started on, unless this was its first change; every
      press after the first is a no-op. */
  lemma {:induction false} SinglePressOnce(sw: Switch, n: nat)
    requires sw.kind == SinglePress
    ensures var r := Presses(sw, n);
      && (sw.hasChanged ==> r == sw)
      && (!sw.hasChanged && n > 0 ==> r == ToggleState(sw).0 && r.isOn == !sw.isOn && InSync(r))
      && (n == 0 ==> r == sw)
    decreases n
  {
    if n > 0 {
      var s1 := ToggleState(sw).0;
      SinglePressOnce(s1, n - 1);
    }
  }
}
