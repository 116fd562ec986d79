/** Spinner.cs: a part that turns about an axis (a charge station's rotor, the
    player's wind-up key). `Stop` remembers the axis so that `Spin` can resume it.
    The per-frame `transform.Rotate` is visual and not modelled. */
module Spinners {

  import opened Scene

  /** `axis` is the current rotation axis (zero when still); `previous` is the
      axis saved by the last `Stop`. */
  datatype Spinner = Spinner(axis: Vec3, previous: Vec3)

  /** A spinner is turning when its axis is not zero. */
  predicate Spinning(s: Spinner) {
    s.axis != Zero
  }

  /** `Awake`: the designer's axis is also the one remembered. */
  function Awake(axis: Vec3): (s: Spinner)
    ensures Spinning(s) <==> axis != Zero
    ensures s.previous == axis
  {
    Spinner(axis, axis)
  }

  /** The `Axis` setter: replaces the current axis and never the remembered one. */
  function SetAxis(s: Spinner, v: Vec3): (r: Spinner)
    ensures r.axis == v
    ensures r.previous == s.previous
  {
    s.(axis := v)
  }

  /** `Stop`: remembers whatever axis is current, even zero, and stands still. */
  function Stop(s: Spinner): (r: Spinner)
    ensures !Spinning(r)
    ensures r.previous == s.axis
  {
    Spinner(Zero, s.axis)
  }

  /** `Spin()`: resumes the remembered axis; the memory is kept. */
  function Spin(s: Spinner): (r: Spinner)
    ensures r.axis == s.previous
    ensures r.previous == s.previous
  {
    s.(axis := s.previous)
  }

  /** `Spin(bool)`: `Spin()` when asked to spin, `Stop()` otherwise. */
  function SpinIf(s: Spinner, spin: bool): (r: Spinner)
    ensures spin ==> r == Spin(s)
    ensures !spin ==> r == Stop(s)
  {
    if spin then Spin(s) else Stop(s)
  }

  /** Stopping and then spinning brings back the axis held before the stop. */
  lemma StopThenSpinRestores(s: Spinner)
    ensures Spin(Stop(s)).axis == s.axis
    ensures Spinning(Spin(Stop(s))) <==> Spinning(s)
  {
  }

  /** A second `Stop` overwrites the memory with zero, so a later `Spin` stays still. */
  lemma StopTwiceForgets(s: Spinner)
    ensures !Spinning(Spin(Stop(Stop(s))))
    ensures Stop(Stop(s)).previous == Zero
  {
  }

  /** Setting the axis of any spinner does not change what `Spin` resumes. */
  lemma SetAxisKeepsMemory(s: Spinner, v: Vec3)
    ensures Spin(SetAxis(s, v)) == Spin(s)
  {
  }
}
