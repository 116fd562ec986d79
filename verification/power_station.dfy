/** PowerStation.cs: the socket that a charged disc must reach. A charged disc
    entering it connects, and the station latches on for good. */
module PowerStations {

  import opened Wrappers
  import Discs

  datatype PowerStation = PowerStation(poweredOn: bool)

  /** A collider that is a disc carrying charge. */
  predicate ChargedDisc(other: Option<Discs.Disc>) {
    other.Some? && other.value.isCharged
  }

  /** `OnTriggerEnter`: a charged disc is connected and the station powers on; an
      uncharged disc or any other collider changes nothing. Returns the station and,
      when the disc was connected, the disc's step. */
  function DiscEnters(cfg: Discs.Config, ps: PowerStation, other: Option<Discs.Disc>, view: Discs.PlayerView): (r: (PowerStation, Option<Discs.Step>))
    requires Discs.ValidConfig(cfg)
    ensures r.1.Some? <==> ChargedDisc(other)
    ensures ChargedDisc(other) ==> r.0.poweredOn
    ensures !ChargedDisc(other) ==> r.0 == ps
    ensures r.1.Some? ==>
      && r.1.value.disc.state == Discs.Connected
      && r.1.value.disc.target == Discs.PowerMount && r.1.value.disc.position == cfg.powerMount
      && r.1.value.disc.isCharged
  {
    match other
    case Some(d) =>
      if d.isCharged then (PowerStation(true), Some(Discs.ChangeState(cfg, d, Discs.Connected, view))) else (ps, None)
    case None => (ps, None)
  }

  /** The station after a series of colliders enter it, in order. */
  function EnterMany(cfg: Discs.Config, ps: PowerStation, others: seq<Option<Discs.Disc>>, view: Discs.PlayerView): PowerStation
    requires Discs.ValidConfig(cfg)
    decreases |others|
  {
    if others == [] then ps else EnterMany(cfg, DiscEnters(cfg, ps, others[0], view).0, others[1..], view)
  }

  /** The latch: after any series of entries the station is on exactly when it was
      on before or some charged disc entered; once on, it never turns off. */
  lemma {:induction false} LatchStaysOn(cfg: Discs.Config, ps: PowerStation, others: seq<Option<Discs.Disc>>, view: Discs.PlayerView)
    requires Discs.ValidConfig(cfg)
    ensures EnterMany(cfg, ps, others, view).poweredOn <==> ps.poweredOn || exists k :: 0 <= k < |others| && ChargedDisc(others[k])
    decreases |others|
  {
    if others != [] {
      var ps1 := DiscEnters(cfg, ps, others[0], view).0;
      LatchStaysOn(cfg, ps1, others[1..], view);
      if exists k :: 0 <= k < |others| && ChargedDisc(others[k]) {
        var k :| 0 <= k < |others| && ChargedDisc(others[k]);
        if k > 0 { assert ChargedDisc(others[1..][k - 1]); }
      }
      if exists k :: 0 <= k < |others[1..]| && ChargedDisc(others[1..][k]) {
        var k :| 0 <= k < |others[1..]| && ChargedDisc(others[1..][k]);
        assert ChargedDisc(others[k + 1]);
      }
    }
  }
}
