/** WindTrigger.cs: a fan's air stream. While something stays in the stream with a
    clear line to the fan, a torch in it goes out, a burning disc is put out, and
    the disc is pushed by the stream (recorded as the disc's wind reference). */
module WindTriggers {

  import opened Wrappers
  import Discs
  import Torches

  /** A wind volume, known by its identity. */
  datatype Wind = Wind(id: nat)

  /** What stays inside the stream: it may be a torch, a disc, both or neither. */
  datatype Occupant = Occupant(torch: Option<Torches.Torch>, disc: Option<Discs.Disc>)

  /** `OnTriggerStay`. `blocked` is the result of the line cast from the fan. */
  function Stay(w: Wind, blocked: bool, o: Occupant): (r: Occupant)
    ensures blocked ==> r == o
    ensures r.torch.Some? <==> o.torch.Some?
    ensures r.disc.Some? <==> o.disc.Some?
    ensures !blocked && o.torch.Some? ==> !r.torch.value.isOn
    ensures !blocked && o.disc.Some? ==>
      && r.disc.value.elemental != Discs.Fire
      && (o.disc.value.elemental != Discs.Fire ==> r.disc.value.elemental == o.disc.value.elemental)
      && r.disc.value.wind == Some(w.id)
      && r.disc.value.(elemental := o.disc.value.elemental, wind := o.disc.value.wind) == o.disc.value
  {
    if blocked then o
    else
      var torch := match o.torch case None => None case Some(t) => Some(t.(isOn := false));
      var disc := match o.disc case None => None case Some(d) =>
        var e := if d.elemental == Discs.Fire then Discs.Inert else d.elemental;
        Some(d.(elemental := e, wind := Some(w.id)));
      Occupant(torch, disc)
  }

  /** `OnTriggerExit`: a disc leaving the stream forgets it. */
  function Exit(w: Wind, other: Option<Discs.Disc>): (r: Option<Discs.Disc>)
    ensures r.Some? <==> other.Some?
    ensures r.Some? ==> r.value.wind == None && r.value.(wind := other.value.wind) == other.value
  {
    match other
    case None => None
    case Some(d) => Some(d.(wind := None))
  }

  /** A disc that passes through an unblocked stream leaves it put out and no longer
      pushed, with everything else as before. */
  lemma PassingThroughPutsOut(w: Wind, d: Discs.Disc)
    requires d.wind == None
    ensures var r := Exit(w, Stay(w, false, Occupant(None, Some(d))).disc);
      r == Some(d.(elemental := Discs.Inert))
  {
  }

  /** Staying is idempotent: a second frame in the stream changes nothing more. */
  lemma StayIdempotent(w: Wind, blocked: bool, o: Occupant)
    ensures Stay(w, blocked, Stay(w, blocked, o)) == Stay(w, blocked, o)
  {
  }
}
