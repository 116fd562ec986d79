/** Torch.cs: a flame the disc can carry. A burning disc lights the torch; a lit
    torch sets a disc on fire. The torch never puts a disc's fire out. */
module Torches {

  import opened Wrappers
  import Discs

  /** Only the backing field `isOn` is modelled. */
  datatype Torch = Torch(isOn: bool)

  predicate Burning(d: Discs.Disc) {
    d.elemental == Discs.Fire
  }

  /** `OnDiscTriggerEnter`: fire passes between the disc and the torch. */
  function DiscTouches(t: Torch, d: Discs.Disc): (r: (Torch, Discs.Disc))
    ensures Burning(d) ==> r.0.isOn && r.1 == d
    ensures !Burning(d) && t.isOn ==> r.0 == t && Burning(r.1) && r.1.(elemental := d.elemental) == d
    ensures !Burning(d) && !t.isOn ==> r == (t, d)
  {
    if Burning(d) then (Torch(true), d)
    else if t.isOn then (t, d.(elemental := Discs.Fire))
    else (t, d)
  }

  /** `OnTriggerEnter`: only a collider that is a disc is passed on. */
  function Enter(t: Torch, other: Option<Discs.Disc>): (r: (Torch, Option<Discs.Disc>))
    ensures other.None? ==> r == (t, None)
    ensures other.Some? ==> r.1.Some? && (r.0, r.1.value) == DiscTouches(t, other.value)
  {
    match other
    case None => (t, None)
    case Some(d) => var (t1, d1) := DiscTouches(t, d); (t1, Some(d1))
  }

  /** After a disc touches the torch, both burn exactly when either burned before;
      otherwise neither changes. In particular the disc never loses its fire. */
  lemma FireSpreads(t: Torch, d: Discs.Disc)
    ensures var (t1, d1) := DiscTouches(t, d);
      && (t1.isOn && Burning(d1) <==> t.isOn || Burning(d))
      && (Burning(d) ==> Burning(d1))
      && (t.isOn ==> t1.isOn)
      && d1.(elemental := d.elemental) == d
  {
  }

  /** Touching twice is the same as touching once. */
  lemma TouchIdempotent(t: Torch, d: Discs.Disc)
    ensures var (t1, d1) := DiscTouches(t, d);
      DiscTouches(t1, d1) == (t1, d1)
  {
  }
}
