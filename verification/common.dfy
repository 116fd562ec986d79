/** The optional value used wherever the game holds a reference that may be null
    or asks a collider for a component it may not have. */
module Wrappers {

  datatype Option<+T> = None | Some(value: T)
}

/** Positions, directions and rotation axes of the scene (Unity's `Vector3`).
    Geometry is not modelled: vectors are only stored, copied and compared. */
module Scene {

  datatype Vec3 = Vec3(x: real, y: real, z: real)

  /** `Vector3.zero`, also what `FirstOrDefault` yields for an empty list of vectors. */
  const Zero: Vec3 := Vec3(0.0, 0.0, 0.0)
}

/** The two `List<T>` operations the game relies on: in-place `Reverse` and
    removal of one element. */
module Lists {

  /** `List.Reverse`: the same elements, last first. */
  function Reverse<T>(s: seq<T>): (r: seq<T>)
    ensures |r| == |s|
    ensures forall k :: 0 <= k < |s| ==> r[k] == s[|s| - 1 - k]
  {
    if s == [] then [] else Reverse(s[1..]) + [s[0]]
  }

  /** Reversing twice gives the list back. */
  lemma {:induction false} ReverseReverse<T>(s: seq<T>)
    ensures Reverse(Reverse(s)) == s
  {
    var r := Reverse(s);
    assert |Reverse(r)| == |s|;
    forall k | 0 <= k < |s|
      ensures Reverse(r)[k] == s[k]
    {
      assert Reverse(r)[k] == r[|s| - 1 - k];
    }
  }

  /** Reversing a list with one more element at the front puts that element last. */
  lemma {:induction false} ReversePrepend<T>(x: T, s: seq<T>)
    ensures Reverse([x] + s) == Reverse(s) + [x]
  {
    var l := [x] + s;
    assert l[1..] == s;
  }

  /** The list with the element at index `i` taken out, the others in order. */
  function RemoveAt<T>(s: seq<T>, i: nat): (r: seq<T>)
    requires i < |s|
    ensures |r| == |s| - 1
    ensures forall k :: 0 <= k < i ==> r[k] == s[k]
    ensures forall k :: i <= k < |r| ==> r[k] == s[k + 1]
  {
    s[..i] + s[i + 1..]
  }
}
