/** Small value types shared by every part of the model: an optional value
    (the model's stand-in for a C# null reference), group identifiers and
    network identities. */
module Basics {

  datatype Option<+T> = None | Some(value: T)

  /** A shared-anchor group identifier; `EmptyGuid` plays the role of Guid.Empty. */
  datatype Guid = Guid(bits: nat)

  const EmptyGuid: Guid := Guid(0)

  /** A networked object's identity. `handle` stands for the object reference
      (two identities are the same object iff they are equal); `netId` is the
      id the server assigns, 0 until it has been synchronised. */
  datatype Identity = Identity(handle: nat, netId: nat)

  /** The position of the first element satisfying `p` (LINQ's
      FirstOrDefault, as an index): None when no element does. */
  function FirstIndex<T>(s: seq<T>, p: T -> bool): (r: Option<nat>)
    ensures r.Some? ==> r.value < |s| && p(s[r.value])
    ensures r.Some? ==> forall j :: 0 <= j < r.value ==> !p(s[j])
    ensures r.None? <==> forall j :: 0 <= j < |s| ==> !p(s[j])
    decreases |s|
  {
    if s == [] then None
    else if p(s[0]) then Some(0)
    else
      match FirstIndex(s[1..], p)
      case None => None
      case Some(i) => Some(i + 1)
  }
}
