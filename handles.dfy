/** The Option type used for the source's `Option<T>` values, and a pass/fail outcome. */
module Wrappers {
  datatype Option<T> = None | Some(value: T)
  {
    /** `unwrap_or(default)` */
    function GetOr(default: T): T {
      if Some? then value else default
    }
  }

  /** Success, or the error that stopped an operation. */
  datatype Outcome<E> = Pass | Fail(error: E)
}

/**
 * Identities shared between peers: players, networked entities and the
 * type names that tag serialized payloads.
 */
module Handles {
  import opened Wrappers

  /** A 128-bit UUID; the random generator that creates one is not modelled. */
  newtype Uuid = x: int | 0 <= x < 0x1_0000_0000_0000_0000_0000_0000_0000_0000

  /** `NetworkPlayer`: a peer's identity. */
  datatype Player = Player(id: Uuid)

  /** `NetworkEntity`: the network identity attached to a host entity. */
  datatype NetworkEntity = NetworkEntity(id: Uuid)

  /** `NetworkTypeName`: the name of a payload's Rust type. */
  datatype TypeName = TypeName(name: string)

  /**
   * `iter().position(|x| x == h)`: the index of the first occurrence of
   * `h`, or None when it does not occur.
   */
  function FirstIndex<T(==)>(s: seq<T>, h: T): (r: Option<nat>)
    ensures r.None? <==> h !in s
    ensures r.Some? ==> r.value < |s| && s[r.value] == h && forall j :: 0 <= j < r.value ==> s[j] != h
    decreases |s|
  {
    if s == [] then None
    else if s[0] == h then Some(0)
    else
      match FirstIndex(s[1..], h)
      case None => None
      case Some(i) => Some(i + 1)
  }

  /** True when no element occurs twice. */
  predicate NoDup<T(==)>(s: seq<T>) {
    forall i, j :: 0 <= i < j < |s| ==> s[i] != s[j]
  }
}
