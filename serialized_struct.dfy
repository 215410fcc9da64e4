/**
 * Tagged payloads (`NetworkSerializedStruct`) and the per-type payload map
 * (`NetworkSerializedStructMap`). A payload type is a name plus a codec; the
 * codec itself is an external library, so it is a pair of function values
 * and its round trip is an assumption (`Lossless`), never a proof.
 */
module Payloads {
  import opened Wrappers
  import opened Handles

  /** A payload type `T`: its type name and the codec used for it. */
  datatype NetType<!V> = NetType(name: TypeName, encode: V -> string, decode: string -> V)

  /** The codec of `t` decodes what it encoded. */
  ghost predicate Lossless<V(!new)>(t: NetType<V>) {
    forall v :: t.decode(t.encode(v)) == v
  }

  /** A payload tagged with the name of the type it was encoded from. */
  datatype SerializedStruct = SerializedStruct(typeName: TypeName, data: string)

  /** `from_struct::<T>(x)`: encode `x` and tag it with T's type name. */
  function FromStruct<V>(t: NetType<V>, x: V): (s: SerializedStruct)
    ensures s.typeName == t.name
  {
    SerializedStruct(t.name, t.encode(x))
  }

  /** `to_struct::<T>()`: decode only when the tag names T. */
  function ToStruct<V>(s: SerializedStruct, t: NetType<V>): (r: Option<V>)
    ensures r.Some? <==> s.typeName == t.name
  {
    if s.typeName == t.name then Some(t.decode(s.data)) else None
  }

  /** With a lossless codec, decoding a payload as the type it was encoded from gives back the value. */
  lemma RoundTrip<V(!new)>(t: NetType<V>, x: V)
    requires Lossless(t)
    ensures ToStruct(FromStruct(t, x), t) == Some(x)
  {
  }

  /** A payload encoded as one type is refused when decoded as a type of another name. */
  lemma MismatchedTagRefused<V, W>(t: NetType<V>, u: NetType<W>, x: V)
    requires t.name != u.name
    ensures ToStruct(FromStruct(t, x), u) == None
  {
  }

  /** `NetworkSerializedStructMap`: at most one payload per type name. */
  datatype SerializedStructMap = SerializedStructMap(data: map<TypeName, SerializedStruct>)
  {
    /** Every stored payload is tagged with the key it is stored under. */
    ghost predicate WellTagged() {
      forall k :: k in data ==> data[k].typeName == k
    }

    /** `set::<T>(x)`: store `x` under T's name, replacing only that entry. */
    function Set<V>(t: NetType<V>, x: V): (m: SerializedStructMap)
      ensures m.data.Keys == data.Keys + {t.name}
      ensures m.data[t.name] == FromStruct(t, x)
      ensures forall k :: k in data && k != t.name ==> m.data[k] == data[k]
      ensures WellTagged() ==> m.WellTagged()
    {
      SerializedStructMap(data[t.name := FromStruct(t, x)])
    }

    /** `get::<T>()`: the payload stored under T's name, decoded as T. */
    function Get<V>(t: NetType<V>): (r: Option<V>)
      ensures t.name !in data ==> r == None
      ensures WellTagged() ==> (r.Some? <==> t.name in data)
    {
      if t.name in data then ToStruct(data[t.name], t) else None
    }
  }

  /** The empty map (`Default`). */
  const EmptyStructMap := SerializedStructMap(map[])

  /** With a lossless codec, `get::<T>()` after `set::<T>(x)` gives back `x`. */
  lemma GetAfterSet<V(!new)>(m: SerializedStructMap, t: NetType<V>, x: V)
    requires Lossless(t)
    ensures m.Set(t, x).Get(t) == Some(x)
  {
  }

  /** Setting one type leaves what `get` returns for every other type name unchanged. */
  lemma GetAfterSetOther<V, W>(m: SerializedStructMap, t: NetType<V>, u: NetType<W>, x: W)
    requires t.name != u.name
    ensures m.Set(u, x).Get(t) == m.Get(t)
  {
  }
}
