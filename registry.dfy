/**
 * The type-name registry. Each entry has three optional slots (plain event,
 * entity event, player data). The slots hold closures that publish decoded
 * payloads into the host world; the model keeps only whether each slot is
 * filled.
 */
module Registry {
  import opened Wrappers
  import opened Handles
  import opened Payloads

  /** `NetworkRegistryEntry`: which of the three slots are filled. */
  datatype NetworkRegistryEntry = NetworkRegistryEntry(event: bool, entityEvent: bool, playerData: bool)

  /** `NetworkRegistryEntry::default()`: all three slots empty. */
  const EmptyEntry := NetworkRegistryEntry(false, false, false)

  /** The three slots of an entry. */
  datatype Slot = EventSlot | EntityEventSlot | PlayerDataSlot

  predicate Has(entry: NetworkRegistryEntry, slot: Slot) {
    match slot
    case EventSlot => entry.event
    case EntityEventSlot => entry.entityEvent
    case PlayerDataSlot => entry.playerData
  }

  type Entries = map<TypeName, NetworkRegistryEntry>

  /** `get_or_insert_entry` on the map as a value: an absent name gets an empty entry. */
  function WithEntry(es: Entries, name: TypeName): (r: Entries)
    ensures r.Keys == es.Keys + {name}
    ensures name in es ==> r == es
    ensures name !in es ==> r[name] == EmptyEntry
  {
    if name in es then es else es[name := EmptyEntry]
  }

  /**
   * `get_or_insert_event` / `_entity_event` / `_player_data` on the map as a
   * value: the entry for `name` exists and has `slot` filled, a slot that was
   * already filled is left as it was, the entry's other two slots keep their
   * values, and every other entry is unchanged.
   */
  function WithSlot(es: Entries, name: TypeName, slot: Slot): (r: Entries)
    ensures r.Keys == es.Keys + {name}
    ensures Has(r[name], slot)
    ensures forall other :: other != slot ==> Has(r[name], other) == (name in es && Has(es[name], other))
    ensures forall k :: k in es && k != name ==> r[k] == es[k]
    ensures name in es && Has(es[name], slot) ==> r == es
  {
    var entry := WithEntry(es, name)[name];
    if Has(entry, slot) then WithEntry(es, name)
    else
      var filled := match slot
        case EventSlot => entry.(event := true)
        case EntityEventSlot => entry.(entityEvent := true)
        case PlayerDataSlot => entry.(playerData := true);
      es[name := filled]
  }

  /** Registering is idempotent: filling a slot twice is the same as filling it once. */
  lemma WithSlotIdempotent(es: Entries, name: TypeName, slot: Slot)
    ensures WithSlot(WithSlot(es, name, slot), name, slot) == WithSlot(es, name, slot)
  {
  }

  /** Registering a type under one slot does not register it under another (e.g. an event is not player data). */
  lemma WithSlotKeepsOtherSlots(es: Entries, name: TypeName, slot: Slot, other: Slot)
    requires other != slot
    requires name !in es
    ensures !Has(WithSlot(es, name, slot)[name], other)
  {
  }

  /** Lookups of names that no registration used give None. */
  lemma {:induction false} UnregisteredIsAbsent(regs: seq<(TypeName, Slot)>, name: TypeName)
    requires forall i :: 0 <= i < |regs| ==> regs[i].0 != name
    ensures name !in RegisterAll(map[], regs)
    decreases |regs|
  {
    if regs != [] {
      UnregisteredIsAbsent(regs[..|regs| - 1], name);
    }
  }

  /** The entries after performing the registrations `regs` in order, from an empty registry. */
  function RegisterAll(es: Entries, regs: seq<(TypeName, Slot)>): Entries
    decreases |regs|
  {
    if regs == [] then es
    else WithSlot(RegisterAll(es, regs[..|regs| - 1]), regs[|regs| - 1].0, regs[|regs| - 1].1)
  }

  /** `NetworkRegistry`: the map from type name to entry, filled in place. */
  class NetworkRegistry {
    var entries: Entries

    /** `NetworkRegistry::default()`. */
    constructor ()
      ensures entries == map[]
    {
      entries := map[];
    }

    /** `get_or_insert_entry`: the entry for `name`, inserting an empty one when absent. */
    method GetOrInsertEntry(name: TypeName) returns (entry: NetworkRegistryEntry)
      modifies this
      ensures entries == WithEntry(old(entries), name)
      ensures entry == entries[name]
      ensures name in old(entries) ==> entry == old(entries)[name]
    {
      if name !in entries {
        entries := entries[name := EmptyEntry];
      }
      entry := entries[name];
    }

    /** `get_or_insert_event`, `get_or_insert_entity_event`, `get_or_insert_player_data`: fill one slot if it is empty. */
    method GetOrInsertSlot(name: TypeName, slot: Slot)
      modifies this
      ensures entries == WithSlot(old(entries), name, slot)
    {
      var entry := GetOrInsertEntry(name);
      if !Has(entry, slot) {
        var filled := match slot
          case EventSlot => entry.(event := true)
          case EntityEventSlot => entry.(entityEvent := true)
          case PlayerDataSlot => entry.(playerData := true);
        entries := entries[name := filled];
      }
    }

    /** `add_network_event::<T>()`. */
    method AddNetworkEvent<V>(t: NetType<V>)
      modifies this
      ensures entries == WithSlot(old(entries), t.name, EventSlot)
      ensures GetEntry(t).Some? && GetEntry(t).value.event
    {
      GetOrInsertSlot(t.name, EventSlot);
    }

    /** `add_network_entity_event::<T>()`. */
    method AddNetworkEntityEvent<V>(t: NetType<V>)
      modifies this
      ensures entries == WithSlot(old(entries), t.name, EntityEventSlot)
      ensures GetEntry(t).Some? && GetEntry(t).value.entityEvent
    {
      GetOrInsertSlot(t.name, EntityEventSlot);
    }

    /** `add_network_player_data::<T>()`. */
    method AddNetworkPlayerData<V>(t: NetType<V>)
      modifies this
      ensures entries == WithSlot(old(entries), t.name, PlayerDataSlot)
      ensures GetEntry(t).Some? && GetEntry(t).value.playerData
    {
      GetOrInsertSlot(t.name, PlayerDataSlot);
    }

    /** `get_entry::<T>()`: the entry registered under T's name, if any. */
    function GetEntry<V>(t: NetType<V>): (r: Option<NetworkRegistryEntry>)
      reads this
      ensures r.Some? <==> t.name in entries
      ensures r.Some? ==> r.value == entries[t.name]
    {
      if t.name in entries then Some(entries[t.name]) else None
    }

    /** `get_entry_from_serialized(s)`: the entry registered under the payload's tag. */
    function GetEntryFromSerialized(s: SerializedStruct): (r: Option<NetworkRegistryEntry>)
      reads this
      ensures r.Some? <==> s.typeName in entries
      ensures r.Some? ==> r.value == entries[s.typeName]
    {
      if s.typeName in entries then Some(entries[s.typeName]) else None
    }

    /** T has an entry whose player-data slot is filled. */
    predicate HasPlayerData<V>(t: NetType<V>)
      reads this
    {
      t.name in entries && entries[t.name].playerData
    }

    /** A payload built by `from_struct::<T>` resolves to T's own entry. */
    lemma SerializedResolvesToOwnType<V>(t: NetType<V>, x: V)
      ensures GetEntryFromSerialized(FromStruct(t, x)) == GetEntry(t)
    {
    }
  }
}
