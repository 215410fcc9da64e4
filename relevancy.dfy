/**
 * The relevancy table: for each player, the handles of the entities already
 * spawned for that player, in the order they were first reported.
 */
module Relevancy {
  import opened Handles

  datatype NetworkRelevancyState = Spawn | Despawn | Relevant | Irrelevant

  type Table = map<Player, seq<NetworkEntity>>

  /** `relevant(player, entity)`: the handle is in the player's list; a player without a list sees nothing. */
  predicate IsRelevant(t: Table, player: Player, entity: NetworkEntity) {
    player in t && entity in t[player]
  }

  /** The player's list, or the empty list `or_insert_with` would create. */
  function ListOf(t: Table, player: Player): seq<NetworkEntity> {
    if player in t then t[player] else []
  }

  /** No player's list holds a handle twice. */
  ghost predicate Unique(t: Table) {
    forall p :: p in t ==> NoDup(t[p])
  }

  /**
   * `update(player, entity)` on the table as a value: the first call for a
   * pair appends the handle and reports Spawn, every later one reports
   * Relevant and leaves the lists alone.
   */
  function UpdateTable(t: Table, player: Player, entity: NetworkEntity): (r: (Table, NetworkRelevancyState))
    ensures r.1 == Spawn <==> !IsRelevant(t, player, entity)
    ensures r.1 == Spawn || r.1 == Relevant
    ensures IsRelevant(r.0, player, entity)
    ensures forall q, x :: IsRelevant(r.0, q, x) <==> IsRelevant(t, q, x) || (q == player && x == entity)
    ensures forall q :: q != player ==> ListOf(r.0, q) == ListOf(t, q)
    ensures |ListOf(r.0, player)| <= |ListOf(t, player)| + 1
    ensures Unique(t) ==> Unique(r.0)
  {
    var list := ListOf(t, player);
    if entity in list then (t[player := list], Relevant)
    else (t[player := list + [entity]], Spawn)
  }

  /** Spawn is reported once per pair: a second update of the same pair is Relevant and changes nothing. */
  lemma SpawnReportedOnce(t: Table, player: Player, entity: NetworkEntity)
    ensures var (t1, _) := UpdateTable(t, player, entity);
            UpdateTable(t1, player, entity) == (t1, Relevant)
  {
    var (t1, _) := UpdateTable(t, player, entity);
    assert player in t1;
    assert t1[player := t1[player]] == t1;
  }

  /** Updating any sequence of pairs never makes a relevant pair irrelevant. */
  lemma {:induction false} UpdatesOnlyGrow(t: Table, pairs: seq<(Player, NetworkEntity)>, q: Player, x: NetworkEntity)
    requires IsRelevant(t, q, x)
    ensures IsRelevant(UpdateAll(t, pairs), q, x)
    decreases |pairs|
  {
    if pairs != [] {
      UpdatesOnlyGrow(UpdateTable(t, pairs[0].0, pairs[0].1).0, pairs[1..], q, x);
    }
  }

  /** The table after updating every pair of `pairs` in order. */
  function UpdateAll(t: Table, pairs: seq<(Player, NetworkEntity)>): Table
    decreases |pairs|
  {
    if pairs == [] then t else UpdateAll(UpdateTable(t, pairs[0].0, pairs[0].1).0, pairs[1..])
  }

  /** After updating a sequence of pairs, exactly the old pairs and the updated pairs are relevant. */
  lemma {:induction false} UpdateAllRelevant(t: Table, pairs: seq<(Player, NetworkEntity)>, q: Player, x: NetworkEntity)
    ensures IsRelevant(UpdateAll(t, pairs), q, x) <==> IsRelevant(t, q, x) || (q, x) in pairs
    decreases |pairs|
  {
    if pairs != [] {
      var t1 := UpdateTable(t, pairs[0].0, pairs[0].1).0;
      UpdateAllRelevant(t1, pairs[1..], q, x);
      assert pairs == [pairs[0]] + pairs[1..];
    }
  }

  /** `NetworkRelevancy`: the table, updated in place by `update`. */
  class NetworkRelevancy {
    var relevancy: Table

    ghost predicate Valid()
      reads this
    {
      Unique(relevancy)
    }

    /** `NetworkRelevancy::default()`. */
    constructor ()
      ensures relevancy == map[] && Valid()
    {
      relevancy := map[];
    }

    /** `update`: reports Spawn exactly when the pair was not yet relevant, and records it. */
    method Update(player: Player, entity: NetworkEntity) returns (state: NetworkRelevancyState)
      requires Valid()
      modifies this
      ensures Valid()
      ensures (relevancy, state) == UpdateTable(old(relevancy), player, entity)
      ensures state == Spawn <==> !old(Relevant(player, entity))
      ensures Relevant(player, entity)
    {
      var list := if player in relevancy then relevancy[player] else [];
      if entity in list {
        relevancy := relevancy[player := list];
        state := NetworkRelevancyState.Relevant;
      } else {
        relevancy := relevancy[player := list + [entity]];
        state := Spawn;
      }
    }

    /** `relevant`: a read-only lookup. */
    predicate Relevant(player: Player, entity: NetworkEntity)
      reads this
    {
      IsRelevant(relevancy, player, entity)
    }
  }
}
