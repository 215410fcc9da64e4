/**
 * `server_entities_diff`: once per tick the server compares its entity
 * table with the entities alive in the host world. Entries for vanished
 * entities are despawned on every player that had them and dropped; new
 * entities get an entry; then every live entry is offered to every player
 * (spawn/despawn as the relevancy decision says, ownership changes to the
 * new and the previous owner) and its ownership bookkeeping is settled.
 *
 * The host world is the set of live handles; the relevancy decision is an
 * input function, and so is the order in which the table is walked.
 */
module DiffPipeline {
  import opened Wrappers
  import opened Handles
  import opened Messages
  import opened Relevancy
  import opened Server

  type EntityTable = map<NetworkEntity, ServerEntity>

  /** The relevancy decision for one player and one entry, given whether the player owns it or is local. */
  type Decide = (Player, ServerEntity, bool) -> NetworkRelevancyState

  // ---------------------------------------------------------------------
  // Marking the table against the world
  // ---------------------------------------------------------------------

  /** The first loop: every entry marked as not existing. */
  function Absent(es: EntityTable): (r: EntityTable)
    ensures r.Keys == es.Keys
    ensures forall k :: k in r ==> r[k] == es[k].(present := false)
  {
    map k | k in es :: es[k].(present := false)
  }

  /** The second loop, after visiting `seen`: each visited handle has an entry (new if needed) marked as existing. */
  function Revived(es: EntityTable, seen: set<NetworkEntity>): (r: EntityTable)
    ensures r.Keys == es.Keys + seen
  {
    map k | k in es.Keys + seen :: if k in seen then (if k in es then es[k] else NewEntity(k)).(present := true) else es[k]
  }

  /** The table after both marking loops. */
  function Marked(es: EntityTable, world: set<NetworkEntity>): EntityTable {
    Revived(Absent(es), world)
  }

  /**
   * After marking, the table has an entry for every old and every live
   * handle; an entry exists exactly when its handle is live; an old entry
   * keeps its handle and ownership fields and a new one starts unowned.
   */
  lemma MarkedShape(es: EntityTable, world: set<NetworkEntity>, k: NetworkEntity)
    ensures k in Marked(es, world) <==> k in es || k in world
    ensures k in Marked(es, world) ==> Marked(es, world)[k].present == (k in world)
    ensures k in es ==> Marked(es, world)[k] == es[k].(present := k in world)
    ensures k !in es && k in world ==> Marked(es, world)[k] == NewEntity(k)
  {
  }

  /** The handles of `order` that are not live, in order. */
  function Vanished(order: seq<NetworkEntity>, world: set<NetworkEntity>): (r: seq<NetworkEntity>)
    ensures forall k :: k in r <==> k in order && k !in world
    decreases |order|
  {
    if order == [] then []
    else
      var last := order[|order| - 1];
      Vanished(order[..|order| - 1], world) + (if last in world then [] else [last])
  }

  /** The handles of `order` that are live, in order. */
  function Live(order: seq<NetworkEntity>, world: set<NetworkEntity>): (r: seq<NetworkEntity>)
    ensures forall k :: k in r <==> k in order && k in world
    decreases |order|
  {
    if order == [] then []
    else
      var last := order[|order| - 1];
      Live(order[..|order| - 1], world) + (if last in world then [last] else [])
  }

  /** A filter of a duplicate-free list is duplicate-free. */
  lemma {:induction false} VanishedNoDup(order: seq<NetworkEntity>, world: set<NetworkEntity>)
    requires NoDup(order)
    ensures NoDup(Vanished(order, world))
    decreases |order|
  {
    if order != [] {
      var init := order[..|order| - 1];
      var last := order[|order| - 1];
      assert NoDup(init);
      VanishedNoDup(init, world);
      assert last !in init;
    }
  }

  // ---------------------------------------------------------------------
  // The despawn loop
  // ---------------------------------------------------------------------

  /** The third loop: one `EntityDespawn` per vanished handle, to every non-local player it is relevant to. */
  function DespawnDispatches(vanished: seq<NetworkEntity>, localPlayer: Option<Player>, table: Table): (r: seq<Dispatch>)
    ensures |r| == |vanished|
    ensures forall x :: 0 <= x < |vanished| ==> r[x] == Dispatch(RelevantTo(localPlayer, table, vanished[x]), EntityDespawn(vanished[x]))
    decreases |vanished|
  {
    if vanished == [] then []
    else
      var last := vanished[|vanished| - 1];
      DespawnDispatches(vanished[..|vanished| - 1], localPlayer, table) + [Dispatch(RelevantTo(localPlayer, table, last), EntityDespawn(last))]
  }

  /**
   * The despawns a player with handle `h` is sent: one per vanished handle
   * relevant to it, none at all for the local player.
   */
  lemma {:induction false} DespawnsReachRelevantNonLocal(vanished: seq<NetworkEntity>, localPlayer: Option<Player>, table: Table, h: Player)
    ensures var r := Sends(DespawnDispatches(vanished, localPlayer, table), h);
      (forall m :: m in r ==> m.EntityDespawn?) &&
      (forall v :: EntityDespawn(v) in r <==> v in vanished && localPlayer != Some(h) && IsRelevant(table, h, v))
    decreases |vanished|
  {
    if vanished != [] {
      var init := vanished[..|vanished| - 1];
      var ds := DespawnDispatches(vanished, localPlayer, table);
      assert ds[..|ds| - 1] == DespawnDispatches(init, localPlayer, table);
      DespawnsReachRelevantNonLocal(init, localPlayer, table, h);
      assert vanished == init + [vanished[|vanished| - 1]];
    }
  }

  /** With a duplicate-free walk order, no player is sent the same despawn twice. */
  lemma {:induction false} DespawnsNotRepeated(vanished: seq<NetworkEntity>, localPlayer: Option<Player>, table: Table, h: Player)
    requires NoDup(vanished)
    ensures NoDup(Sends(DespawnDispatches(vanished, localPlayer, table), h))
    decreases |vanished|
  {
    if vanished != [] {
      var init := vanished[..|vanished| - 1];
      var last := vanished[|vanished| - 1];
      var ds := DespawnDispatches(vanished, localPlayer, table);
      assert ds[..|ds| - 1] == DespawnDispatches(init, localPlayer, table);
      assert NoDup(init);
      DespawnsNotRepeated(init, localPlayer, table, h);
      DespawnsReachRelevantNonLocal(init, localPlayer, table, h);
      assert last !in init;
    }
  }

  // ---------------------------------------------------------------------
  // The live loop
  // ---------------------------------------------------------------------

  /** `is_local_player`. */
  predicate IsLocal(localPlayer: Option<Player>, h: Player) {
    localPlayer == Some(h)
  }

  /** `is_owner`: the entry's owner, or, for an unowned entry, the local player. */
  predicate IsOwner(e: ServerEntity, localPlayer: Option<Player>, h: Player) {
    if e.owner.Some? then e.owner.value == h else IsLocal(localPlayer, h)
  }

  /**
   * What the live loop sends the player with handle `h` about the entry `e`
   * stored under `k`: a spawn or despawn as the relevancy decision says,
   * then, if the owner changed, the new owner is told it owns the entity
   * and the previous owner that it no longer does; nothing for the local
   * player.
   */
  function LiveMessages(h: Player, k: NetworkEntity, e: ServerEntity, localPlayer: Option<Player>, decide: Decide): seq<NetworkMessage> {
    var local := IsLocal(localPlayer, h);
    RelevancyMessages(k, decide(h, e, IsOwner(e, localPlayer, h) || local), local)
    + OwnershipMessages(h, e, local)
  }

  /** The `match` on the relevancy decision: a spawn or a despawn, never to the local player. */
  function RelevancyMessages(k: NetworkEntity, state: NetworkRelevancyState, local: bool): seq<NetworkMessage> {
    if local then []
    else if state == Spawn then [EntitySpawn(k)]
    else if state == Despawn then [EntityDespawn(k)]
    else []
  }

  /** The `owner_changed` block: tell the new owner, then the previous one, never the local player. */
  function OwnershipMessages(h: Player, e: ServerEntity, local: bool): seq<NetworkMessage> {
    (if e.ownerChanged && e.owner == Some(h) && !local then [EntityOwner(e.handle, true)] else [])
    + (if e.ownerChanged && e.lastOwner == Some(h) && !local then [EntityOwner(e.handle, false)] else [])
  }

  /**
   * The live loop's messages, read message by message: the local player
   * gets none; a spawn or despawn goes out exactly when the decision says
   * so; `EntityOwner(_, true)` reaches exactly the new owner and
   * `EntityOwner(_, false)` exactly the previous one, and only when the
   * owner changed.
   */
  lemma LiveMessagesMeaning(h: Player, k: NetworkEntity, e: ServerEntity, localPlayer: Option<Player>, decide: Decide)
    ensures var r := LiveMessages(h, k, e, localPlayer, decide);
      var state := decide(h, e, IsOwner(e, localPlayer, h) || IsLocal(localPlayer, h));
      (IsLocal(localPlayer, h) ==> r == []) &&
      (EntitySpawn(k) in r <==> !IsLocal(localPlayer, h) && state == Spawn) &&
      (EntityDespawn(k) in r <==> !IsLocal(localPlayer, h) && state == Despawn) &&
      (EntityOwner(e.handle, true) in r <==> !IsLocal(localPlayer, h) && e.ownerChanged && e.owner == Some(h)) &&
      (EntityOwner(e.handle, false) in r <==> !IsLocal(localPlayer, h) && e.ownerChanged && e.lastOwner == Some(h)) &&
      (!e.ownerChanged ==> forall m :: m in r ==> !m.EntityOwner?)
  {
    var local := IsLocal(localPlayer, h);
    var state := decide(h, e, IsOwner(e, localPlayer, h) || local);
    var a, b := RelevancyMessages(k, state, local), OwnershipMessages(h, e, local);
    RelevancyMessagesMeaning(k, state, local);
    OwnershipMessagesMeaning(h, e, local);
    assert forall m :: m in a + b <==> m in a || m in b;
  }

  /** The decision's messages: a spawn exactly on `Spawn`, a despawn exactly on `Despawn`, no ownership news. */
  lemma RelevancyMessagesMeaning(k: NetworkEntity, state: NetworkRelevancyState, local: bool)
    ensures var r := RelevancyMessages(k, state, local);
      (local ==> r == []) &&
      (EntitySpawn(k) in r <==> !local && state == Spawn) &&
      (EntityDespawn(k) in r <==> !local && state == Despawn) &&
      (forall m :: m in r ==> !m.EntityOwner?)
  {
  }

  /** The ownership messages: `true` to the new owner and `false` to the previous one, only after a change. */
  lemma OwnershipMessagesMeaning(h: Player, e: ServerEntity, local: bool)
    ensures var r := OwnershipMessages(h, e, local);
      (local ==> r == []) &&
      (forall m :: m in r ==> m.EntityOwner?) &&
      (EntityOwner(e.handle, true) in r <==> !local && e.ownerChanged && e.owner == Some(h)) &&
      (EntityOwner(e.handle, false) in r <==> !local && e.ownerChanged && e.lastOwner == Some(h)) &&
      (!e.ownerChanged ==> r == [])
  {
  }

  /** The inner loop over the players for one entry. */
  function EntityPass(ps: seq<ServerPlayer>, k: NetworkEntity, e: ServerEntity, localPlayer: Option<Player>, decide: Decide): (r: seq<ServerPlayer>)
    ensures |r| == |ps|
    ensures forall x :: 0 <= x < |ps| ==> r[x] == Appended(ps[x], LiveMessages(ps[x].handle, k, e, localPlayer, decide))
    decreases |ps|
  {
    if ps == [] then []
    else
      var last := ps[|ps| - 1];
      EntityPass(ps[..|ps| - 1], k, e, localPlayer, decide) + [Appended(last, LiveMessages(last.handle, k, e, localPlayer, decide))]
  }

  /** The live loop over the entries `keys`, one inner pass each. */
  function LivePasses(ps: seq<ServerPlayer>, keys: seq<NetworkEntity>, es: EntityTable, localPlayer: Option<Player>, decide: Decide): (r: seq<ServerPlayer>)
    requires forall k :: k in keys ==> k in es
    ensures |r| == |ps|
    decreases |keys|
  {
    if keys == [] then ps
    else
      var last := keys[|keys| - 1];
      EntityPass(LivePasses(ps, keys[..|keys| - 1], es, localPlayer, decide), last, es[last], localPlayer, decide)
  }

  /** All the live-loop messages to the player with handle `h`, entry by entry in walk order. */
  function LiveSends(h: Player, keys: seq<NetworkEntity>, es: EntityTable, localPlayer: Option<Player>, decide: Decide): seq<NetworkMessage>
    requires forall k :: k in keys ==> k in es
    decreases |keys|
  {
    if keys == [] then []
    else
      var last := keys[|keys| - 1];
      LiveSends(h, keys[..|keys| - 1], es, localPlayer, decide) + LiveMessages(h, last, es[last], localPlayer, decide)
  }

  /**
   * After the live loop each player's socket holds what it held before
   * followed by its live-loop messages entry by entry; nothing else about
   * any player changes.
   */
  lemma {:induction false} LivePassesAppendLiveSends(ps: seq<ServerPlayer>, keys: seq<NetworkEntity>, es: EntityTable, localPlayer: Option<Player>, decide: Decide)
    requires forall k :: k in keys ==> k in es
    ensures forall x :: 0 <= x < |ps| ==>
      LivePasses(ps, keys, es, localPlayer, decide)[x] == Appended(ps[x], LiveSends(ps[x].handle, keys, es, localPlayer, decide))
    decreases |keys|
  {
    if keys == [] {
      forall x | 0 <= x < |ps|
        ensures ps[x] == Appended(ps[x], [])
      {
        assert ps[x].socket.outbox + [] == ps[x].socket.outbox;
      }
    } else {
      var init := keys[..|keys| - 1];
      var last := keys[|keys| - 1];
      LivePassesAppendLiveSends(ps, init, es, localPlayer, decide);
      var mid := LivePasses(ps, init, es, localPlayer, decide);
      var after := EntityPass(mid, last, es[last], localPlayer, decide);
      assert LivePasses(ps, keys, es, localPlayer, decide) == after;
      forall x | 0 <= x < |ps|
        ensures after[x] == Appended(ps[x], LiveSends(ps[x].handle, keys, es, localPlayer, decide))
      {
        var h := ps[x].handle;
        var before := LiveSends(h, init, es, localPlayer, decide);
        var more := LiveMessages(h, last, es[last], localPlayer, decide);
        assert LiveSends(h, keys, es, localPlayer, decide) == before + more;
        assert mid[x] == Appended(ps[x], before);
        assert after[x] == Appended(mid[x], more);
        AppendedTwice(ps[x], before, more);
      }
    }
  }

  /** The local player is sent nothing by the live loop. */
  lemma {:induction false} LocalPlayerHearsNothingLive(h: Player, keys: seq<NetworkEntity>, es: EntityTable, localPlayer: Option<Player>, decide: Decide)
    requires forall k :: k in keys ==> k in es
    requires IsLocal(localPlayer, h)
    ensures LiveSends(h, keys, es, localPlayer, decide) == []
    decreases |keys|
  {
    if keys != [] {
      var last := keys[|keys| - 1];
      LocalPlayerHearsNothingLive(h, keys[..|keys| - 1], es, localPlayer, decide);
      LiveMessagesMeaning(h, last, es[last], localPlayer, decide);
    }
  }

  // ---------------------------------------------------------------------
  // Settling ownership and the resulting table
  // ---------------------------------------------------------------------

  /**
   * The bookkeeping at the end of an entry's live pass: a changed owner is
   * acknowledged (flag cleared, previous owner forgotten), and an owner
   * that is no longer among `handles` is dropped.
   */
  function Settled(e: ServerEntity, handles: seq<Player>): ServerEntity {
    var acknowledged := if e.ownerChanged then e.(lastOwner := None, ownerChanged := false) else e;
    if acknowledged.owner.Some? && acknowledged.owner.value !in handles then acknowledged.(owner := None) else acknowledged
  }

  /** The table `server_entities_diff` leaves: the live entries of the marked table, each settled. */
  function Diffed(es: EntityTable, world: set<NetworkEntity>, handles: seq<Player>): EntityTable {
    map k | k in world :: Settled(Marked(es, world)[k], handles)
  }

  /**
   * After the diff the table's keys are exactly the live handles, each
   * entry exists, no owner change is pending, every owner is one of the
   * players, an owner that still is a player is kept, and an entry still
   * keyed by its own handle.
   */
  lemma DiffedShape(es: EntityTable, world: set<NetworkEntity>, handles: seq<Player>)
    requires EntitiesKeyed(es)
    ensures var d := Diffed(es, world, handles);
      d.Keys == world &&
      EntitiesKeyed(d) &&
      forall k :: k in d ==>
        var before := Marked(es, world)[k];
        d[k].present &&
        !d[k].ownerChanged &&
        (d[k].owner.Some? ==> d[k].owner.value in handles) &&
        (before.owner.Some? && before.owner.value in handles ==> d[k].owner == before.owner) &&
        (d[k].lastOwner == if before.ownerChanged then None else before.lastOwner)
  {
    var d := Diffed(es, world, handles);
    forall k | k in d
      ensures d[k].handle == k && d[k].present
    {
      MarkedShape(es, world, k);
    }
  }

  // ---------------------------------------------------------------------
  // The step
  // ---------------------------------------------------------------------

  /**
   * `server_entities_diff` on a server whose table is walked in `order`
   * (duplicate-free, covering every old and every live handle). The table
   * ends as `Diffed`; the players are sent the despawns of the vanished
   * entries and then the live-loop messages, in walk order.
   */
  method ServerEntitiesDiff(server: NetworkServer, world: set<NetworkEntity>, order: seq<NetworkEntity>, decide: Decide)
    requires server.Valid()
    requires NoDup(order)
    requires forall k :: k in order <==> k in server.entities || k in world
    modifies server`entities, server`players
    ensures server.Valid()
    ensures server.entities == Diffed(old(server.entities), world, PlayerHandles(old(server.players)))
    ensures server.players == LivePasses(
      FanOutAll(old(server.players), DespawnDispatches(Vanished(order, world), server.localPlayer, server.relevancy.relevancy)),
      Live(order, world), Marked(old(server.entities), world), server.localPlayer, decide)
  {
    ghost var es0 := server.entities;
    ghost var ps0 := server.players;
    ghost var table := server.relevancy.relevancy;
    MarkAllAbsent(server);
    MarkLive(server, world, es0);
    ghost var marked := server.entities;
    MarkedCoversOrder(es0, world, order);
    SendDespawns(server, world, order);
    FanOutAllKeepsHandles(ps0, DespawnDispatches(Vanished(order, world), server.localPlayer, table));
    RetainExisting(server);
    RetainedIsLive(es0, world);
    SendLive(server, world, order, marked, decide, PlayerHandles(ps0));
    DiffedShape(es0, world, PlayerHandles(ps0));
    ghost var despawned := FanOutAll(ps0, DespawnDispatches(Vanished(order, world), server.localPlayer, table));
    FanOutAllKeepsPrefix(ps0, DespawnDispatches(Vanished(order, world), server.localPlayer, table));
    LivePassesKeepPrefix(despawned, Live(order, world), marked, server.localPlayer, decide);
  }

  /** The live loop keeps the initialized players first. */
  lemma LivePassesKeepPrefix(ps: seq<ServerPlayer>, keys: seq<NetworkEntity>, es: EntityTable, localPlayer: Option<Player>, decide: Decide)
    requires forall k :: k in keys ==> k in es
    requires InitializedPrefix(ps)
    ensures InitializedPrefix(LivePasses(ps, keys, es, localPlayer, decide))
  {
    LivePassesAppendLiveSends(ps, keys, es, localPlayer, decide);
    SameFlagsKeepPrefix(ps, LivePasses(ps, keys, es, localPlayer, decide));
  }

  /** The walk order visits the marked table, whose existing entries are the live ones. */
  lemma MarkedCoversOrder(es: EntityTable, world: set<NetworkEntity>, order: seq<NetworkEntity>)
    requires forall k :: k in order <==> k in es || k in world
    ensures forall k :: k in order ==> k in Marked(es, world) && (Marked(es, world)[k].present <==> k in world)
  {
    forall k | k in order
      ensures k in Marked(es, world) && (Marked(es, world)[k].present <==> k in world)
    {
      MarkedShape(es, world, k);
    }
  }

  /** Keeping the existing entries of the marked table keeps exactly the live handles. */
  lemma RetainedIsLive(es: EntityTable, world: set<NetworkEntity>)
    ensures var m := Marked(es, world);
      var kept := map k | k in m && m[k].present :: m[k];
      (forall k :: k in kept <==> k in world) &&
      (forall k :: k in world ==> k in m && kept[k] == m[k])
  {
    var m := Marked(es, world);
    forall k
      ensures k in m && m[k].present <==> k in world
    {
      MarkedShape(es, world, k);
    }
  }

  /** Fan-out passes keep every player's handle in place. */
  lemma FanOutAllKeepsHandles(ps: seq<ServerPlayer>, ds: seq<Dispatch>)
    ensures PlayerHandles(FanOutAll(ps, ds)) == PlayerHandles(ps)
  {
    FanOutAllAppendsSends(ps, ds);
  }

  /** `entities.retain(|_, entity| entity.exists)`. */
  method RetainExisting(server: NetworkServer)
    modifies server`entities
    ensures server.entities == map k | k in old(server.entities) && old(server.entities)[k].present :: old(server.entities)[k]
  {
    server.entities := map k | k in server.entities && server.entities[k].present :: server.entities[k];
  }

  /** The first loop, over the table in any order. */
  method MarkAllAbsent(server: NetworkServer)
    modifies server`entities
    ensures server.entities == Absent(old(server.entities))
  {
    ghost var es := server.entities;
    var todo := server.entities.Keys;
    while todo != {}
      invariant todo <= es.Keys
      invariant server.entities == map k | k in es :: if k in todo then es[k] else es[k].(present := false)
      decreases todo
    {
      var k :| k in todo;
      server.entities := server.entities[k := server.entities[k].(present := false)];
      todo := todo - {k};
    }
  }

  /** The second loop, over the live handles in any order: `get_or_insert_entity(h).exists = true`. */
  method MarkLive(server: NetworkServer, world: set<NetworkEntity>, ghost es0: EntityTable)
    requires EntitiesKeyed(es0) && InitializedPrefix(server.players)
    requires server.entities == Absent(es0)
    modifies server`entities
    ensures server.entities == Marked(es0, world)
    ensures EntitiesKeyed(server.entities)
  {
    ghost var es := server.entities;
    var todo := world;
    ghost var seen: set<NetworkEntity> := {};
    while todo != {}
      invariant todo + seen == world && todo !! seen
      invariant server.entities == Revived(es, seen)
      invariant EntitiesKeyed(server.entities)
      decreases todo
    {
      var k :| k in todo;
      ghost var before := server.entities;
      var e := server.GetOrInsertEntity(k);
      server.entities := server.entities[k := e.(present := true)];
      RevivedStep(es, seen, k, before, e);
      todo := todo - {k};
      seen := seen + {k};
    }
  }

  /** One more visited live handle: its entry (old or new) is marked as existing. */
  lemma RevivedStep(es: EntityTable, seen: set<NetworkEntity>, k: NetworkEntity, cur: EntityTable, e: ServerEntity)
    requires cur == Revived(es, seen) && k !in seen
    requires e == if k in cur then cur[k] else NewEntity(k)
    ensures Revived(es, seen + {k}) == cur[k := e.(present := true)]
  {
  }

  /** The third loop, over the table in walk order. */
  method SendDespawns(server: NetworkServer, world: set<NetworkEntity>, order: seq<NetworkEntity>)
    requires forall k :: k in order ==> k in server.entities && (server.entities[k].present <==> k in world)
    modifies server`players
    ensures server.players == FanOutAll(old(server.players), DespawnDispatches(Vanished(order, world), server.localPlayer, server.relevancy.relevancy))
  {
    ghost var ps := server.players;
    ghost var table := server.relevancy.relevancy;
    var i := 0;
    while i < |order|
      invariant 0 <= i <= |order|
      invariant server.players == FanOutAll(ps, DespawnDispatches(Vanished(order[..i], world), server.localPlayer, table))
    {
      var k := order[i];
      ghost var before := server.players;
      if !server.entities[k].present {
        server.Broadcast(RelevantTo(server.localPlayer, server.relevancy.relevancy, k), EntityDespawn(k));
      }
      DespawnPassStep(ps, before, server.players, order, i, world, server.localPlayer, table);
      i := i + 1;
    }
    assert order[..i] == order;
  }

  /** The live loop, over the remaining table in walk order. */
  method SendLive(server: NetworkServer, world: set<NetworkEntity>, order: seq<NetworkEntity>, ghost marked: EntityTable,
                  decide: Decide, ghost handles: seq<Player>)
    requires NoDup(order) && forall k :: k in world ==> k in order
    requires forall k :: k in server.entities <==> k in world
    requires forall k :: k in world ==> k in marked && server.entities[k] == marked[k]
    requires PlayerHandles(server.players) == handles
    modifies server`entities, server`players
    ensures server.entities == map k | k in world :: Settled(marked[k], handles)
    ensures server.players == LivePasses(old(server.players), Live(order, world), marked, server.localPlayer, decide)
  {
    ghost var ps := server.players;
    assert order[..0] == [];
    var i := 0;
    while i < |order|
      invariant 0 <= i <= |order|
      invariant LiveUpTo(server, ps, order, i, world, marked, decide, handles)
    {
      VisitLive(server, ps, order, i, world, marked, decide, handles);
      i := i + 1;
    }
    assert order[..i] == order;
    assert forall k :: k in order[..i] <==> k in order;
    SettledAll(server.entities, order, world, marked, handles);
  }

  /** The live loop's invariant after `i` steps of the walk. */
  ghost predicate LiveUpTo(server: NetworkServer, ps: seq<ServerPlayer>, order: seq<NetworkEntity>, i: nat, world: set<NetworkEntity>,
                           marked: EntityTable, decide: Decide, handles: seq<Player>)
    reads server
  {
    i <= |order| &&
    SettledUpTo(server.entities, order, i, world, marked, handles) &&
    server.players == LivePasses(ps, Live(order[..i], world), marked, server.localPlayer, decide) &&
    PlayerHandles(server.players) == handles
  }

  /** One step of the live loop: offer the entry `order[i]`, if live, to every player, then settle it. */
  method VisitLive(server: NetworkServer, ghost ps: seq<ServerPlayer>, order: seq<NetworkEntity>, i: nat, world: set<NetworkEntity>,
                   ghost marked: EntityTable, decide: Decide, ghost handles: seq<Player>)
    requires i < |order| && NoDup(order)
    requires LiveUpTo(server, ps, order, i, world, marked, decide, handles)
    modifies server`entities, server`players
    ensures LiveUpTo(server, ps, order, i + 1, world, marked, decide, handles)
  {
    var k := order[i];
    ghost var before := server.players;
    ghost var esBefore := server.entities;
    if k in server.entities {
      var e := server.entities[k];
      OfferEntity(server, k, e, decide);
      EntityPassKeepsHandles(before, k, e, server.localPlayer, decide);
      var settled := SettleEntity(server, e);
      server.entities := server.entities[k := settled];
    }
    LivePassStep(ps, before, server.players, order, i, world, marked, server.localPlayer, decide);
    SettledStep(esBefore, server.entities, order, i, world, marked, handles);
  }

  /** The live loop's table invariant: the entries visited so far are settled, the others as marked. */
  ghost predicate SettledUpTo(es: EntityTable, order: seq<NetworkEntity>, i: nat, world: set<NetworkEntity>, marked: EntityTable, handles: seq<Player>)
    requires i <= |order|
  {
    (forall k :: k in es <==> k in world) &&
    (forall k :: k in world ==> k in marked && es[k] == if k in order[..i] then Settled(marked[k], handles) else marked[k])
  }

  /** One step of the walk keeps the table invariant. */
  lemma SettledStep(before: EntityTable, after: EntityTable, order: seq<NetworkEntity>, i: nat, world: set<NetworkEntity>,
                    marked: EntityTable, handles: seq<Player>)
    requires i < |order| && NoDup(order)
    requires SettledUpTo(before, order, i, world, marked, handles)
    requires after == if order[i] in before then before[order[i] := Settled(before[order[i]], handles)] else before
    ensures SettledUpTo(after, order, i + 1, world, marked, handles)
  {
    assert order[..i + 1] == order[..i] + [order[i]];
    assert order[i] !in order[..i];
  }

  /** Once the walk covers the whole table, every entry is settled. */
  lemma SettledAll(es: EntityTable, order: seq<NetworkEntity>, world: set<NetworkEntity>, marked: EntityTable, handles: seq<Player>)
    requires SettledUpTo(es, order, |order|, world, marked, handles)
    requires forall k :: k in world ==> k in order
    ensures es == map k | k in world :: Settled(marked[k], handles)
  {
    assert order[..|order|] == order;
  }

  /** The live loop's player invariant is kept by one step of the walk. */
  lemma LivePassStep(ps: seq<ServerPlayer>, before: seq<ServerPlayer>, after: seq<ServerPlayer>, order: seq<NetworkEntity>, i: nat,
                     world: set<NetworkEntity>, marked: EntityTable, localPlayer: Option<Player>, decide: Decide)
    requires i < |order|
    requires forall k :: k in world ==> k in marked
    requires before == LivePasses(ps, Live(order[..i], world), marked, localPlayer, decide)
    requires after == if order[i] in world then EntityPass(before, order[i], marked[order[i]], localPlayer, decide) else before
    ensures after == LivePasses(ps, Live(order[..i + 1], world), marked, localPlayer, decide)
  {
    LiveStep(order, i, world);
    var keys := Live(order[..i], world);
    if order[i] in world {
      LivePassesSnoc(ps, keys, order[i], marked, localPlayer, decide);
    } else {
      assert keys + [] == keys;
    }
  }

  /** One more step of the walk adds at most one despawn pass. */
  lemma DespawnStep(order: seq<NetworkEntity>, i: nat, world: set<NetworkEntity>, localPlayer: Option<Player>, table: Table)
    requires i < |order|
    ensures DespawnDispatches(Vanished(order[..i + 1], world), localPlayer, table)
         == DespawnDispatches(Vanished(order[..i], world), localPlayer, table)
            + (if order[i] in world then [] else [Dispatch(RelevantTo(localPlayer, table, order[i]), EntityDespawn(order[i]))])
  {
    assert order[..i + 1][..i] == order[..i];
    var before := Vanished(order[..i], world);
    var vs := Vanished(order[..i + 1], world);
    if order[i] in world {
      assert vs == before + [];
      assert before + [] == before;
      var ds := DespawnDispatches(before, localPlayer, table);
      assert ds + [] == ds;
    } else {
      assert vs == before + [order[i]];
      assert vs[..|vs| - 1] == before;
    }
  }

  /** The despawn loop's invariant is kept by one step of the walk. */
  lemma DespawnPassStep(ps: seq<ServerPlayer>, before: seq<ServerPlayer>, after: seq<ServerPlayer>,
                        order: seq<NetworkEntity>, i: nat, world: set<NetworkEntity>, localPlayer: Option<Player>, table: Table)
    requires i < |order|
    requires before == FanOutAll(ps, DespawnDispatches(Vanished(order[..i], world), localPlayer, table))
    requires after == if order[i] in world then before else FanOut(before, RelevantTo(localPlayer, table, order[i]), EntityDespawn(order[i]))
    ensures after == FanOutAll(ps, DespawnDispatches(Vanished(order[..i + 1], world), localPlayer, table))
  {
    DespawnStep(order, i, world, localPlayer, table);
    var ds := DespawnDispatches(Vanished(order[..i], world), localPlayer, table);
    if order[i] in world {
      assert ds + [] == ds;
    } else {
      FanOutAllSnoc(ps, ds, Dispatch(RelevantTo(localPlayer, table, order[i]), EntityDespawn(order[i])));
    }
  }

  /** A fan-out pass after the others. */
  lemma FanOutAllSnoc(ps: seq<ServerPlayer>, ds: seq<Dispatch>, d: Dispatch)
    ensures FanOutAll(ps, ds + [d]) == FanOut(FanOutAll(ps, ds), d.audience, d.message)
  {
    assert (ds + [d])[..|ds|] == ds;
  }

  /** One more step of the walk adds at most one live entry. */
  lemma LiveStep(order: seq<NetworkEntity>, i: nat, world: set<NetworkEntity>)
    requires i < |order|
    ensures Live(order[..i + 1], world) == Live(order[..i], world) + (if order[i] in world then [order[i]] else [])
  {
    assert order[..i + 1][..i] == order[..i];
  }

  /** An inner pass after the others. */
  lemma LivePassesSnoc(ps: seq<ServerPlayer>, keys: seq<NetworkEntity>, k: NetworkEntity, es: EntityTable, localPlayer: Option<Player>, decide: Decide)
    requires forall k' :: k' in keys ==> k' in es
    requires k in es
    ensures LivePasses(ps, keys + [k], es, localPlayer, decide) == EntityPass(LivePasses(ps, keys, es, localPlayer, decide), k, es[k], localPlayer, decide)
  {
    assert (keys + [k])[..|keys|] == keys;
  }

  /** One inner pass keeps every player's handle in place. */
  lemma EntityPassKeepsHandles(ps: seq<ServerPlayer>, k: NetworkEntity, e: ServerEntity, localPlayer: Option<Player>, decide: Decide)
    ensures PlayerHandles(EntityPass(ps, k, e, localPlayer, decide)) == PlayerHandles(ps)
  {
  }

  /** The inner loop: offer the entry `e` stored under `k` to every player. */
  method OfferEntity(server: NetworkServer, k: NetworkEntity, e: ServerEntity, decide: Decide)
    modifies server`players
    ensures server.players == EntityPass(old(server.players), k, e, server.localPlayer, decide)
  {
    ghost var ps := server.players;
    var i := 0;
    while i < |server.players|
      invariant 0 <= i <= |server.players| == |ps|
      invariant forall x :: 0 <= x < i ==> server.players[x] == Appended(ps[x], LiveMessages(ps[x].handle, k, e, server.localPlayer, decide))
      invariant forall x :: i <= x < |ps| ==> server.players[x] == ps[x]
    {
      var p := OfferTo(server.players[i], k, e, server.localPlayer, decide);
      server.players := server.players[i := p];
      i := i + 1;
    }
  }

  /** The body of the inner loop for one player: send, one by one, what `LiveMessages` lists. */
  method OfferTo(p: ServerPlayer, k: NetworkEntity, e: ServerEntity, localPlayer: Option<Player>, decide: Decide) returns (r: ServerPlayer)
    ensures r == Appended(p, LiveMessages(p.handle, k, e, localPlayer, decide))
  {
    var isLocal := if localPlayer.Some? then p.handle == localPlayer.value else false;
    var isOwner := if e.owner.Some? then e.owner.value == p.handle else isLocal;
    var afterDecision := SendDecision(p, k, decide(p.handle, e, isOwner || isLocal), isLocal);
    r := SendOwnership(afterDecision, e, isLocal);
    AppendedTwice(p, RelevancyMessages(k, decide(p.handle, e, isOwner || isLocal), isLocal), OwnershipMessages(p.handle, e, isLocal));
  }

  /** Appending twice appends the concatenation. */
  lemma AppendedTwice(p: ServerPlayer, a: seq<NetworkMessage>, b: seq<NetworkMessage>)
    ensures Appended(Appended(p, a), b) == Appended(p, a + b)
  {
    assert p.socket.outbox + a + b == p.socket.outbox + (a + b);
  }

  /** The `match` on the relevancy decision. */
  method SendDecision(p: ServerPlayer, k: NetworkEntity, state: NetworkRelevancyState, isLocal: bool) returns (r: ServerPlayer)
    ensures r == Appended(p, RelevancyMessages(k, state, isLocal))
  {
    r := p;
    match state {
      case Spawn =>
        if !isLocal {
          r := Deliver(r, EntitySpawn(k));
        }
      case Despawn =>
        if !isLocal {
          r := Deliver(r, EntityDespawn(k));
        }
      case Relevant =>
      case Irrelevant =>
    }
    assert p.socket.outbox + [] == p.socket.outbox;
  }

  /** The `owner_changed` block for one player. */
  method SendOwnership(p: ServerPlayer, e: ServerEntity, isLocal: bool) returns (r: ServerPlayer)
    ensures r == Appended(p, OwnershipMessages(p.handle, e, isLocal))
  {
    var toNew := if e.ownerChanged && e.owner.Some? && e.owner.value == p.handle && !isLocal then [EntityOwner(e.handle, true)] else [];
    var toPrevious := if e.ownerChanged && e.lastOwner.Some? && e.lastOwner.value == p.handle && !isLocal then [EntityOwner(e.handle, false)] else [];
    r := p;
    if e.ownerChanged {
      if e.owner.Some? && e.owner.value == p.handle && !isLocal {
        r := Deliver(r, EntityOwner(e.handle, true));
      }
      if e.lastOwner.Some? && e.lastOwner.value == p.handle && !isLocal {
        r := Deliver(r, EntityOwner(e.handle, false));
      }
    }
    assert r.socket.outbox == p.socket.outbox + toNew + toPrevious;
    assert p.socket.outbox + toNew + toPrevious == p.socket.outbox + (toNew + toPrevious);
  }

  /** The bookkeeping after the inner loop: acknowledge an owner change, drop an owner who left. */
  method SettleEntity(server: NetworkServer, e: ServerEntity) returns (r: ServerEntity)
    ensures r == Settled(e, PlayerHandles(server.players))
  {
    r := e;
    if r.ownerChanged {
      r := r.(lastOwner := None, ownerChanged := false);
    }
    if r.owner.Some? {
      if r.owner.value !in PlayerHandles(server.players) {
        r := r.(owner := None);
      }
    }
  }
}
