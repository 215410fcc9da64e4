/**
 * `server_receive_messages_from_players`: the server reads at most one
 * message from each player per tick, in player order, and routes it. A game
 * event goes to the server's own queue; an entity event from a client goes
 * to the entity's owner (the server itself, or the owning player's socket);
 * an entity event from an owner goes to every other player the entity is
 * relevant to. `server_send_entity_events` drains the queue of entity
 * messages the same way.
 */
module RoutingPipeline {
  import opened Wrappers
  import opened Handles
  import opened Payloads
  import opened Messages
  import opened Relevancy
  import opened Events
  import opened Server

  /** `p` with the oldest waiting message received (dropped from its inbox). */
  function Popped(p: ServerPlayer): (r: ServerPlayer)
    requires p.socket.inbox != []
    ensures r.handle == p.handle && r.initialized == p.initialized && r.data == p.data
    ensures r.socket.outbox == p.socket.outbox && r.socket.connected == p.socket.connected
    ensures p.socket.inbox == [p.socket.inbox[0]] + r.socket.inbox
  {
    p.(socket := p.socket.Receive().1)
  }

  /** Whether the server itself handles events for an entity with this owner. */
  predicate LocallyOwned(owner: Option<Player>, localPlayer: Option<Player>) {
    owner.None? || (localPlayer.Some? && localPlayer == owner)
  }

  /** `players.iter_mut().find(|p| p.handle == h)` followed by a send: only the first match is sent to. */
  function SendToFirst(ps: seq<ServerPlayer>, h: Player, m: NetworkMessage): (r: seq<ServerPlayer>)
    ensures |r| == |ps|
    ensures forall x :: 0 <= x < |ps| ==> r[x] == ps[x] || r[x] == Appended(ps[x], [m])
  {
    match FirstIndex(PlayerHandles(ps), h)
    case None => ps
    case Some(k) => ps[k := Deliver(ps[k], m)]
  }

  /**
   * One player's turn: receive one message, if any, and route it. Returns
   * the player list afterwards and what is handed to the server's own
   * queue.
   */
  function Route(ps: seq<ServerPlayer>, i: nat, localPlayer: Option<Player>,
                 entities: map<NetworkEntity, ServerEntity>, table: Table): (r: (seq<ServerPlayer>, seq<LocalDelivery>))
    requires i < |ps|
    ensures |r.0| == |ps|
  {
    var sender := ps[i];
    if sender.socket.inbox == [] then (ps, [])
    else
      var rest := ps[i := Popped(sender)];
      match sender.socket.inbox[0]
      case Event(data) => (rest, [ServerEvent(sender.handle, data)])
      case EntityEvent(e, from, data) =>
        if from.None? then
          (FanOut(rest, RelevantTo(Some(sender.handle), table, e), EntityEvent(e, None, data)), [])
        else if e !in entities then (rest, [])
        else if LocallyOwned(entities[e].owner, localPlayer) then (rest, [EntityEventDelivery(e, from, data)])
        else (SendToFirst(rest, entities[e].owner.value, EntityEvent(e, from, data)), [])
      case _ => (rest, [])
  }

  /** The turns of players `0` up to `n`, in player order. */
  function RouteAll(ps: seq<ServerPlayer>, n: nat, localPlayer: Option<Player>,
                    entities: map<NetworkEntity, ServerEntity>, table: Table): (r: (seq<ServerPlayer>, seq<LocalDelivery>))
    requires n <= |ps|
    ensures |r.0| == |ps|
    decreases n
  {
    if n == 0 then (ps, [])
    else
      var (before, delivered) := RouteAll(ps, n - 1, localPlayer, entities, table);
      var (after, more) := Route(before, n - 1, localPlayer, entities, table);
      (after, delivered + more)
  }

  /** The inbox a player's socket keeps after one message at most was received from it. */
  function AfterOneReceive(inbox: seq<NetworkMessage>): seq<NetworkMessage> {
    if inbox == [] then [] else inbox[1..]
  }

  /**
   * A turn changes no handle and no flag, only ever appends to outboxes,
   * receives at most one message, and only from the player whose turn it is.
   */
  lemma RouteOnlyReadsSender(ps: seq<ServerPlayer>, i: nat, localPlayer: Option<Player>,
                             entities: map<NetworkEntity, ServerEntity>, table: Table)
    requires i < |ps|
    ensures var r := Route(ps, i, localPlayer, entities, table).0;
      forall x :: 0 <= x < |ps| ==>
        r[x].handle == ps[x].handle && r[x].initialized == ps[x].initialized && r[x].data == ps[x].data &&
        r[x].socket.connected == ps[x].socket.connected &&
        r[x].socket.inbox == (if x == i then AfterOneReceive(ps[x].socket.inbox) else ps[x].socket.inbox) &&
        ps[x].socket.outbox <= r[x].socket.outbox
  {
    var r := Route(ps, i, localPlayer, entities, table).0;
    if ps[i].socket.inbox != [] {
      var rest := ps[i := Popped(ps[i])];
      var m := ps[i].socket.inbox[0];
      assert forall x :: 0 <= x < |ps| ==> r[x] == rest[x] || r[x] == Appended(rest[x], [m]) || r[x] == Appended(rest[x], [EntityEvent(m.entity, None, m.payload)]);
    }
  }

  /**
   * At most one message per player per tick: after all the turns each
   * player's inbox has lost exactly its oldest message (or nothing, if it
   * was empty), and handles and flags are as they were.
   */
  lemma {:induction false} ReadsAtMostOnePerPlayer(ps: seq<ServerPlayer>, n: nat, localPlayer: Option<Player>,
                                                  entities: map<NetworkEntity, ServerEntity>, table: Table)
    requires n <= |ps|
    ensures var r := RouteAll(ps, n, localPlayer, entities, table).0;
      forall x :: 0 <= x < |ps| ==>
        r[x].handle == ps[x].handle && r[x].initialized == ps[x].initialized &&
        r[x].socket.connected == ps[x].socket.connected &&
        r[x].socket.inbox == (if x < n then AfterOneReceive(ps[x].socket.inbox) else ps[x].socket.inbox)
    decreases n
  {
    if n > 0 {
      ReadsAtMostOnePerPlayer(ps, n - 1, localPlayer, entities, table);
      RouteOnlyReadsSender(RouteAll(ps, n - 1, localPlayer, entities, table).0, n - 1, localPlayer, entities, table);
    }
  }

  /** An entity event from the owner (no `from`) goes to every other player it is relevant to, never back to the sender. */
  lemma OwnerEventReachesRelevantOthers(ps: seq<ServerPlayer>, i: nat, localPlayer: Option<Player>,
                                        entities: map<NetworkEntity, ServerEntity>, table: Table,
                                        e: NetworkEntity, data: SerializedStruct)
    requires i < |ps| && ps[i].socket.inbox != [] && ps[i].socket.inbox[0] == EntityEvent(e, None, data)
    ensures var r := Route(ps, i, localPlayer, entities, table);
      r.1 == [] &&
      r.0[i].socket.outbox == ps[i].socket.outbox &&
      forall x :: 0 <= x < |ps| && x != i ==>
        r.0[x].socket.outbox == ps[x].socket.outbox +
          (if ps[x].handle != ps[i].handle && IsRelevant(table, ps[x].handle, e) then [EntityEvent(e, None, data)] else [])
  {
  }

  /** An entity event from a client for an entity the server does not know is dropped. */
  lemma UnknownEntityDropped(ps: seq<ServerPlayer>, i: nat, localPlayer: Option<Player>,
                             entities: map<NetworkEntity, ServerEntity>, table: Table,
                             e: NetworkEntity, from: Player, data: SerializedStruct)
    requires i < |ps| && ps[i].socket.inbox != [] && ps[i].socket.inbox[0] == EntityEvent(e, Some(from), data)
    requires e !in entities
    ensures Route(ps, i, localPlayer, entities, table) == (ps[i := Popped(ps[i])], [])
  {
  }

  /**
   * An entity event from a client for an entity with no owner, or owned by
   * the server's local player, is handed to the server's own queue and no
   * socket is sent anything.
   */
  lemma LocallyOwnedEventQueued(ps: seq<ServerPlayer>, i: nat, localPlayer: Option<Player>,
                                entities: map<NetworkEntity, ServerEntity>, table: Table,
                                e: NetworkEntity, from: Player, data: SerializedStruct)
    requires i < |ps| && ps[i].socket.inbox != [] && ps[i].socket.inbox[0] == EntityEvent(e, Some(from), data)
    requires e in entities && (entities[e].owner.None? || entities[e].owner == localPlayer)
    ensures Route(ps, i, localPlayer, entities, table) == (ps[i := Popped(ps[i])], [EntityEventDelivery(e, Some(from), data)])
  {
  }

  /**
   * An entity event from a client for an entity owned by another player is
   * forwarded, with its `from`, to the first player holding the owner's
   * handle and to nobody else; with no such player it is dropped.
   */
  lemma ForwardedOnlyToOwner(ps: seq<ServerPlayer>, i: nat, localPlayer: Option<Player>,
                             entities: map<NetworkEntity, ServerEntity>, table: Table,
                             e: NetworkEntity, from: Player, data: SerializedStruct)
    requires i < |ps| && ps[i].socket.inbox != [] && ps[i].socket.inbox[0] == EntityEvent(e, Some(from), data)
    requires e in entities && entities[e].owner.Some? && entities[e].owner != localPlayer
    ensures var r := Route(ps, i, localPlayer, entities, table);
      var rest := ps[i := Popped(ps[i])];
      var owner := entities[e].owner.value;
      r.1 == [] &&
      (forall x :: 0 <= x < |ps| && ps[x].handle != owner ==> r.0[x] == rest[x]) &&
      (forall x :: 0 <= x < |ps| && ps[x].handle == owner ==>
        r.0[x] == (if forall y :: 0 <= y < x ==> ps[y].handle != owner
                   then Appended(rest[x], [EntityEvent(e, Some(from), data)]) else rest[x]))
  {
    var rest := ps[i := Popped(ps[i])];
    var owner := entities[e].owner.value;
    var hs := PlayerHandles(rest);
    assert forall x :: 0 <= x < |ps| ==> hs[x] == ps[x].handle;
    match FirstIndex(hs, owner)
    case None =>
    case Some(k) =>
  }

  /** A game event is handed to the server's own queue, tagged with the sender's handle. */
  lemma GameEventTaggedWithSender(ps: seq<ServerPlayer>, i: nat, localPlayer: Option<Player>,
                                  entities: map<NetworkEntity, ServerEntity>, table: Table, data: SerializedStruct)
    requires i < |ps| && ps[i].socket.inbox != [] && ps[i].socket.inbox[0] == Event(data)
    ensures Route(ps, i, localPlayer, entities, table) == (ps[i := Popped(ps[i])], [ServerEvent(ps[i].handle, data)])
  {
  }

  /** The find-then-send of the forwarding branch. */
  method SendToOwner(server: NetworkServer, owner: Player, m: NetworkMessage)
    modifies server`players
    ensures server.players == SendToFirst(old(server.players), owner, m)
  {
    ghost var hs := PlayerHandles(server.players);
    var k := 0;
    while k < |server.players| && server.players[k].handle != owner
      invariant 0 <= k <= |server.players|
      invariant forall j :: 0 <= j < k ==> hs[j] != owner
    {
      k := k + 1;
    }
    if k < |server.players| {
      assert FirstIndex(hs, owner) == Some(k);
      server.players := server.players[k := Deliver(server.players[k], m)];
    } else {
      assert owner !in hs;
    }
  }

  /** One player's turn of `server_receive_messages_from_players`. */
  method RouteFrom(server: NetworkServer, i: nat) returns (delivered: seq<LocalDelivery>)
    requires i < |server.players|
    modifies server`players
    ensures (server.players, delivered) ==
      Route(old(server.players), i, server.localPlayer, server.entities, server.relevancy.relevancy)
  {
    delivered := [];
    var sender := server.players[i];
    var received := sender.socket.Receive();
    if received.0.Some? {
      server.players := server.players[i := sender.(socket := received.1)];
      match received.0.value {
        case Event(data) =>
          delivered := [ServerEvent(sender.handle, data)];
        case EntityEvent(e, from, data) =>
          if from.Some? {
            if e in server.entities {
              var entity := server.entities[e];
              if LocallyOwned(entity.owner, server.localPlayer) {
                delivered := [EntityEventDelivery(e, from, data)];
              } else {
                SendToOwner(server, entity.owner.value, EntityEvent(e, from, data));
              }
            }
          } else {
            server.Broadcast(RelevantTo(Some(sender.handle), server.relevancy.relevancy, e), EntityEvent(e, None, data));
          }
        case _ =>
      }
    }
  }

  /**
   * `server_receive_messages_from_players`: every player, in list order,
   * has its turn; the player list and the events for the server's own queue
   * are those `RouteAll` describes.
   */
  method ServerReceiveMessagesFromPlayers(server: NetworkServer) returns (delivered: seq<LocalDelivery>)
    requires server.Valid()
    modifies server`players
    ensures server.Valid()
    ensures (server.players, delivered) ==
      RouteAll(old(server.players), |old(server.players)|, server.localPlayer, server.entities, server.relevancy.relevancy)
  {
    ghost var ps := server.players;
    delivered := [];
    var i := 0;
    while i < |server.players|
      invariant 0 <= i <= |server.players| == |ps|
      invariant (server.players, delivered) ==
        RouteAll(ps, i, server.localPlayer, server.entities, server.relevancy.relevancy)
    {
      var more := RouteFrom(server, i);
      delivered := delivered + more;
      i := i + 1;
    }
    ReadsAtMostOnePerPlayer(ps, |ps|, server.localPlayer, server.entities, server.relevancy.relevancy);
    SameFlagsKeepPrefix(ps, server.players);
  }

  /**
   * `server_send_entity_events`: the queued entity messages are sent in
   * queue order, each to every player the entity is relevant to, and the
   * queue ends up empty.
   */
  function EntityDispatches(queued: seq<(NetworkEntity, NetworkMessage)>, table: Table): (r: seq<Dispatch>)
    ensures |r| == |queued|
    ensures forall x :: 0 <= x < |queued| ==> r[x] == Dispatch(RelevantTo(None, table, queued[x].0), queued[x].1)
    decreases |queued|
  {
    if queued == [] then []
    else
      var last := queued[|queued| - 1];
      EntityDispatches(queued[..|queued| - 1], table) + [Dispatch(RelevantTo(None, table, last.0), last.1)]
  }

  /** `server_send_entity_events` on the server object: drain the queue as `EntityDispatches` describes, keeping the invariant. */
  method ServerSendEntityEvents(server: NetworkServer)
    requires server.Valid()
    modifies server`players, server`entityMessages
    ensures server.Valid()
    ensures server.entityMessages == []
    ensures server.players == FanOutAll(old(server.players), EntityDispatches(old(server.entityMessages), server.relevancy.relevancy))
  {
    ghost var ps := server.players;
    ghost var queued := server.entityMessages;
    DrainEntityMessages(server);
    FanOutAllKeepsPrefix(ps, EntityDispatches(queued, server.relevancy.relevancy));
  }

  /** The `while let` loop of `server_send_entity_events`. */
  method DrainEntityMessages(server: NetworkServer)
    modifies server`players, server`entityMessages
    ensures server.entityMessages == []
    ensures server.players == FanOutAll(old(server.players), EntityDispatches(old(server.entityMessages), server.relevancy.relevancy))
  {
    ghost var ps := server.players;
    ghost var queued := server.entityMessages;
    ghost var n := 0;
    assert queued[..0] == [] && queued[0..] == queued;
    while server.entityMessages != []
      invariant DrainedUpTo(server, ps, queued, n)
      decreases |queued| - n
    {
      DrainNext(server, ps, queued, n);
      n := n + 1;
    }
    assert queued[..n] == queued;
  }

  /** The loop's invariant after `n` queued messages: they are sent and gone from the queue. */
  ghost predicate DrainedUpTo(server: NetworkServer, ps: seq<ServerPlayer>, queued: seq<(NetworkEntity, NetworkMessage)>, n: nat)
    reads server, server.relevancy
  {
    n <= |queued| && server.entityMessages == queued[n..] &&
    server.players == FanOutAll(ps, EntityDispatches(queued[..n], server.relevancy.relevancy))
  }

  /** One pass of the loop: pop the oldest queued message and send it to everyone the entity is relevant to. */
  method DrainNext(server: NetworkServer, ghost ps: seq<ServerPlayer>, ghost queued: seq<(NetworkEntity, NetworkMessage)>, ghost n: nat)
    requires DrainedUpTo(server, ps, queued, n) && server.entityMessages != []
    modifies server`players, server`entityMessages
    ensures DrainedUpTo(server, ps, queued, n + 1)
  {
    var (entity, message) := server.entityMessages[0];
    assert (entity, message) == queued[n];
    server.entityMessages := server.entityMessages[1..];
    server.Broadcast(RelevantTo(None, server.relevancy.relevancy, entity), message);
    assert queued[..n + 1][..n] == queued[..n];
    assert queued[n + 1..] == queued[n..][1..];
  }

  /** The queued messages whose entity is relevant to `h`, in queue order. */
  function RelevantMessages(queued: seq<(NetworkEntity, NetworkMessage)>, table: Table, h: Player): seq<NetworkMessage>
    decreases |queued|
  {
    if queued == [] then []
    else
      var last := queued[|queued| - 1];
      RelevantMessages(queued[..|queued| - 1], table, h) + (if IsRelevant(table, h, last.0) then [last.1] else [])
  }

  /**
   * Every player receives, in queue order, exactly the queued entity
   * messages whose entity is relevant to it, and nothing else changes.
   */
  lemma {:induction false} EntityMessagesReachRelevantPlayers(ps: seq<ServerPlayer>, queued: seq<(NetworkEntity, NetworkMessage)>, table: Table)
    ensures var r := FanOutAll(ps, EntityDispatches(queued, table));
      |r| == |ps| &&
      forall x :: 0 <= x < |ps| ==> r[x] == Appended(ps[x], RelevantMessages(queued, table, ps[x].handle))
  {
    FanOutAllAppendsSends(ps, EntityDispatches(queued, table));
    forall x | 0 <= x < |ps|
      ensures Sends(EntityDispatches(queued, table), ps[x].handle) == RelevantMessages(queued, table, ps[x].handle)
    {
      SendsAreRelevantMessages(queued, table, ps[x].handle);
    }
  }

  lemma {:induction false} SendsAreRelevantMessages(queued: seq<(NetworkEntity, NetworkMessage)>, table: Table, h: Player)
    ensures Sends(EntityDispatches(queued, table), h) == RelevantMessages(queued, table, h)
    decreases |queued|
  {
    if queued != [] {
      var init := queued[..|queued| - 1];
      SendsAreRelevantMessages(init, table, h);
      var ds := EntityDispatches(queued, table);
      assert ds[..|ds| - 1] == EntityDispatches(init, table);
    }
  }
}
