/**
 * `client_receive_messages`: the client drains its socket and applies each
 * message in arrival order to its roster, its `existing_player_flag` and
 * its entity mirror, queueing the application events that go with them.
 */
module ClientPipeline {
  import opened Wrappers
  import opened Handles
  import opened Payloads
  import opened Messages
  import opened Events
  import opened Client

  /** The part of the client that received messages change. */
  datatype ClientView = ClientView(
    players: seq<ClientPlayer>,
    existingPlayerFlag: bool,
    entities: map<NetworkEntity, ClientEntity>)

  /** What received messages hand to the application, per queue, in order. */
  datatype ClientOutput = ClientOutput(
    joins: seq<PlayerJoinEvent>,
    leaves: seq<PlayerLeaveEvent>,
    network: seq<SerializedStruct>,
    deliveries: seq<LocalDelivery>)

  const NoOutput := ClientOutput([], [], [], [])

  function Concat(a: ClientOutput, b: ClientOutput): ClientOutput {
    ClientOutput(a.joins + b.joins, a.leaves + b.leaves, a.network + b.network, a.deliveries + b.deliveries)
  }

  /** `players.retain(|p| p.handle != player)`. */
  function WithoutHandle(ps: seq<ClientPlayer>, h: Player): (r: seq<ClientPlayer>)
    ensures forall x :: 0 <= x < |r| ==> r[x].handle != h && r[x] in ps
    ensures forall p :: p in ps && p.handle != h ==> p in r
    ensures |r| <= |ps|
    decreases |ps|
  {
    if ps == [] then []
    else
      var last := ps[|ps| - 1];
      WithoutHandle(ps[..|ps| - 1], h) + (if last.handle != h then [last] else [])
  }

  /**
   * `retain` keeps order: filtering a roster split in two is filtering
   * each part and joining the results, so surviving entries keep their
   * relative positions and none is repeated.
   */
  lemma {:induction false} WithoutHandleAppend(a: seq<ClientPlayer>, b: seq<ClientPlayer>, h: Player)
    ensures WithoutHandle(a + b, h) == WithoutHandle(a, h) + WithoutHandle(b, h)
    decreases |b|
  {
    if b == [] {
      assert a + b == a;
    } else {
      var last := b[|b| - 1];
      assert (a + b)[..|a + b| - 1] == a + b[..|b| - 1];
      WithoutHandleAppend(a, b[..|b| - 1], h);
    }
  }

  /** The client after one message. Messages the client has no use for change nothing. */
  function ClientStep(v: ClientView, m: NetworkMessage): ClientView {
    match m
    case PlayerJoin(p, me, data) =>
      v.(players := v.players + [ClientPlayer(p, data)], existingPlayerFlag := v.existingPlayerFlag && !me)
    case PlayerLeave(p) => v.(players := WithoutHandle(v.players, p))
    case EntitySpawn(e) => v.(entities := v.entities[e := SpawnedEntity])
    case EntityDespawn(e) =>
      if e in v.entities then v.(entities := v.entities[e := v.entities[e].(present := false)]) else v
    case EntityOwner(e, owner) =>
      if e in v.entities then v.(entities := v.entities[e := v.entities[e].(owner := owner)]) else v
    case _ => v
  }

  /** The events one message produces, given the client before it. */
  function StepOutput(v: ClientView, m: NetworkMessage): ClientOutput {
    match m
    case PlayerJoin(p, me, _) =>
      NoOutput.(joins := [PlayerJoinEvent(p, me, v.existingPlayerFlag && !me)])
    case PlayerLeave(p) => NoOutput.(leaves := [PlayerLeaveEvent(p)])
    case Event(data) => NoOutput.(network := [data])
    case EntityEvent(e, from, data) => NoOutput.(deliveries := [EntityEventDelivery(e, from, data)])
    case _ => NoOutput
  }

  /** The client after the messages `ms`, applied in order. */
  function Apply(v: ClientView, ms: seq<NetworkMessage>): ClientView
    decreases |ms|
  {
    if ms == [] then v else ClientStep(Apply(v, ms[..|ms| - 1]), ms[|ms| - 1])
  }

  /** Everything the messages `ms` hand to the application, in order. */
  function Output(v: ClientView, ms: seq<NetworkMessage>): ClientOutput
    decreases |ms|
  {
    if ms == [] then NoOutput
    else Concat(Output(v, ms[..|ms| - 1]), StepOutput(Apply(v, ms[..|ms| - 1]), ms[|ms| - 1]))
  }

  /** The roster entries announced by the `PlayerJoin` messages among `ms`, in order. */
  function Joined(ms: seq<NetworkMessage>): seq<ClientPlayer>
    decreases |ms|
  {
    if ms == [] then []
    else
      var m := ms[|ms| - 1];
      Joined(ms[..|ms| - 1]) + (if m.PlayerJoin? then [ClientPlayer(m.player, m.playerData)] else [])
  }

  /** Whether some `PlayerJoin` among `ms` tells the client that it is the player joining. */
  predicate SawMe(ms: seq<NetworkMessage>) {
    exists i :: 0 <= i < |ms| && ms[i].PlayerJoin? && ms[i].me
  }

  /** Without leaves, the roster grows by exactly the announced players, in arrival order. */
  lemma {:induction false} RosterAppendsInArrivalOrder(v: ClientView, ms: seq<NetworkMessage>)
    requires forall i :: 0 <= i < |ms| ==> !ms[i].PlayerLeave?
    ensures Apply(v, ms).players == v.players + Joined(ms)
    decreases |ms|
  {
    if ms != [] {
      RosterAppendsInArrivalOrder(v, ms[..|ms| - 1]);
    }
  }

  /**
   * `existing_player_flag` only ever goes from true to false: after the
   * messages `ms` it is true exactly when it was true before and none of
   * them was the client's own join.
   */
  lemma {:induction false} ExistingFlagUntilOwnJoin(v: ClientView, ms: seq<NetworkMessage>)
    ensures Apply(v, ms).existingPlayerFlag <==> v.existingPlayerFlag && !SawMe(ms)
    decreases |ms|
  {
    if ms != [] {
      var init := ms[..|ms| - 1];
      ExistingFlagUntilOwnJoin(v, init);
      if SawMe(ms) && !SawMe(init) {
        var i :| 0 <= i < |ms| && ms[i].PlayerJoin? && ms[i].me;
        assert i == |ms| - 1;
      }
      if SawMe(init) {
        var i :| 0 <= i < |init| && init[i].PlayerJoin? && init[i].me;
        assert ms[i] == init[i];
      }
    }
  }

  /**
   * The join event for each `PlayerJoin` carries the handle and `me` of the
   * message, and reports an existing player exactly when the flag was still
   * set and the message is not the client's own join.
   */
  lemma JoinEventReportsFlag(v: ClientView, p: Player, me: bool, data: SerializedStructMap)
    ensures var m := PlayerJoin(p, me, data);
      StepOutput(v, m).joins == [PlayerJoinEvent(p, me, ClientStep(v, m).existingPlayerFlag)] &&
      ClientStep(v, m).players == v.players + [ClientPlayer(p, data)]
  {
  }

  /** `PlayerLeave` removes every roster entry with that handle, keeps all others and queues one leave event. */
  lemma LeaveRemovesEveryEntry(v: ClientView, h: Player)
    ensures var r := ClientStep(v, PlayerLeave(h)).players;
      (forall x :: 0 <= x < |r| ==> r[x].handle != h) &&
      (forall p :: p in v.players ==> (p in r <==> p.handle != h)) &&
      StepOutput(v, PlayerLeave(h)) == NoOutput.(leaves := [PlayerLeaveEvent(h)])
  {
  }

  /**
   * The entity mirror: `EntitySpawn` (re)creates an uninitialized, present,
   * not-owned entry; `EntityDespawn` and `EntityOwner` change one flag of a
   * known entry; for an unknown handle they change nothing; no other entry
   * is touched.
   */
  lemma EntityMessagesTouchOneEntry(v: ClientView, m: NetworkMessage, e: NetworkEntity)
    requires m.EntitySpawn? || m.EntityDespawn? || m.EntityOwner?
    ensures var es := ClientStep(v, m).entities;
      (e != m.entity ==> (e in es <==> e in v.entities) && (e in es ==> es[e] == v.entities[e])) &&
      (e == m.entity && m.EntitySpawn? ==> e in es && es[e] == ClientEntity(false, true, None, false)) &&
      (e == m.entity && !m.EntitySpawn? ==> (e in es <==> e in v.entities)) &&
      (e == m.entity && m.EntityDespawn? && e in v.entities ==> es[e] == v.entities[e].(present := false)) &&
      (e == m.entity && m.EntityOwner? && e in v.entities ==> es[e] == v.entities[e].(owner := m.owner))
  {
  }

  /** Applying one more message extends the run by one step. */
  lemma ApplyOneMore(v: ClientView, ms: seq<NetworkMessage>, n: nat)
    requires n < |ms|
    ensures Apply(v, ms[..n + 1]) == ClientStep(Apply(v, ms[..n]), ms[n])
    ensures Output(v, ms[..n + 1]) == Concat(Output(v, ms[..n]), StepOutput(Apply(v, ms[..n]), ms[n]))
  {
    assert ms[..n + 1][..n] == ms[..n];
  }

  /** The client's current view. */
  function ViewOf(client: NetworkClient): ClientView
    reads client
  {
    ClientView(client.players, client.existingPlayerFlag, client.entities)
  }

  /** One message applied to the client object and the queues. */
  method ApplyMessage(client: NetworkClient, queue: EventQueue, m: NetworkMessage) returns (delivered: seq<LocalDelivery>)
    modifies client`players, client`existingPlayerFlag, client`entities
    modifies queue`playerJoinEvents, queue`playerLeaveEvents, queue`networkEvents
    ensures ViewOf(client) == ClientStep(old(ViewOf(client)), m)
    ensures var o := StepOutput(old(ViewOf(client)), m);
      queue.playerJoinEvents == old(queue.playerJoinEvents) + o.joins &&
      queue.playerLeaveEvents == old(queue.playerLeaveEvents) + o.leaves &&
      queue.networkEvents == old(queue.networkEvents) + o.network &&
      delivered == o.deliveries
  {
    delivered := [];
    match m {
      case PlayerJoin(player, me, data) =>
        if me {
          client.existingPlayerFlag := false;
        }
        client.players := client.players + [ClientPlayer(player, data)];
        queue.PlayerJoin(PlayerJoinEvent(player, me, client.existingPlayerFlag));
      case PlayerLeave(player) =>
        client.players := WithoutHandle(client.players, player);
        queue.PlayerLeave(PlayerLeaveEvent(player));
      case Event(data) =>
        queue.Network(data);
      case EntitySpawn(entity) =>
        client.entities := client.entities[entity := ClientEntity(false, true, None, false)];
      case EntityDespawn(entity) =>
        if entity in client.entities {
          client.entities := client.entities[entity := client.entities[entity].(present := false)];
        }
      case EntityOwner(entity, owner) =>
        if entity in client.entities {
          client.entities := client.entities[entity := client.entities[entity].(owner := owner)];
        }
      case EntityEvent(entity, from, data) =>
        delivered := [EntityEventDelivery(entity, from, data)];
      case PlayerInit(_, _) =>
    }
  }

  /** The client and the queues once the first `n` of the messages `ms` were applied. */
  ghost predicate AppliedUpTo(client: NetworkClient, queue: EventQueue, v0: ClientView, q0: Queues,
                              ms: seq<NetworkMessage>, n: nat, delivered: seq<LocalDelivery>)
    reads client, queue
    requires n <= |ms|
  {
    var o := Output(v0, ms[..n]);
    ViewOf(client) == Apply(v0, ms[..n]) &&
    queue.playerJoinEvents == q0.playerJoin + o.joins &&
    queue.playerLeaveEvents == q0.playerLeave + o.leaves &&
    queue.networkEvents == q0.network + o.network &&
    delivered == o.deliveries
  }

  /** The body of the receive loop for message `n`. */
  method ApplyNext(client: NetworkClient, queue: EventQueue, ghost v0: ClientView, ghost q0: Queues,
                   ghost ms: seq<NetworkMessage>, ghost n: nat, delivered: seq<LocalDelivery>, m: NetworkMessage)
    returns (delivered': seq<LocalDelivery>)
    requires n < |ms| && m == ms[n] && AppliedUpTo(client, queue, v0, q0, ms, n, delivered)
    modifies client`players, client`existingPlayerFlag, client`entities
    modifies queue`playerJoinEvents, queue`playerLeaveEvents, queue`networkEvents
    ensures AppliedUpTo(client, queue, v0, q0, ms, n + 1, delivered')
  {
    ApplyOneMore(v0, ms, n);
    ghost var o := Output(v0, ms[..n]);
    ghost var o1 := StepOutput(Apply(v0, ms[..n]), ms[n]);
    var d := ApplyMessage(client, queue, m);
    assert (q0.playerJoin + o.joins) + o1.joins == q0.playerJoin + (o.joins + o1.joins);
    assert (q0.playerLeave + o.leaves) + o1.leaves == q0.playerLeave + (o.leaves + o1.leaves);
    assert (q0.network + o.network) + o1.network == q0.network + (o.network + o1.network);
    delivered' := delivered + d;
  }

  /**
   * `client_receive_messages`: every message waiting on the socket is
   * received and applied in arrival order; the socket ends up with nothing
   * left to receive, and the client and the queues end up as `Apply` and
   * `Output` describe. Entity events for the application are returned.
   */
  method ClientReceiveMessages(client: NetworkClient, queue: EventQueue) returns (delivered: seq<LocalDelivery>)
    modifies client`socket, client`players, client`existingPlayerFlag, client`entities
    modifies queue`playerJoinEvents, queue`playerLeaveEvents, queue`networkEvents
    ensures client.socket == old(client.socket).(inbox := [])
    ensures ViewOf(client) == Apply(old(ViewOf(client)), old(client.socket.inbox))
    ensures var o := Output(old(ViewOf(client)), old(client.socket.inbox));
      queue.playerJoinEvents == old(queue.playerJoinEvents) + o.joins &&
      queue.playerLeaveEvents == old(queue.playerLeaveEvents) + o.leaves &&
      queue.networkEvents == old(queue.networkEvents) + o.network &&
      delivered == o.deliveries
  {
    ghost var v0 := ViewOf(client);
    ghost var ms := client.socket.inbox;
    ghost var q0 := queue.Contents();
    ghost var n := 0;
    delivered := [];
    assert ms[..0] == [];
    var message, rest := client.socket.Receive().0, client.socket.Receive().1;
    while message.Some?
      invariant 0 <= n <= |ms|
      invariant message.Some? ==> n < |ms| && message.value == ms[n] && rest == client.socket.(inbox := ms[n + 1..])
      invariant message.None? ==> n == |ms| && rest == client.socket
      invariant client.socket == old(client.socket).(inbox := ms[n..])
      invariant AppliedUpTo(client, queue, v0, q0, ms, n, delivered)
      decreases |ms| - n
    {
      client.socket := rest;
      delivered := ApplyNext(client, queue, v0, q0, ms, n, delivered, message.value);
      n := n + 1;
      message, rest := client.socket.Receive().0, client.socket.Receive().1;
    }
    assert ms[..n] == ms;
  }
}
