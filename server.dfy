/**
 * The server's bookkeeping (`NetworkServer`): the hosts it accepts from,
 * the joiners still waiting to introduce themselves, the players, the
 * authoritative entity table and the queue of entity messages; plus the
 * fan-out primitives that append one message to the sockets of a chosen
 * set of players.
 */
module Server {
  import opened Wrappers
  import opened Handles
  import opened Payloads
  import opened Messages
  import opened Relevancy

  /** `NetworkServerJoiner`: an accepted socket; `None` once it was promoted to a player. */
  datatype ServerJoiner = ServerJoiner(socket: Option<Socket>)

  /** `NetworkServerPlayer`. */
  datatype ServerPlayer = ServerPlayer(initialized: bool, handle: Player, socket: Socket, data: SerializedStructMap)

  /** `NetworkServerEntity`, with the ownership fields the tick pipeline reads and writes. */
  datatype ServerEntity = ServerEntity(
    handle: NetworkEntity,
    present: bool,  // the source's `exists` flag
    owner: Option<Player>,
    ownerChanged: bool,
    lastOwner: Option<Player>)

  /** A listening endpoint: `accept` hands out the sockets of its backlog, oldest first. */
  datatype Host = Host(backlog: seq<Socket>)

  /** The entry `get_or_insert_entity` creates for a handle it has not seen. */
  function NewEntity(h: NetworkEntity): ServerEntity {
    ServerEntity(h, true, None, false, None)
  }

  /** Every entry of the entity table is stored under its own handle. */
  ghost predicate EntitiesKeyed(es: map<NetworkEntity, ServerEntity>) {
    forall k :: k in es ==> es[k].handle == k
  }

  /** The initialized players form a prefix of the player list. */
  ghost predicate InitializedPrefix(ps: seq<ServerPlayer>) {
    forall i, j :: 0 <= i < j < |ps| && ps[j].initialized ==> ps[i].initialized
  }

  /** `p` with the messages `ms` appended to its socket and nothing else changed. */
  function Appended(p: ServerPlayer, ms: seq<NetworkMessage>): (r: ServerPlayer)
    ensures r.handle == p.handle && r.initialized == p.initialized && r.data == p.data
    ensures r.socket.inbox == p.socket.inbox && r.socket.connected == p.socket.connected
  {
    p.(socket := p.socket.(outbox := p.socket.outbox + ms))
  }

  /** `player.socket.send(m)`. */
  function Deliver(p: ServerPlayer, m: NetworkMessage): (r: ServerPlayer)
    ensures r == Appended(p, [m])
  {
    p.(socket := p.socket.Send(m))
  }

  /** The players one fan-out loop sends to, as a filter on the player's handle. */
  datatype Audience =
    | Everyone
      /** every player but the one whose handle is `excluded` (`send_to_all_except_local`) */
    | AllBut(excluded: Option<Player>)
      /** the players whose handle is listed (`send_to_players`) */
    | Listed(handles: seq<Player>)
      /** the players other than `excluded` to whom `entity` is relevant in `table` */
    | RelevantTo(excluded: Option<Player>, table: Table, entity: NetworkEntity)

  predicate Includes(a: Audience, h: Player) {
    match a
    case Everyone => true
    case AllBut(x) => x != Some(h)
    case Listed(hs) => h in hs
    case RelevantTo(x, t, e) => x != Some(h) && IsRelevant(t, h, e)
  }

  /**
   * One pass over the players sending `m` to each one `a` includes: every
   * included player's socket gets exactly `m` appended, every other player
   * is left as it was, and the list keeps its length and order.
   */
  function FanOut(ps: seq<ServerPlayer>, a: Audience, m: NetworkMessage): (r: seq<ServerPlayer>)
    ensures |r| == |ps|
    ensures forall x :: 0 <= x < |ps| ==> r[x] == (if Includes(a, ps[x].handle) then Appended(ps[x], [m]) else ps[x])
    decreases |ps|
  {
    if ps == [] then []
    else
      var last := ps[|ps| - 1];
      FanOut(ps[..|ps| - 1], a, m) + [if Includes(a, last.handle) then Deliver(last, m) else last]
  }

  /** With no local player, `send_to_all_except_local` sends to the same players as `send_to_all`. */
  lemma AllButNobodyIsEveryone(ps: seq<ServerPlayer>, m: NetworkMessage)
    ensures FanOut(ps, AllBut(None), m) == FanOut(ps, Everyone, m)
  {
  }

  /** `send_to_players` with an empty list sends nothing. */
  lemma ListedNobodySendsNothing(ps: seq<ServerPlayer>, m: NetworkMessage)
    ensures FanOut(ps, Listed([]), m) == ps
  {
  }

  /** `send_to_players` ignores a listed handle that no player has. */
  lemma ListedIgnoresUnknown(ps: seq<ServerPlayer>, hs: seq<Player>, unknown: Player, m: NetworkMessage)
    requires forall x :: 0 <= x < |ps| ==> ps[x].handle != unknown
    ensures FanOut(ps, Listed(hs + [unknown]), m) == FanOut(ps, Listed(hs), m)
  {
    var r1, r2 := FanOut(ps, Listed(hs + [unknown]), m), FanOut(ps, Listed(hs), m);
    forall x | 0 <= x < |ps|
      ensures r1[x] == r2[x]
    {
      assert ps[x].handle in hs + [unknown] <==> ps[x].handle in hs;
    }
  }

  /** One message and the players it goes to. */
  datatype Dispatch = Dispatch(audience: Audience, message: NetworkMessage)

  /** Fan-out passes performed one after another. */
  function FanOutAll(ps: seq<ServerPlayer>, ds: seq<Dispatch>): seq<ServerPlayer>
    decreases |ds|
  {
    if ds == [] then ps
    else
      var last := ds[|ds| - 1];
      FanOut(FanOutAll(ps, ds[..|ds| - 1]), last.audience, last.message)
  }

  /** The messages a player with handle `h` is sent by the passes `ds`, in order. */
  function Sends(ds: seq<Dispatch>, h: Player): (r: seq<NetworkMessage>)
    decreases |ds|
  {
    if ds == [] then []
    else
      var last := ds[|ds| - 1];
      Sends(ds[..|ds| - 1], h) + (if Includes(last.audience, h) then [last.message] else [])
  }

  /**
   * After a sequence of fan-out passes, each player's socket holds what it
   * held before followed by exactly the messages addressed to its handle,
   * in the order of the passes; nothing else about any player changes.
   */
  lemma {:induction false} FanOutAllAppendsSends(ps: seq<ServerPlayer>, ds: seq<Dispatch>)
    ensures |FanOutAll(ps, ds)| == |ps|
    ensures forall x :: 0 <= x < |ps| ==> FanOutAll(ps, ds)[x] == Appended(ps[x], Sends(ds, ps[x].handle))
    decreases |ds|
  {
    if ds == [] {
      forall x | 0 <= x < |ps|
        ensures ps[x] == Appended(ps[x], [])
      {
        assert ps[x].socket.outbox + [] == ps[x].socket.outbox;
      }
    } else {
      var init := ds[..|ds| - 1];
      FanOutAllAppendsSends(ps, init);
      var mid := FanOutAll(ps, init);
      var last := ds[|ds| - 1];
      forall x | 0 <= x < |ps|
        ensures FanOutAll(ps, ds)[x] == Appended(ps[x], Sends(ds, ps[x].handle))
      {
        var h := ps[x].handle;
        assert mid[x] == Appended(ps[x], Sends(init, h));
        assert ps[x].socket.outbox + Sends(init, h) + (if Includes(last.audience, h) then [last.message] else [])
            == ps[x].socket.outbox + Sends(ds, h);
      }
    }
  }

  /** A list whose flags line up one for one with those of a list whose initialized players come first has them first too. */
  lemma SameFlagsKeepPrefix(ps: seq<ServerPlayer>, qs: seq<ServerPlayer>)
    requires InitializedPrefix(ps) && |qs| == |ps|
    requires forall x :: 0 <= x < |ps| ==> qs[x].initialized == ps[x].initialized
    ensures InitializedPrefix(qs)
  {
  }

  /** Fan-out passes keep the initialized players first. */
  lemma FanOutAllKeepsPrefix(ps: seq<ServerPlayer>, ds: seq<Dispatch>)
    requires InitializedPrefix(ps)
    ensures InitializedPrefix(FanOutAll(ps, ds))
  {
    FanOutAllAppendsSends(ps, ds);
    SameFlagsKeepPrefix(ps, FanOutAll(ps, ds));
  }

  /** The handles of a player list, in list order (`players()`). */
  function PlayerHandles(ps: seq<ServerPlayer>): (r: seq<Player>)
    ensures |r| == |ps|
    ensures forall i :: 0 <= i < |ps| ==> r[i] == ps[i].handle
    decreases |ps|
  {
    if ps == [] then [] else PlayerHandles(ps[..|ps| - 1]) + [ps[|ps| - 1].handle]
  }

  /** `NetworkServer`. */
  class NetworkServer {
    var hosts: seq<Host>
    const localPlayer: Option<Player>
    var joiners: seq<ServerJoiner>
    var players: seq<ServerPlayer>
    var entities: map<NetworkEntity, ServerEntity>
    const relevancy: NetworkRelevancy
    var entityMessages: seq<(NetworkEntity, NetworkMessage)>

    /** The server's invariant: entries are keyed by their handle and initialized players come first. */
    ghost predicate Valid()
      reads this
    {
      EntitiesKeyed(entities) && InitializedPrefix(players)
    }

    /** `NetworkServer::new`: the given hosts and local player, nothing else yet. */
    constructor (hosts: seq<Host>, localPlayer: Option<Player>)
      ensures this.hosts == hosts && this.localPlayer == localPlayer
      ensures joiners == [] && players == [] && entities == map[] && entityMessages == []
      ensures fresh(relevancy) && relevancy.relevancy == map[]
      ensures Valid()
    {
      this.hosts := hosts;
      this.localPlayer := localPlayer;
      joiners, players, entities, entityMessages := [], [], map[], [];
      relevancy := new NetworkRelevancy();
    }

    /** The loop shared by the `send_to_*` methods: send `m` to every player `a` includes. */
    method Broadcast(a: Audience, m: NetworkMessage)
      modifies this`players
      ensures players == FanOut(old(players), a, m)
    {
      ghost var ps := players;
      var i := 0;
      while i < |players|
        invariant 0 <= i <= |players| == |ps|
        invariant forall x :: 0 <= x < i ==> players[x] == (if Includes(a, ps[x].handle) then Appended(ps[x], [m]) else ps[x])
        invariant forall x :: i <= x < |ps| ==> players[x] == ps[x]
      {
        if Includes(a, players[i].handle) {
          players := players[i := Deliver(players[i], m)];
        }
        i := i + 1;
      }
    }

    /** `send_to_all`: one `Event` to every player. */
    method SendToAll<V>(t: NetType<V>, event: V)
      modifies this`players
      ensures players == FanOut(old(players), Everyone, Event(FromStruct(t, event)))
    {
      Broadcast(Everyone, Event(FromStruct(t, event)));
    }

    /** `send_to_all_except_local`: one `Event` to every player except the local one. */
    method SendToAllExceptLocal<V>(t: NetType<V>, event: V)
      modifies this`players
      ensures players == FanOut(old(players), AllBut(localPlayer), Event(FromStruct(t, event)))
    {
      Broadcast(AllBut(localPlayer), Event(FromStruct(t, event)));
    }

    /** `send_to_players`: one `Event` to every player whose handle is listed. */
    method SendToPlayers<V>(handles: seq<Player>, t: NetType<V>, event: V)
      modifies this`players
      ensures players == FanOut(old(players), Listed(handles), Event(FromStruct(t, event)))
    {
      Broadcast(Listed(handles), Event(FromStruct(t, event)));
    }

    /** `players()`: the player handles in list order. */
    function Players(): (r: seq<Player>)
      reads this
      ensures |r| == |players| && forall i :: 0 <= i < |players| ==> r[i] == players[i].handle
    {
      PlayerHandles(players)
    }

    /** `get_or_insert_entity`: insert a fresh, existing entry only when the handle is absent. */
    method GetOrInsertEntity(entity: NetworkEntity) returns (e: ServerEntity)
      requires Valid()
      modifies this`entities
      ensures Valid()
      ensures entity in old(entities) ==> entities == old(entities) && e == old(entities)[entity]
      ensures entity !in old(entities) ==> entities == old(entities)[entity := NewEntity(entity)] && e == NewEntity(entity)
    {
      if entity !in entities {
        entities := entities[entity := NewEntity(entity)];
      }
      e := entities[entity];
    }
  }
}
