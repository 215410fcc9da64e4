/**
 * The client's bookkeeping (`NetworkClient`): its one socket, its own
 * player handle, the roster of players it has been told about and its
 * mirror of the entities the server spawned for it.
 */
module Client {
  import opened Wrappers
  import opened Handles
  import opened Payloads
  import opened Messages

  /** `NetworkClientPlayer`: a roster entry. */
  datatype ClientPlayer = ClientPlayer(handle: Player, data: SerializedStructMap)

  /**
   * `NetworkClientEntity`. `localEntity` names the host-world entity the
   * client spawned for it; the host world is not part of this model, so it
   * is an opaque number.
   */
  datatype ClientEntity = ClientEntity(initialized: bool, present: bool, localEntity: Option<nat>, owner: bool)

  /** The entry an `EntitySpawn` message creates. */
  const SpawnedEntity := ClientEntity(false, true, None, false)

  /** The handles of a roster, in roster order. */
  function RosterHandles(ps: seq<ClientPlayer>): (r: seq<Player>)
    ensures |r| == |ps|
    ensures forall i :: 0 <= i < |ps| ==> r[i] == ps[i].handle
    decreases |ps|
  {
    if ps == [] then [] else RosterHandles(ps[..|ps| - 1]) + [ps[|ps| - 1].handle]
  }

  /** `NetworkClient`. */
  class NetworkClient {
    var initialized: bool
    var socket: Socket
    const me: Player
    var players: seq<ClientPlayer>
    var existingPlayerFlag: bool
    var entities: map<NetworkEntity, ClientEntity>

    /** `NetworkClient::new`: not yet initialized, nothing known, every join seen so far is of an existing player. */
    constructor (socket: Socket, me: Player)
      ensures this.socket == socket && this.me == me
      ensures !initialized && players == [] && entities == map[] && existingPlayerFlag
    {
      initialized := false;
      this.socket := socket;
      this.me := me;
      players := [];
      existingPlayerFlag := true;
      entities := map[];
    }

    /** `send`: one `Event` carrying the encoded payload, straight onto the socket. */
    method Send<V>(t: NetType<V>, event: V)
      modifies this`socket
      ensures socket == old(socket).Send(Event(FromStruct(t, event)))
    {
      socket := socket.Send(Event(FromStruct(t, event)));
    }

    /** `send_to_entity`: one `EntityEvent` for `entity` that names this client as its sender. */
    method SendToEntity<V>(entity: NetworkEntity, t: NetType<V>, event: V)
      modifies this`socket
      ensures socket == old(socket).Send(EntityEvent(entity, Some(me), FromStruct(t, event)))
    {
      socket := socket.Send(EntityEvent(entity, Some(me), FromStruct(t, event)));
    }

    /** `players()`: the roster's handles in roster order. */
    function Players(): (r: seq<Player>)
      reads this
      ensures |r| == |players| && forall i :: 0 <= i < |players| ==> r[i] == players[i].handle
    {
      RosterHandles(players)
    }

    /** `is_entity_owner`: false for an unknown handle, the entry's owner flag otherwise. */
    function IsEntityOwner(entity: NetworkEntity): (r: bool)
      reads this
      ensures r <==> entity in entities && entities[entity].owner
    {
      if entity in entities then entities[entity].owner else false
    }
  }
}
