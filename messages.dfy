/**
 * The wire protocol (`NetworkMessage`) and the abstract socket that carries
 * it. A socket is a value: the messages waiting to be received, the
 * messages sent so far, and the transport's connected flag. Encoding a
 * message to text is the codec's job and is not modelled: sockets carry
 * message values directly.
 */
module Messages {
  import opened Wrappers
  import opened Handles
  import opened Payloads

  datatype NetworkMessage =
    | PlayerInit(player: Player, playerData: SerializedStructMap)
    | PlayerJoin(player: Player, me: bool, playerData: SerializedStructMap)
    | PlayerLeave(player: Player)
    | Event(payload: SerializedStruct)
    | EntitySpawn(entity: NetworkEntity)
    | EntityDespawn(entity: NetworkEntity)
    | EntityOwner(entity: NetworkEntity, owner: bool)
    | EntityEvent(entity: NetworkEntity, from: Option<Player>, payload: SerializedStruct)

  /** A reliable, ordered connection as the core sees it through the socket protocol. */
  datatype Socket = Socket(inbox: seq<NetworkMessage>, outbox: seq<NetworkMessage>, connected: bool)
  {
    /** `send`: queue one message behind everything sent before. */
    function Send(m: NetworkMessage): (s: Socket)
      ensures s.outbox == outbox + [m] && s.inbox == inbox && s.connected == connected
    {
      this.(outbox := outbox + [m])
    }

    /** `receive`: the oldest message not yet received, if any. */
    function Receive(): (r: (Option<NetworkMessage>, Socket))
      ensures r.0.Some? <==> inbox != []
      ensures inbox != [] ==> r.0.value == inbox[0] && inbox == [r.0.value] + r.1.inbox
      ensures inbox == [] ==> r.1 == this
      ensures r.1.outbox == outbox && r.1.connected == connected
    {
      if inbox == [] then (None, this) else (Some(inbox[0]), this.(inbox := inbox[1..]))
    }
  }

  /** A freshly connected socket with nothing in flight. */
  const FreshSocket := Socket([], [], true)
}
