/**
 * The application-facing events and the six FIFO queues that hold them
 * until `send_to_world` hands them to the host world. The world is not
 * modelled: `send_to_world` returns the events it releases, in the order
 * it releases them.
 */
module Events {
  import opened Wrappers
  import opened Handles
  import opened Payloads

  datatype ConnectEvent = ConnectEvent(isServer: bool, isClient: bool)
  datatype ConnectingEvent = ConnectingEvent
  datatype DisconnectEvent = DisconnectEvent(failedToConnect: bool)
  datatype PlayerJoinEvent = PlayerJoinEvent(player: Player, me: bool, existingPlayer: bool)
  datatype PlayerLeaveEvent = PlayerLeaveEvent(player: Player)

  /** One event as delivered to the world, tagged with its category. */
  datatype WorldEvent =
    | OnConnect(connect: ConnectEvent)
    | OnConnecting(connecting: ConnectingEvent)
    | OnDisconnect(disconnect: DisconnectEvent)
    | OnPlayerJoin(join: PlayerJoinEvent)
    | OnPlayerLeave(leave: PlayerLeaveEvent)
    | OnNetwork(payload: SerializedStruct)

  /**
   * A payload the pipeline hands to `event_queue.network_server` or
   * `event_queue.network_entity`; those two queue methods are not part of
   * this model, so the steps that call them return these instead.
   */
  datatype LocalDelivery =
    | ServerEvent(sender: Player, payload: SerializedStruct)
    | EntityEventDelivery(entity: NetworkEntity, from: Option<Player>, payload: SerializedStruct)

  /** The contents of the six queues, front first. */
  datatype Queues = Queues(
    connect: seq<ConnectEvent>,
    connecting: seq<ConnectingEvent>,
    disconnect: seq<DisconnectEvent>,
    playerJoin: seq<PlayerJoinEvent>,
    playerLeave: seq<PlayerLeaveEvent>,
    network: seq<SerializedStruct>)

  /** The front of a queue as a zero- or one-element list. */
  function Front<T>(q: seq<T>): (r: seq<T>)
    ensures |r| <= 1 && (q != [] <==> |r| == 1)
    ensures q != [] ==> r == [q[0]]
  {
    if q == [] then [] else [q[0]]
  }

  /** What is left of a queue after a pop, if it had anything to pop. */
  function Rest<T>(q: seq<T>): seq<T> {
    if q == [] then [] else q[1..]
  }

  /** A pop splits a queue into its front and the rest, losing nothing. */
  lemma FrontAndRest<T>(q: seq<T>)
    ensures q == Front(q) + Rest(q)
    ensures |Rest(q)| == |q| - |Front(q)|
  {
  }

  /** The front of the queue of category `c` (0 = connect ... 5 = network) as a world event, if any. */
  function Piece(q: Queues, c: nat): seq<WorldEvent> {
    if c == 0 then (if q.connect == [] then [] else [OnConnect(q.connect[0])])
    else if c == 1 then (if q.connecting == [] then [] else [OnConnecting(q.connecting[0])])
    else if c == 2 then (if q.disconnect == [] then [] else [OnDisconnect(q.disconnect[0])])
    else if c == 3 then (if q.playerJoin == [] then [] else [OnPlayerJoin(q.playerJoin[0])])
    else if c == 4 then (if q.playerLeave == [] then [] else [OnPlayerLeave(q.playerLeave[0])])
    else if c == 5 then (if q.network == [] then [] else [OnNetwork(q.network[0])])
    else []
  }

  /** The queues after `send_to_world`: every non-empty queue loses its front. */
  function Popped(q: Queues): (r: Queues)
    ensures r.connect == Rest(q.connect) && r.connecting == Rest(q.connecting)
    ensures r.disconnect == Rest(q.disconnect) && r.playerJoin == Rest(q.playerJoin)
    ensures r.playerLeave == Rest(q.playerLeave) && r.network == Rest(q.network)
  {
    Queues(Rest(q.connect), Rest(q.connecting), Rest(q.disconnect),
           Rest(q.playerJoin), Rest(q.playerLeave), Rest(q.network))
  }

  /** What `send_to_world` hands to the world: the fronts, category by category. */
  function Released(q: Queues): seq<WorldEvent> {
    Piece(q, 0) + Piece(q, 1) + Piece(q, 2) + Piece(q, 3) + Piece(q, 4) + Piece(q, 5)
  }

  /** Which category a world event belongs to, in release order. */
  function Category(e: WorldEvent): nat {
    match e
    case OnConnect(_) => 0
    case OnConnecting(_) => 1
    case OnDisconnect(_) => 2
    case OnPlayerJoin(_) => 3
    case OnPlayerLeave(_) => 4
    case OnNetwork(_) => 5
  }

  /** True when `e` is the event at the front of its own category's queue. */
  predicate IsFrontOf(q: Queues, e: WorldEvent) {
    match e
    case OnConnect(c) => q.connect != [] && c == q.connect[0]
    case OnConnecting(c) => q.connecting != [] && c == q.connecting[0]
    case OnDisconnect(d) => q.disconnect != [] && d == q.disconnect[0]
    case OnPlayerJoin(j) => q.playerJoin != [] && j == q.playerJoin[0]
    case OnPlayerLeave(l) => q.playerLeave != [] && l == q.playerLeave[0]
    case OnNetwork(p) => q.network != [] && p == q.network[0]
  }

  /** Whether the queue of category `c` has anything to release. */
  function Pending(q: Queues, c: nat): nat {
    if c == 0 then |Front(q.connect)|
    else if c == 1 then |Front(q.connecting)|
    else if c == 2 then |Front(q.disconnect)|
    else if c == 3 then |Front(q.playerJoin)|
    else if c == 4 then |Front(q.playerLeave)|
    else if c == 5 then |Front(q.network)|
    else 0
  }

  /** The piece of category `c` is the front of that queue, if it has one. */
  lemma PieceIsFront(q: Queues, c: nat)
    requires c < 6
    ensures |Piece(q, c)| == Pending(q, c) <= 1
    ensures forall i :: 0 <= i < |Piece(q, c)| ==> IsFrontOf(q, Piece(q, c)[i]) && Category(Piece(q, c)[i]) == c
  {
  }

  /** Events whose categories strictly increase and are all below `c`. */
  ghost predicate OrderedBelow(q: Queues, r: seq<WorldEvent>, c: nat) {
    (forall i :: 0 <= i < |r| ==> IsFrontOf(q, r[i]) && Category(r[i]) < c) &&
    (forall i, j :: 0 <= i < j < |r| ==> Category(r[i]) < Category(r[j]))
  }

  /** Appending the piece of category `c` to fronts of lower categories keeps them ordered. */
  lemma AppendPiece(q: Queues, r: seq<WorldEvent>, c: nat)
    requires c < 6 && OrderedBelow(q, r, c)
    ensures OrderedBelow(q, r + Piece(q, c), c + 1)
  {
    PieceIsFront(q, c);
  }

  /**
   * One release: every released event is the front of its queue, the
   * categories come strictly in the order connect, connecting, disconnect,
   * player join, player leave, network, so no category releases twice, and
   * exactly the non-empty queues release.
   */
  lemma ReleaseOrder(q: Queues)
    ensures var released := Released(q);
            (forall i :: 0 <= i < |released| ==> IsFrontOf(q, released[i])) &&
            (forall i, j :: 0 <= i < j < |released| ==> Category(released[i]) < Category(released[j])) &&
            |released| == Pending(q, 0) + Pending(q, 1) + Pending(q, 2) + Pending(q, 3) + Pending(q, 4) + Pending(q, 5)
  {
    var r0 := Piece(q, 0);
    AppendPiece(q, [], 0);
    assert [] + r0 == r0;
    var r1 := r0 + Piece(q, 1);
    AppendPiece(q, r0, 1);
    var r2 := r1 + Piece(q, 2);
    AppendPiece(q, r1, 2);
    var r3 := r2 + Piece(q, 3);
    AppendPiece(q, r2, 3);
    var r4 := r3 + Piece(q, 4);
    AppendPiece(q, r3, 4);
    AppendPiece(q, r4, 5);
    PieceIsFront(q, 0); PieceIsFront(q, 1); PieceIsFront(q, 2);
    PieceIsFront(q, 3); PieceIsFront(q, 4); PieceIsFront(q, 5);
  }

  /** The connect events that `n` releases in a row hand out. */
  function ConnectReleases(q: Queues, n: nat): seq<ConnectEvent>
    decreases n
  {
    if n == 0 then []
    else
      Front(q.connect) + ConnectReleases(Popped(q), n - 1)
  }

  /**
   * First in, first out: `n` consecutive releases hand out the first `n`
   * queued connect events in the order they were pushed (or all of them if
   * fewer were queued). The same holds for every category.
   */
  lemma {:induction false} ConnectFifo(q: Queues, n: nat)
    ensures ConnectReleases(q, n) == q.connect[..if n <= |q.connect| then n else |q.connect|]
    decreases n
  {
    if n > 0 {
      var q1 := Popped(q);
      ConnectFifo(q1, n - 1);
      if q.connect != [] {
        var m := if n <= |q.connect| then n else |q.connect|;
        assert q1.connect == q.connect[1..];
        assert m - 1 == if n - 1 <= |q1.connect| then n - 1 else |q1.connect|;
        assert q.connect[..m] == [q.connect[0]] + q.connect[1..][..m - 1];
      }
    }
  }

  /** `EventQueue`: the six queues, pushed at the back and popped at the front. */
  class EventQueue {
    var connectEvents: seq<ConnectEvent>
    var connectingEvents: seq<ConnectingEvent>
    var disconnectEvents: seq<DisconnectEvent>
    var playerJoinEvents: seq<PlayerJoinEvent>
    var playerLeaveEvents: seq<PlayerLeaveEvent>
    var networkEvents: seq<SerializedStruct>

    /** The six queues as one value. */
    function Contents(): Queues
      reads this
    {
      Queues(connectEvents, connectingEvents, disconnectEvents, playerJoinEvents, playerLeaveEvents, networkEvents)
    }

    /** `EventQueue::default()`. */
    constructor ()
      ensures Contents() == Queues([], [], [], [], [], [])
    {
      connectEvents, connectingEvents, disconnectEvents := [], [], [];
      playerJoinEvents, playerLeaveEvents, networkEvents := [], [], [];
    }

    method Connect(e: ConnectEvent)
      modifies this`connectEvents
      ensures connectEvents == old(connectEvents) + [e]
    {
      connectEvents := connectEvents + [e];
    }

    method Connecting(e: ConnectingEvent)
      modifies this`connectingEvents
      ensures connectingEvents == old(connectingEvents) + [e]
    {
      connectingEvents := connectingEvents + [e];
    }

    method Disconnect(e: DisconnectEvent)
      modifies this`disconnectEvents
      ensures disconnectEvents == old(disconnectEvents) + [e]
    {
      disconnectEvents := disconnectEvents + [e];
    }

    method PlayerJoin(e: PlayerJoinEvent)
      modifies this`playerJoinEvents
      ensures playerJoinEvents == old(playerJoinEvents) + [e]
    {
      playerJoinEvents := playerJoinEvents + [e];
    }

    method PlayerLeave(e: PlayerLeaveEvent)
      modifies this`playerLeaveEvents
      ensures playerLeaveEvents == old(playerLeaveEvents) + [e]
    {
      playerLeaveEvents := playerLeaveEvents + [e];
    }

    method Network(e: SerializedStruct)
      modifies this`networkEvents
      ensures networkEvents == old(networkEvents) + [e]
    {
      networkEvents := networkEvents + [e];
    }

    /** `connect_events.pop_front()`, as the world event it becomes. */
    method PopConnect() returns (piece: seq<WorldEvent>)
      modifies this`connectEvents
      ensures piece == (if old(connectEvents) == [] then [] else [OnConnect(old(connectEvents)[0])])
      ensures connectEvents == Rest(old(connectEvents))
    {
      piece := [];
      if connectEvents != [] {
        piece := [OnConnect(connectEvents[0])];
        connectEvents := connectEvents[1..];
      }
    }

    /** `connecting_events.pop_front()`, as the world event it becomes. */
    method PopConnecting() returns (piece: seq<WorldEvent>)
      modifies this`connectingEvents
      ensures piece == (if old(connectingEvents) == [] then [] else [OnConnecting(old(connectingEvents)[0])])
      ensures connectingEvents == Rest(old(connectingEvents))
    {
      piece := [];
      if connectingEvents != [] {
        piece := [OnConnecting(connectingEvents[0])];
        connectingEvents := connectingEvents[1..];
      }
    }

    /** `disconnect_events.pop_front()`, as the world event it becomes. */
    method PopDisconnect() returns (piece: seq<WorldEvent>)
      modifies this`disconnectEvents
      ensures piece == (if old(disconnectEvents) == [] then [] else [OnDisconnect(old(disconnectEvents)[0])])
      ensures disconnectEvents == Rest(old(disconnectEvents))
    {
      piece := [];
      if disconnectEvents != [] {
        piece := [OnDisconnect(disconnectEvents[0])];
        disconnectEvents := disconnectEvents[1..];
      }
    }

    /** `player_join_events.pop_front()`, as the world event it becomes. */
    method PopPlayerJoin() returns (piece: seq<WorldEvent>)
      modifies this`playerJoinEvents
      ensures piece == (if old(playerJoinEvents) == [] then [] else [OnPlayerJoin(old(playerJoinEvents)[0])])
      ensures playerJoinEvents == Rest(old(playerJoinEvents))
    {
      piece := [];
      if playerJoinEvents != [] {
        piece := [OnPlayerJoin(playerJoinEvents[0])];
        playerJoinEvents := playerJoinEvents[1..];
      }
    }

    /** `player_leave_events.pop_front()`, as the world event it becomes. */
    method PopPlayerLeave() returns (piece: seq<WorldEvent>)
      modifies this`playerLeaveEvents
      ensures piece == (if old(playerLeaveEvents) == [] then [] else [OnPlayerLeave(old(playerLeaveEvents)[0])])
      ensures playerLeaveEvents == Rest(old(playerLeaveEvents))
    {
      piece := [];
      if playerLeaveEvents != [] {
        piece := [OnPlayerLeave(playerLeaveEvents[0])];
        playerLeaveEvents := playerLeaveEvents[1..];
      }
    }

    /** `network_events.pop_front()`, as the world event it becomes. */
    method PopNetwork() returns (piece: seq<WorldEvent>)
      modifies this`networkEvents
      ensures piece == (if old(networkEvents) == [] then [] else [OnNetwork(old(networkEvents)[0])])
      ensures networkEvents == Rest(old(networkEvents))
    {
      piece := [];
      if networkEvents != [] {
        piece := [OnNetwork(networkEvents[0])];
        networkEvents := networkEvents[1..];
      }
    }

    /** `send_to_world`: pop the front of each queue in turn and hand it to the world. */
    method SendToWorld() returns (released: seq<WorldEvent>)
      modifies this
      ensures Contents() == Popped(old(Contents()))
      ensures released == Released(old(Contents()))
    {
      ghost var q := Contents();
      var p0 := PopConnect();
      assert p0 == Piece(q, 0);
      var p1 := PopConnecting();
      assert p1 == Piece(q, 1);
      var p2 := PopDisconnect();
      assert p2 == Piece(q, 2);
      var p3 := PopPlayerJoin();
      assert p3 == Piece(q, 3);
      var p4 := PopPlayerLeave();
      assert p4 == Piece(q, 4);
      var p5 := PopNetwork();
      assert p5 == Piece(q, 5);
      released := p0 + p1 + p2 + p3 + p4 + p5;
    }
  }
}
