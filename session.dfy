/**
 * The session (`Network`): the Disconnected / Connecting / Connected state
 * machine, the application's player data, the event queue and the registry,
 * and the two tick steps that act on the session state itself (polling the
 * connector, noticing that the client's socket dropped) or on the player
 * data it keeps (the client's first message).
 */
module Session {
  import opened Wrappers
  import opened Handles
  import opened Payloads
  import opened Messages
  import opened Registry
  import opened Events
  import opened Server
  import opened Client

  /**
   * The connector a connecting session polls. What its `status()` call
   * returns is passed to `UpdateConnector` as an input.
   */
  datatype Connector = Connector(id: nat)

  /** `NetworkConnectStatus`. */
  datatype ConnectStatus = StatusConnected(socket: Socket) | StatusConnecting | StatusFailed

  /** `NetworkState`. */
  datatype NetworkState =
    | Connected(server: Option<NetworkServer>, client: Option<NetworkClient>)
    | Connecting(connector: Connector)
    | Disconnected

  /** The misuses `set_my_player_data` refuses (the source panics on each). */
  datatype PlayerDataError = NotRegisteredAsPlayerData | SetWhileConnected | SetWhileConnecting

  /**
   * `InternalHost::new_pair()`: an in-process host whose one pending socket
   * is the server's end of a loopback connection; the client keeps the
   * other end (`FreshSocket`).
   */
  function LoopbackHost(): Host {
    Host([FreshSocket])
  }

  /** `s` is what `NetworkServer::new(hosts, local)` builds. */
  ghost predicate NewServer(s: NetworkServer, hosts: seq<Host>, local: Option<Player>)
    reads s, s.relevancy
  {
    s.hosts == hosts && s.localPlayer == local && s.joiners == [] && s.players == [] &&
    s.entities == map[] && s.entityMessages == [] && s.relevancy.relevancy == map[] && s.Valid()
  }

  /** `c` is what `NetworkClient::new(socket, me)` builds. */
  ghost predicate NewClient(c: NetworkClient, socket: Socket, me: Player)
    reads c
  {
    c.socket == socket && c.me == me && !c.initialized && c.players == [] &&
    c.entities == map[] && c.existingPlayerFlag
  }

  /** `Network`. */
  class Network {
    var state: NetworkState
    const eventQueue: EventQueue
    const registry: NetworkRegistry
    var myPlayerData: SerializedStructMap

    /**
     * A connected session always holds a server, a client or both; with
     * both, the server's local player is the client's own player, and a
     * server alone has no local player.
     */
    ghost predicate Valid()
      reads this
    {
      state.Connected? ==>
        (state.server.Some? || state.client.Some?) &&
        (state.server.Some? && state.client.Some? ==> state.server.value.localPlayer == Some(state.client.value.me)) &&
        (state.server.Some? && state.client.None? ==> state.server.value.localPlayer == None)
    }

    /** The server and client objects the session currently holds. */
    function Peers(): set<object>
      reads this
    {
      if state.Connected? then
        (if state.server.Some? then {state.server.value as object} else {}) +
        (if state.client.Some? then {state.client.value as object} else {})
      else {}
    }

    /** `Network::default()`. */
    constructor ()
      ensures state == Disconnected && myPlayerData == EmptyStructMap && Valid()
      ensures fresh(eventQueue) && eventQueue.Contents() == Queues([], [], [], [], [], [])
      ensures fresh(registry) && registry.entries == map[]
    {
      state := Disconnected;
      eventQueue := new EventQueue();
      registry := new NetworkRegistry();
      myPlayerData := EmptyStructMap;
    }

    /** `start_local`: a server and a client joined by a loopback pair, connected at once. */
    method StartLocal(localPlayer: Player)
      modifies this, eventQueue`connectEvents
      ensures Valid() && state.Connected? && state.server.Some? && state.client.Some?
      ensures fresh(state.server.value) && fresh(state.server.value.relevancy) && fresh(state.client.value)
      ensures NewServer(state.server.value, [LoopbackHost()], Some(localPlayer))
      ensures NewClient(state.client.value, FreshSocket, localPlayer)
      ensures eventQueue.connectEvents == old(eventQueue.connectEvents) + [ConnectEvent(true, true)]
      ensures myPlayerData == old(myPlayerData)
    {
      var server := new NetworkServer([LoopbackHost()], Some(localPlayer));
      var client := new NetworkClient(FreshSocket, localPlayer);
      state := Connected(Some(server), Some(client));
      eventQueue.Connect(ConnectEvent(true, true));
    }

    /** `start_server_client`: like `start_local`, with the loopback host added after the given hosts. */
    method StartServerClient(hosts: seq<Host>, localPlayer: Player)
      modifies this, eventQueue`connectEvents
      ensures Valid() && state.Connected? && state.server.Some? && state.client.Some?
      ensures fresh(state.server.value) && fresh(state.server.value.relevancy) && fresh(state.client.value)
      ensures NewServer(state.server.value, hosts + [LoopbackHost()], Some(localPlayer))
      ensures NewClient(state.client.value, FreshSocket, localPlayer)
      ensures eventQueue.connectEvents == old(eventQueue.connectEvents) + [ConnectEvent(true, true)]
      ensures myPlayerData == old(myPlayerData)
    {
      var server := new NetworkServer(hosts + [LoopbackHost()], Some(localPlayer));
      var client := new NetworkClient(FreshSocket, localPlayer);
      state := Connected(Some(server), Some(client));
      eventQueue.Connect(ConnectEvent(true, true));
    }

    /** `start_server`: a server alone, with no local player. */
    method StartServer(hosts: seq<Host>)
      modifies this, eventQueue`connectEvents
      ensures Valid() && state.Connected? && state.server.Some? && state.client.None?
      ensures fresh(state.server.value) && fresh(state.server.value.relevancy)
      ensures NewServer(state.server.value, hosts, None)
      ensures eventQueue.connectEvents == old(eventQueue.connectEvents) + [ConnectEvent(true, false)]
      ensures myPlayerData == old(myPlayerData)
    {
      var server := new NetworkServer(hosts, None);
      state := Connected(Some(server), None);
      eventQueue.Connect(ConnectEvent(true, false));
    }

    /** `start_client`: wait for the connector, announcing that a connection is being made. */
    method StartClient(connector: Connector)
      modifies this, eventQueue`connectingEvents
      ensures Valid() && state == Connecting(connector)
      ensures eventQueue.connectingEvents == old(eventQueue.connectingEvents) + [ConnectingEvent]
      ensures myPlayerData == old(myPlayerData)
    {
      state := Connecting(connector);
      eventQueue.Connecting(ConnectingEvent);
    }

    /** `stop`: from any state, disconnect and say so (not as a failure to connect). */
    method Stop()
      modifies this, eventQueue`disconnectEvents
      ensures Valid() && state == Disconnected
      ensures eventQueue.disconnectEvents == old(eventQueue.disconnectEvents) + [DisconnectEvent(false)]
      ensures myPlayerData == old(myPlayerData)
    {
      state := Disconnected;
      eventQueue.Disconnect(DisconnectEvent(false));
    }

    predicate IsServer()
      reads this
    {
      state.Connected? && state.server.Some?
    }

    predicate IsClient()
      reads this
    {
      state.Connected? && state.client.Some?
    }

    predicate IsConnected()
      reads this
    {
      state.Connected?
    }

    predicate IsConnecting()
      reads this
    {
      state.Connecting?
    }

    predicate IsDisconnected()
      reads this
    {
      !state.Connected? && !state.Connecting?
    }

    /**
     * Exactly one of connected, connecting and disconnected holds; a
     * session that is a server or a client is connected, and a valid
     * connected session is a server or a client.
     */
    lemma StatesAreExclusive()
      ensures IsDisconnected() <==> !IsConnected() && !IsConnecting()
      ensures !(IsConnected() && IsConnecting())
      ensures IsServer() || IsClient() ==> IsConnected()
      ensures Valid() && IsConnected() ==> IsServer() || IsClient()
    {
    }

    /** `me()`: the client's own player when the session has a client. */
    function Me(): (r: Option<Player>)
      reads this
      ensures r.Some? <==> IsClient()
      ensures r.Some? ==> r.value == state.client.value.me
    {
      if IsClient() then Some(state.client.value.me) else None
    }

    /** `players()`: the server's player list if there is a server, else the client's roster, else nothing. */
    function Players(): (r: seq<Player>)
      reads this, Peers()
      ensures !IsConnected() ==> r == []
      ensures IsServer() ==> r == PlayerHandles(state.server.value.players)
      ensures IsClient() && !IsServer() ==> r == RosterHandles(state.client.value.players)
    {
      match state
      case Connected(server, client) =>
        if server.Some? then server.value.Players()
        else if client.Some? then client.value.Players()
        else []
      case _ => []
    }

    /**
     * `set_my_player_data`: refused unless T is registered as player data
     * (checked first) and the session is disconnected; on success only the
     * entry for T's name in `myPlayerData` changes.
     */
    method SetMyPlayerData<V>(t: NetType<V>, data: V) returns (r: Outcome<PlayerDataError>)
      modifies this`myPlayerData
      ensures !registry.HasPlayerData(t) ==> r == Fail(NotRegisteredAsPlayerData)
      ensures registry.HasPlayerData(t) && state.Connected? ==> r == Fail(SetWhileConnected)
      ensures registry.HasPlayerData(t) && state.Connecting? ==> r == Fail(SetWhileConnecting)
      ensures r == Pass <==> registry.HasPlayerData(t) && state == Disconnected
      ensures myPlayerData == if r == Pass then old(myPlayerData).Set(t, data) else old(myPlayerData)
    {
      var entry := registry.GetEntry(t);
      if entry.None? || !entry.value.playerData {
        return Fail(NotRegisteredAsPlayerData);
      }
      match state
      case Connected(_, _) =>
        r := Fail(SetWhileConnected);
      case Connecting(_) =>
        r := Fail(SetWhileConnecting);
      case Disconnected =>
        myPlayerData := myPlayerData.Set(t, data);
        r := Pass;
    }

    /**
     * `get_player_data::<T>(player)`: the T stored in the data of the
     * first player with that handle, in the server's list if there is a
     * server and in the client's roster otherwise; `default` (T's
     * `Default`) when the session is not connected, the player is unknown
     * or its data holds nothing for T.
     */
    function GetPlayerData<V>(t: NetType<V>, player: Player, default: V): (r: V)
      reads this, Peers()
      ensures !IsConnected() ==> r == default
      ensures IsServer() && player !in PlayerHandles(state.server.value.players) ==> r == default
      ensures IsClient() && !IsServer() && player !in RosterHandles(state.client.value.players) ==> r == default
    {
      match state
      case Connected(server, client) =>
        if server.Some? then
          match FirstIndex(PlayerHandles(server.value.players), player)
          case Some(i) => server.value.players[i].data.Get(t).GetOr(default)
          case None => default
        else if client.Some? then
          match FirstIndex(RosterHandles(client.value.players), player)
          case Some(i) => client.value.players[i].data.Get(t).GetOr(default)
          case None => default
        else default
      case _ => default
    }

    /**
     * A server asked for a known player whose data holds nothing for T
     * (the first entry with that handle decides) answers `default`.
     */
    lemma ServerAbsentDataGivesDefault<V>(t: NetType<V>, player: Player, i: nat, default: V)
      requires IsServer()
      requires FirstIndex(PlayerHandles(state.server.value.players), player) == Some(i)
      requires state.server.value.players[i].data.Get(t).None?
      ensures GetPlayerData(t, player, default) == default
    {
    }

    /**
     * A client alone, asked for a known roster entry whose data holds
     * nothing for T (the first entry with that handle decides), answers
     * `default`.
     */
    lemma ClientAbsentDataGivesDefault<V>(t: NetType<V>, player: Player, i: nat, default: V)
      requires IsClient() && !IsServer()
      requires FirstIndex(RosterHandles(state.client.value.players), player) == Some(i)
      requires state.client.value.players[i].data.Get(t).None?
      ensures GetPlayerData(t, player, default) == default
    {
    }

    /**
     * With a lossless codec, a server hands back the T a player put into
     * its data with `set::<T>` (the data every later entry for the same
     * handle carries does not matter: the first entry wins).
     */
    lemma ServerPlayerDataRoundTrip<V(!new)>(t: NetType<V>, i: nat, base: SerializedStructMap, x: V, default: V)
      requires Lossless(t) && IsServer()
      requires i < |state.server.value.players|
      requires state.server.value.players[i].data == base.Set(t, x)
      requires forall j :: 0 <= j < i ==> state.server.value.players[j].handle != state.server.value.players[i].handle
      ensures GetPlayerData(t, state.server.value.players[i].handle, default) == x
    {
      var ps := state.server.value.players;
      var h := ps[i].handle;
      assert PlayerHandles(ps)[i] == h;
      assert FirstIndex(PlayerHandles(ps), h) == Some(i);
      GetAfterSet(base, t, x);
    }

    /**
     * With a lossless codec, a client alone hands back the T a roster entry
     * was announced with under `set::<T>`; the first entry for a handle wins.
     */
    lemma ClientPlayerDataRoundTrip<V(!new)>(t: NetType<V>, i: nat, base: SerializedStructMap, x: V, default: V)
      requires Lossless(t) && IsClient() && !IsServer()
      requires i < |state.client.value.players|
      requires state.client.value.players[i].data == base.Set(t, x)
      requires forall j :: 0 <= j < i ==> state.client.value.players[j].handle != state.client.value.players[i].handle
      ensures GetPlayerData(t, state.client.value.players[i].handle, default) == x
    {
      var ps := state.client.value.players;
      var h := ps[i].handle;
      assert RosterHandles(ps)[i] == h;
      assert FirstIndex(RosterHandles(ps), h) == Some(i);
      GetAfterSet(base, t, x);
    }

    /**
     * `update_connector`, given what the connector's `status()` returned:
     * while connecting, Connected makes the session a client alone (with
     * the fresh handle `freshPlayer`) and announces Connect{false, true};
     * Failed disconnects and announces a failure to connect; Connecting,
     * or any other state, changes nothing.
     */
    method UpdateConnector(status: ConnectStatus, freshPlayer: Player)
      requires Valid()
      modifies this, eventQueue`connectEvents, eventQueue`disconnectEvents
      ensures Valid() && myPlayerData == old(myPlayerData)
      ensures old(state).Connecting? && status.StatusConnected? ==>
        state.Connected? && state.server.None? && state.client.Some? && fresh(state.client.value) &&
        NewClient(state.client.value, status.socket, freshPlayer) &&
        eventQueue.connectEvents == old(eventQueue.connectEvents) + [ConnectEvent(false, true)] &&
        eventQueue.disconnectEvents == old(eventQueue.disconnectEvents)
      ensures old(state).Connecting? && status.StatusFailed? ==>
        state == Disconnected &&
        eventQueue.connectEvents == old(eventQueue.connectEvents) &&
        eventQueue.disconnectEvents == old(eventQueue.disconnectEvents) + [DisconnectEvent(true)]
      ensures !old(state).Connecting? || status.StatusConnecting? ==>
        state == old(state) &&
        eventQueue.connectEvents == old(eventQueue.connectEvents) &&
        eventQueue.disconnectEvents == old(eventQueue.disconnectEvents)
    {
      if state.Connecting? {
        match status
        case StatusConnected(socket) =>
          eventQueue.Connect(ConnectEvent(false, true));
          var client := new NetworkClient(socket, freshPlayer);
          state := Connected(None, Some(client));
        case StatusConnecting =>
        case StatusFailed =>
          eventQueue.Disconnect(DisconnectEvent(true));
          state := Disconnected;
      }
    }

    /**
     * `client_initialize`: a client that has not introduced itself sends
     * one `PlayerInit` with its handle and the session's player data, once.
     */
    method ClientInitialize()
      modifies Peers()
      ensures state == old(state) && myPlayerData == old(myPlayerData)
      ensures IsClient() && !old(state.client.value.initialized) ==>
        state.client.value.socket == old(state.client.value.socket).Send(PlayerInit(state.client.value.me, myPlayerData))
      ensures IsClient() ==> state.client.value.initialized
      ensures IsClient() && old(state.client.value.initialized) ==> state.client.value.socket == old(state.client.value.socket)
      ensures IsClient() ==>
        (state.client.value.players == old(state.client.value.players) &&
         state.client.value.entities == old(state.client.value.entities) &&
         state.client.value.existingPlayerFlag == old(state.client.value.existingPlayerFlag))
      ensures IsServer() ==> unchanged(state.server.value)
    {
      if state.Connected? && state.client.Some? {
        var client := state.client.value;
        if !client.initialized {
          client.socket := client.socket.Send(PlayerInit(client.me, myPlayerData));
          client.initialized := true;
        }
      }
    }

    /**
     * `client_check_disconnect`: a client whose socket reports not
     * connected ends the session and announces a disconnect that is not a
     * failure to connect; otherwise nothing changes.
     */
    method ClientCheckDisconnect()
      requires Valid()
      modifies this, eventQueue`disconnectEvents
      ensures Valid() && myPlayerData == old(myPlayerData)
      ensures old(IsClient()) && !old(state.client.value.socket.connected) ==>
        state == Disconnected &&
        eventQueue.disconnectEvents == old(eventQueue.disconnectEvents) + [DisconnectEvent(false)]
      ensures !(old(IsClient()) && !old(state.client.value.socket.connected)) ==>
        state == old(state) && eventQueue.disconnectEvents == old(eventQueue.disconnectEvents)
    {
      if state.Connected? && state.client.Some? && !state.client.value.socket.connected {
        state := Disconnected;
        eventQueue.Disconnect(DisconnectEvent(false));
      }
    }
  }
}
