/**
 * `server_check_disconnects`: the players whose socket reports it is no
 * longer connected are removed; every remaining player is told of each
 * one, and the host world hears of each one when the server has no local
 * player.
 */
module DisconnectPipeline {
  import opened Wrappers
  import opened Handles
  import opened Messages
  import opened Events
  import opened Server

  /** The handles of the players whose socket is not connected, in list order. */
  function Disconnected(ps: seq<ServerPlayer>): (r: seq<Player>)
    ensures forall h :: h in r <==> exists x :: 0 <= x < |ps| && ps[x].handle == h && !ps[x].socket.connected
    decreases |ps|
  {
    if ps == [] then []
    else
      var last := ps[|ps| - 1];
      var init := Disconnected(ps[..|ps| - 1]);
      assert forall x :: 0 <= x < |ps| - 1 ==> ps[..|ps| - 1][x] == ps[x];
      init + (if last.socket.connected then [] else [last.handle])
  }

  /** `players.retain(|p| !gone.contains(&p.handle))`. */
  function Without(ps: seq<ServerPlayer>, gone: seq<Player>): (r: seq<ServerPlayer>)
    ensures forall x :: 0 <= x < |r| ==> r[x] in ps && r[x].handle !in gone
    ensures forall p :: p in ps && p.handle !in gone ==> p in r
    decreases |ps|
  {
    if ps == [] then []
    else
      var last := ps[|ps| - 1];
      Without(ps[..|ps| - 1], gone) + (if last.handle in gone then [] else [last])
  }

  /** The connected players, in list order. */
  function StillConnected(ps: seq<ServerPlayer>): seq<ServerPlayer>
    decreases |ps|
  {
    if ps == [] then []
    else
      var last := ps[|ps| - 1];
      StillConnected(ps[..|ps| - 1]) + (if last.socket.connected then [last] else [])
  }

  /** One `PlayerLeave` to every remaining player per removed handle, in removal order. */
  function LeaveDispatches(gone: seq<Player>): (r: seq<Dispatch>)
    ensures |r| == |gone|
    decreases |gone|
  {
    if gone == [] then [] else LeaveDispatches(gone[..|gone| - 1]) + [Dispatch(Everyone, PlayerLeave(gone[|gone| - 1]))]
  }

  /** The host-world leave events for the removed handles, in removal order. */
  function LeaveEvents(gone: seq<Player>): (r: seq<PlayerLeaveEvent>)
    ensures |r| == |gone|
    decreases |gone|
  {
    if gone == [] then [] else LeaveEvents(gone[..|gone| - 1]) + [PlayerLeaveEvent(gone[|gone| - 1])]
  }

  /** The `PlayerLeave` messages the dispatches send to any one player. */
  function LeaveMessages(gone: seq<Player>): (r: seq<NetworkMessage>)
    ensures |r| == |gone|
    ensures forall x :: 0 <= x < |gone| ==> r[x] == PlayerLeave(gone[x])
    decreases |gone|
  {
    if gone == [] then [] else LeaveMessages(gone[..|gone| - 1]) + [PlayerLeave(gone[|gone| - 1])]
  }

  lemma {:induction false} LeaveSendsToEveryone(gone: seq<Player>, h: Player)
    ensures Sends(LeaveDispatches(gone), h) == LeaveMessages(gone)
    decreases |gone|
  {
    if gone != [] {
      var ds := LeaveDispatches(gone);
      LeaveSendsToEveryone(gone[..|gone| - 1], h);
      assert ds[..|ds| - 1] == LeaveDispatches(gone[..|gone| - 1]);
    }
  }

  /**
   * With distinct handles the sweep removes exactly the players that are
   * not connected and keeps the others in their order.
   */
  lemma {:induction false} RemovesExactlyTheDisconnected(ps: seq<ServerPlayer>)
    requires NoDup(PlayerHandles(ps))
    ensures Without(ps, Disconnected(ps)) == StillConnected(ps)
    decreases |ps|
  {
    if ps != [] {
      var init := ps[..|ps| - 1];
      var last := ps[|ps| - 1];
      var hs := PlayerHandles(ps);
      assert NoDup(PlayerHandles(init)) by {
        assert forall x :: 0 <= x < |init| ==> PlayerHandles(init)[x] == hs[x];
      }
      RemovesExactlyTheDisconnected(init);
      // `last` sharing no handle, the removed handle of `last` affects no earlier player, and conversely
      assert forall x :: 0 <= x < |init| ==> init[x].handle != last.handle by {
        forall x | 0 <= x < |init|
          ensures init[x].handle != last.handle
        {
          assert hs[x] == init[x].handle && hs[|ps| - 1] == last.handle;
        }
      }
      if last.socket.connected {
        assert Disconnected(ps) == Disconnected(init);
        assert last.handle !in Disconnected(init);
      } else {
        assert Disconnected(ps) == Disconnected(init) + [last.handle];
        WithoutIgnoresForeign(init, Disconnected(init), last.handle);
      }
    }
  }

  /** Removing players keeps the initialized ones first. */
  lemma {:induction false} WithoutKeepsPrefix(ps: seq<ServerPlayer>, gone: seq<Player>)
    requires InitializedPrefix(ps)
    ensures InitializedPrefix(Without(ps, gone))
    decreases |ps|
  {
    if ps != [] {
      var init, last := ps[..|ps| - 1], ps[|ps| - 1];
      assert forall x :: 0 <= x < |init| ==> init[x] == ps[x];
      WithoutKeepsPrefix(init, gone);
      var w := Without(init, gone);
      if last.initialized {
        forall x | 0 <= x < |w|
          ensures w[x].initialized
        {
          var y :| 0 <= y < |init| && init[y] == w[x];
          assert ps[y].initialized;
        }
      }
    }
  }

  /** A handle no player has makes no difference to the sweep. */
  lemma {:induction false} WithoutIgnoresForeign(ps: seq<ServerPlayer>, gone: seq<Player>, h: Player)
    requires forall x :: 0 <= x < |ps| ==> ps[x].handle != h
    ensures Without(ps, gone + [h]) == Without(ps, gone)
    decreases |ps|
  {
    if ps != [] {
      WithoutIgnoresForeign(ps[..|ps| - 1], gone, h);
    }
  }

  /**
   * After the sweep every remaining player has been sent one `PlayerLeave`
   * per removed player, in removal order, and nothing else changed.
   */
  lemma SurvivorsHearEveryLeave(ps: seq<ServerPlayer>)
    ensures var gone := Disconnected(ps);
      var survivors := Without(ps, gone);
      var r := FanOutAll(survivors, LeaveDispatches(gone));
      |r| == |survivors| &&
      forall x :: 0 <= x < |survivors| ==> r[x] == Appended(survivors[x], LeaveMessages(gone))
  {
    var gone := Disconnected(ps);
    var survivors := Without(ps, gone);
    FanOutAllAppendsSends(survivors, LeaveDispatches(gone));
    forall x | 0 <= x < |survivors|
      ensures Sends(LeaveDispatches(gone), survivors[x].handle) == LeaveMessages(gone)
    {
      LeaveSendsToEveryone(gone, survivors[x].handle);
    }
  }

  /**
   * `server_check_disconnects`. The players are the survivors after the
   * leave messages; the leave events are queued only when the server has
   * no local player.
   */
  method ServerCheckDisconnects(server: NetworkServer, queue: EventQueue)
    requires server.Valid()
    modifies server`players, queue`playerLeaveEvents
    ensures server.Valid()
    ensures var gone := Disconnected(old(server.players));
      server.players == FanOutAll(Without(old(server.players), gone), LeaveDispatches(gone)) &&
      queue.playerLeaveEvents == old(queue.playerLeaveEvents) + (if server.localPlayer.None? then LeaveEvents(gone) else [])
  {
    var gone := CollectDisconnected(server);
    Retain(server, gone);
    WithoutKeepsPrefix(old(server.players), gone);
    AnnounceLeaves(server, queue, gone);
    FanOutAllKeepsPrefix(Without(old(server.players), gone), LeaveDispatches(gone));
  }

  /** The first loop: the handles of the players that are not connected. */
  method CollectDisconnected(server: NetworkServer) returns (gone: seq<Player>)
    ensures gone == Disconnected(server.players)
  {
    ghost var ps := server.players;
    gone := [];
    var i := 0;
    while i < |server.players|
      invariant 0 <= i <= |ps| && server.players == ps
      invariant gone == Disconnected(ps[..i])
    {
      assert ps[..i + 1][..i] == ps[..i];
      if !server.players[i].socket.connected {
        gone := gone + [server.players[i].handle];
      }
      i := i + 1;
    }
    assert ps[..i] == ps;
  }

  /** The last loop: per removed handle, a leave event (without local player) and a `PlayerLeave` to all. */
  method AnnounceLeaves(server: NetworkServer, queue: EventQueue, gone: seq<Player>)
    modifies server`players, queue`playerLeaveEvents
    ensures server.players == FanOutAll(old(server.players), LeaveDispatches(gone))
    ensures queue.playerLeaveEvents == old(queue.playerLeaveEvents) + (if server.localPlayer.None? then LeaveEvents(gone) else [])
  {
    ghost var survivors := server.players;
    ghost var q0 := queue.playerLeaveEvents;
    assert gone[..0] == [];
    var j := 0;
    while j < |gone|
      invariant 0 <= j <= |gone|
      invariant AnnouncedUpTo(server, queue, survivors, q0, gone, j)
    {
      AnnounceNext(server, queue, survivors, q0, gone, j);
      j := j + 1;
    }
    assert gone[..j] == gone;
  }

  /** The last loop's invariant after `j` removed handles. */
  ghost predicate AnnouncedUpTo(server: NetworkServer, queue: EventQueue, survivors: seq<ServerPlayer>, q0: seq<PlayerLeaveEvent>,
                                gone: seq<Player>, j: nat)
    reads server, queue
  {
    j <= |gone| &&
    server.players == FanOutAll(survivors, LeaveDispatches(gone[..j])) &&
    queue.playerLeaveEvents == q0 + (if server.localPlayer.None? then LeaveEvents(gone[..j]) else [])
  }

  /** One step of the last loop. */
  method AnnounceNext(server: NetworkServer, queue: EventQueue, ghost survivors: seq<ServerPlayer>, ghost q0: seq<PlayerLeaveEvent>,
                      gone: seq<Player>, j: nat)
    requires j < |gone|
    requires AnnouncedUpTo(server, queue, survivors, q0, gone, j)
    modifies server`players, queue`playerLeaveEvents
    ensures AnnouncedUpTo(server, queue, survivors, q0, gone, j + 1)
  {
    ghost var pre := queue.playerLeaveEvents;
    AnnounceLeave(server, queue, gone[j]);
    LeaveStep(survivors, gone, j);
    QueuedLeaveStep(q0, pre, server.localPlayer, gone, j);
  }

  /** What one more removed handle adds to the fan-out passes and to the leave events. */
  lemma LeaveStep(survivors: seq<ServerPlayer>, gone: seq<Player>, j: nat)
    requires j < |gone|
    ensures FanOutAll(survivors, LeaveDispatches(gone[..j + 1]))
         == FanOut(FanOutAll(survivors, LeaveDispatches(gone[..j])), Everyone, PlayerLeave(gone[j]))
  {
    assert gone[..j + 1][..j] == gone[..j];
  }

  /** The leave events queued so far, one more handle on. */
  lemma QueuedLeaveStep(q0: seq<PlayerLeaveEvent>, pre: seq<PlayerLeaveEvent>, localPlayer: Option<Player>, gone: seq<Player>, j: nat)
    requires j < |gone|
    requires pre == q0 + (if localPlayer.None? then LeaveEvents(gone[..j]) else [])
    ensures pre + (if localPlayer.None? then [PlayerLeaveEvent(gone[j])] else [])
         == q0 + (if localPlayer.None? then LeaveEvents(gone[..j + 1]) else [])
  {
    if localPlayer.None? {
      var before := LeaveEvents(gone[..j]);
      var e := PlayerLeaveEvent(gone[j]);
      assert gone[..j + 1][..j] == gone[..j];
      assert LeaveEvents(gone[..j + 1]) == before + [e];
      assert pre + [e] == q0 + (before + [e]);
    } else {
      assert pre + [] == pre;
      assert q0 + [] == q0;
    }
  }

  /** One pass of the last loop, for the removed handle `h`. */
  method AnnounceLeave(server: NetworkServer, queue: EventQueue, h: Player)
    modifies server`players, queue`playerLeaveEvents
    ensures server.players == FanOut(old(server.players), Everyone, PlayerLeave(h))
    ensures queue.playerLeaveEvents == old(queue.playerLeaveEvents) + (if server.localPlayer.None? then [PlayerLeaveEvent(h)] else [])
  {
    if server.localPlayer.None? {
      queue.PlayerLeave(PlayerLeaveEvent(h));
    }
    server.Broadcast(Everyone, PlayerLeave(h));
  }

  /** `retain`: keep, in order, the players whose handle is not among `gone`. */
  method Retain(server: NetworkServer, gone: seq<Player>)
    modifies server`players
    ensures server.players == Without(old(server.players), gone)
  {
    ghost var ps := server.players;
    var kept: seq<ServerPlayer> := [];
    var i := 0;
    while i < |server.players|
      invariant 0 <= i <= |ps| && server.players == ps
      invariant kept == Without(ps[..i], gone)
    {
      assert ps[..i + 1][..i] == ps[..i];
      if server.players[i].handle !in gone {
        kept := kept + [server.players[i]];
      }
      i := i + 1;
    }
    assert ps[..i] == ps;
    server.players := kept;
  }
}
