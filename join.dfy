/**
 * The join handshake on the server: `server_receive_messages_from_joiners`
 * turns a joiner that introduces itself with `PlayerInit` into a player,
 * and `server_initialize_players` introduces every new player to everyone
 * already in the session and the session to the new player.
 */
module JoinPipeline {
  import opened Wrappers
  import opened Handles
  import opened Payloads
  import opened Messages
  import opened Events
  import opened Server

  /** The position of the first `PlayerInit` among `ms`, if any. */
  function FirstInit(ms: seq<NetworkMessage>): (r: Option<nat>)
    ensures r.Some? ==> r.value < |ms| && ms[r.value].PlayerInit?
    ensures r.Some? ==> forall k :: 0 <= k < r.value ==> !ms[k].PlayerInit?
    ensures r.None? ==> forall k :: 0 <= k < |ms| ==> !ms[k].PlayerInit?
    decreases |ms|
  {
    if ms == [] then None
    else if ms[0].PlayerInit? then Some(0)
    else
      match FirstInit(ms[1..])
      case None => None
      case Some(k) => Some(k + 1)
  }

  /**
   * The player a joiner becomes in one pass: the first `PlayerInit` it sent
   * names the handle and the data, and the socket keeps whatever arrived
   * after that message. Messages before it are dropped.
   */
  function Promoted(j: ServerJoiner): (r: Option<ServerPlayer>)
    ensures r.Some? ==> !r.value.initialized
  {
    if j.socket.None? then None
    else
      var s := j.socket.value;
      match FirstInit(s.inbox)
      case None => None
      case Some(k) =>
        Some(ServerPlayer(false, s.inbox[k].player, s.(inbox := s.inbox[k + 1..]), s.inbox[k].playerData))
  }

  /** A joiner that sent no `PlayerInit`: it stays, with everything it sent read and dropped. */
  function Waiting(j: ServerJoiner): (r: Option<ServerJoiner>)
    ensures r.Some? ==> r.value.socket.Some? && r.value.socket.value.inbox == []
  {
    if j.socket.Some? && FirstInit(j.socket.value.inbox).None? then
      Some(ServerJoiner(Some(j.socket.value.(inbox := []))))
    else None
  }

  /** A joiner with a socket either becomes a player or keeps waiting; a joiner without one does neither. */
  lemma PromotedOrWaiting(j: ServerJoiner)
    ensures Promoted(j).Some? != Waiting(j).Some? <==> j.socket.Some?
    ensures Promoted(j).Some? ==>
      (FirstInit(j.socket.value.inbox).Some? &&
       Promoted(j).value.handle == j.socket.value.inbox[FirstInit(j.socket.value.inbox).value].player)
  {
  }

  /** The players the joiners `js` become, in joiner order. */
  function NewPlayers(js: seq<ServerJoiner>): (r: seq<ServerPlayer>)
    ensures forall x :: 0 <= x < |r| ==> !r[x].initialized
    decreases |js|
  {
    if js == [] then []
    else
      var last := js[|js| - 1];
      NewPlayers(js[..|js| - 1]) + (if Promoted(last).Some? then [Promoted(last).value] else [])
  }

  /** The joiners that keep waiting, in joiner order. */
  function StillWaiting(js: seq<ServerJoiner>): seq<ServerJoiner>
    decreases |js|
  {
    if js == [] then []
    else
      var last := js[|js| - 1];
      StillWaiting(js[..|js| - 1]) + (if Waiting(last).Some? then [Waiting(last).value] else [])
  }

  /** The number of joiners that hold a socket. */
  function WithSocket(js: seq<ServerJoiner>): nat
    decreases |js|
  {
    if js == [] then 0 else WithSocket(js[..|js| - 1]) + (if js[|js| - 1].socket.Some? then 1 else 0)
  }

  /**
   * No joiner is lost or duplicated: every joiner with a socket either
   * became exactly one player or is exactly one waiting joiner, and every
   * waiting joiner has nothing left to read.
   */
  lemma {:induction false} HandshakeAccountsForEveryJoiner(js: seq<ServerJoiner>)
    ensures |NewPlayers(js)| + |StillWaiting(js)| == WithSocket(js)
    ensures forall x :: 0 <= x < |StillWaiting(js)| ==>
      StillWaiting(js)[x].socket.Some? && StillWaiting(js)[x].socket.value.inbox == []
    decreases |js|
  {
    if js != [] {
      HandshakeAccountsForEveryJoiner(js[..|js| - 1]);
      PromotedOrWaiting(js[|js| - 1]);
    }
  }

  /** The joiner slot after its pass in the loop: emptied when it became a player. */
  function AfterPass(j: ServerJoiner): ServerJoiner {
    if Waiting(j).Some? then Waiting(j).value else ServerJoiner(None)
  }

  /** `joiners.retain(|j| j.socket.is_some())`. */
  function KeepWithSocket(js: seq<ServerJoiner>): (r: seq<ServerJoiner>)
    ensures forall x :: 0 <= x < |r| ==> r[x].socket.Some?
    decreases |js|
  {
    if js == [] then []
    else KeepWithSocket(js[..|js| - 1]) + (if js[|js| - 1].socket.Some? then [js[|js| - 1]] else [])
  }

  lemma {:induction false} KeepAfterPassIsStillWaiting(js: seq<ServerJoiner>, after: seq<ServerJoiner>)
    requires |after| == |js|
    requires forall x :: 0 <= x < |js| ==> after[x] == AfterPass(js[x])
    ensures KeepWithSocket(after) == StillWaiting(js)
    decreases |js|
  {
    if js != [] {
      var n := |js| - 1;
      KeepAfterPassIsStillWaiting(js[..n], after[..n]);
      assert after[..n + 1][..n] == after[..n];
    }
  }

  /**
   * The inner loop of `server_receive_messages_from_joiners` on one joiner's
   * socket: messages are read until the first `PlayerInit`, which makes the
   * joiner a player; a socket that runs dry keeps the joiner waiting.
   */
  method ReadUntilInit(socket0: Socket) returns (player: Option<ServerPlayer>, socket: Socket)
    ensures player == Promoted(ServerJoiner(Some(socket0)))
    ensures player.None? ==> Waiting(ServerJoiner(Some(socket0))) == Some(ServerJoiner(Some(socket)))
  {
    socket := socket0;
    ghost var n := 0;
    player := None;
    while player.None? && socket.inbox != []
      invariant 0 <= n <= |socket0.inbox|
      invariant socket == socket0.(inbox := socket0.inbox[n..])
      invariant player.None? ==> forall k :: 0 <= k < n ==> !socket0.inbox[k].PlayerInit?
      invariant player.Some? ==> player == Promoted(ServerJoiner(Some(socket0)))
      decreases |socket.inbox|
    {
      var (message, rest) := socket.Receive();
      socket := rest;
      n := n + 1;
      if message.value.PlayerInit? {
        assert FirstInit(socket0.inbox) == Some(n - 1);
        player := Some(ServerPlayer(false, message.value.player, socket, message.value.playerData));
      }
    }
    if player.None? {
      assert FirstInit(socket0.inbox).None?;
    }
  }

  /**
   * `server_receive_messages_from_joiners`: each joiner's socket is read
   * until its first `PlayerInit`; such a joiner is appended to the players
   * (not yet initialized, under the handle the message names) and leaves
   * the joiners; the others stay, in order, with what they sent dropped.
   */
  method ServerReceiveMessagesFromJoiners(server: NetworkServer)
    requires server.Valid()
    modifies server`joiners, server`players
    ensures server.Valid()
    ensures server.players == old(server.players) + NewPlayers(old(server.joiners))
    ensures server.joiners == StillWaiting(old(server.joiners))
  {
    ghost var js := server.joiners;
    ghost var ps := server.players;
    var i := 0;
    while i < |server.joiners|
      invariant 0 <= i <= |server.joiners| == |js|
      invariant forall x :: 0 <= x < i ==> server.joiners[x] == AfterPass(js[x])
      invariant forall x :: i <= x < |js| ==> server.joiners[x] == js[x]
      invariant server.players == ps + NewPlayers(js[..i])
    {
      assert js[..i + 1][..i] == js[..i];
      var joiner := server.joiners[i];
      if joiner.socket.Some? {
        var player, socket := ReadUntilInit(joiner.socket.value);
        if player.Some? {
          server.players := server.players + [player.value];
          server.joiners := server.joiners[i := ServerJoiner(None)];
        } else {
          server.joiners := server.joiners[i := ServerJoiner(Some(socket))];
        }
      }
      i := i + 1;
    }
    assert js[..i] == js;
    KeepAfterPassIsStillWaiting(js, server.joiners);
    server.joiners := KeepWithSocket(server.joiners);
  }

  /** `PlayerJoin` announcing `p` (`me` tells the receiver it is `p`). */
  function JoinMsg(p: ServerPlayer, me: bool): NetworkMessage {
    PlayerJoin(p.handle, me, p.data)
  }

  /** Announcements of the players `lo` up to `hi`, each to someone else, in list order. */
  function Announcements(ps: seq<ServerPlayer>, lo: nat, hi: nat): (r: seq<NetworkMessage>)
    requires lo <= hi <= |ps|
    ensures |r| == hi - lo
    ensures forall t :: 0 <= t < hi - lo ==> r[t] == JoinMsg(ps[lo + t], false)
    decreases hi - lo
  {
    if lo == hi then [] else Announcements(ps, lo, hi - 1) + [JoinMsg(ps[hi - 1], false)]
  }

  /** The number of players before the first uninitialized one. */
  function InitializedCount(ps: seq<ServerPlayer>): (k: nat)
    ensures k <= |ps|
    ensures forall x :: 0 <= x < k ==> ps[x].initialized
    ensures k < |ps| ==> !ps[k].initialized
    decreases |ps|
  {
    if ps == [] || !ps[0].initialized then 0 else 1 + InitializedCount(ps[1..])
  }

  /**
   * What player `x` has been sent once the newcomers `k` up to `i` were
   * introduced in list order (`k` = the players initialized before). A
   * player already in the session hears of each newcomer; a newcomer first
   * hears of everyone ahead of it, then of itself with `me` set, then of
   * the newcomers behind it; a newcomer not yet reached has heard nothing.
   */
  function Introductions(ps: seq<ServerPlayer>, k: nat, i: nat, x: nat): seq<NetworkMessage>
    requires k <= i <= |ps| && x < |ps|
  {
    if x < k then Announcements(ps, k, i)
    else if x < i then Announcements(ps, 0, x) + [JoinMsg(ps[x], true)] + Announcements(ps, x + 1, i)
    else []
  }

  /** The host-world join events for newcomers `lo` up to `hi`. */
  function JoinEvents(ps: seq<ServerPlayer>, lo: nat, hi: nat): (r: seq<PlayerJoinEvent>)
    requires lo <= hi <= |ps|
    ensures |r| == hi - lo
    ensures forall t :: 0 <= t < hi - lo ==> r[t] == PlayerJoinEvent(ps[lo + t].handle, false, false)
    decreases hi - lo
  {
    if lo == hi then [] else JoinEvents(ps, lo, hi - 1) + [PlayerJoinEvent(ps[hi - 1].handle, false, false)]
  }

  /** Introducing newcomer `i` adds exactly one message to what each player up to `i` has been sent. */
  lemma IntroductionsStep(ps: seq<ServerPlayer>, k: nat, i: nat, x: nat)
    requires k <= i < |ps| && x < |ps|
    ensures x < i ==> Introductions(ps, k, i + 1, x) == Introductions(ps, k, i, x) + [JoinMsg(ps[i], false)]
    ensures x == i && k <= i ==> Introductions(ps, k, i + 1, x) == Announcements(ps, 0, i) + [JoinMsg(ps[i], true)]
    ensures x > i ==> Introductions(ps, k, i + 1, x) == []
  {
    if x < k {
    } else if x < i {
      assert Announcements(ps, 0, x) + [JoinMsg(ps[x], true)] + Announcements(ps, x + 1, i + 1)
          == Announcements(ps, 0, x) + [JoinMsg(ps[x], true)] + Announcements(ps, x + 1, i) + [JoinMsg(ps[i], false)];
    } else if x == i {
      assert Announcements(ps, i + 1, i + 1) == [];
    }
  }

  /**
   * A newcomer learns the whole roster, in list order: the handles it is
   * sent are exactly the handles of the player list, and only the one at
   * its own position carries `me`.
   */
  lemma NewcomerLearnsRosterInOrder(ps: seq<ServerPlayer>, x: nat)
    requires InitializedCount(ps) <= x < |ps|
    ensures var ms := Introductions(ps, InitializedCount(ps), |ps|, x);
      |ms| == |ps| &&
      (forall t :: 0 <= t < |ps| ==> ms[t].PlayerJoin? && ms[t].player == ps[t].handle && (ms[t].me <==> t == x))
  {
    var k := InitializedCount(ps);
    assert Introductions(ps, k, |ps|, x) == Announcements(ps, 0, x) + [JoinMsg(ps[x], true)] + Announcements(ps, x + 1, |ps|);
    RosterSplit(ps, x);
  }

  /** The messages ahead of, at and behind position `x` of a newcomer's introductions. */
  lemma RosterSplit(ps: seq<ServerPlayer>, x: nat)
    requires x < |ps|
    ensures var ms := Announcements(ps, 0, x) + [JoinMsg(ps[x], true)] + Announcements(ps, x + 1, |ps|);
      |ms| == |ps| &&
      (forall t :: 0 <= t < |ps| ==> ms[t].PlayerJoin? && ms[t].player == ps[t].handle && (ms[t].me <==> t == x))
  {
    var pre, post := Announcements(ps, 0, x), Announcements(ps, x + 1, |ps|);
    var ms := pre + [JoinMsg(ps[x], true)] + post;
    forall t | 0 <= t < |ps|
      ensures ms[t].PlayerJoin? && ms[t].player == ps[t].handle && (ms[t].me <==> t == x)
    {
      if t < x {
        assert ms[t] == pre[t] == JoinMsg(ps[0 + t], false);
      } else if t == x {
        assert ms[t] == JoinMsg(ps[x], true);
      } else {
        assert ms[t] == post[t - x - 1] == JoinMsg(ps[x + 1 + (t - x - 1)], false);
      }
    }
  }

  /** A player already in the session is told of each newcomer once, in list order, never as itself. */
  lemma ExistingPlayerHearsOfNewcomers(ps: seq<ServerPlayer>, x: nat)
    requires x < InitializedCount(ps)
    ensures var k := InitializedCount(ps);
      var ms := Introductions(ps, k, |ps|, x);
      |ms| == |ps| - k &&
      (forall t :: 0 <= t < |ms| ==> ms[t] == PlayerJoin(ps[k + t].handle, false, ps[k + t].data))
  {
  }

  /**
   * The inner loop of `server_initialize_players` for newcomer `i`: it is
   * sent every player ahead of it and then itself, each of those is sent
   * the newcomer, and the players behind it (not yet initialized) are
   * skipped.
   */
  method IntroduceNewcomer(server: NetworkServer, i: nat)
    requires i < |server.players|
    requires forall x :: 0 <= x < |server.players| && x != i ==> server.players[x].handle != server.players[i].handle
    requires forall x :: 0 <= x < i ==> server.players[x].initialized
    requires forall x :: i < x < |server.players| ==> !server.players[x].initialized
    modifies server`players
    ensures |server.players| == |old(server.players)|
    ensures server.players[i] == Appended(old(server.players)[i],
      Announcements(old(server.players), 0, i) + [JoinMsg(old(server.players)[i], true)])
    ensures forall x :: 0 <= x < i ==>
      server.players[x] == Appended(old(server.players)[x], [JoinMsg(old(server.players)[i], false)])
    ensures forall x :: i < x < |server.players| ==> server.players[x] == old(server.players)[x]
  {
    ghost var ps := server.players;
    var newcomer := server.players[i];
    assert Announcements(ps, 0, 0) == [] && ps[i].socket.outbox + [] == ps[i].socket.outbox;
    var j := 0;
    while j < |server.players|
      invariant 0 <= j <= |server.players| == |ps|
      invariant IntroducedUpTo(server.players, ps, i, j)
    {
      IntroduceTo(server, ps, i, j, newcomer);
      j := j + 1;
    }
  }

  /** The inner loop's invariant once it has looked at the first `j` players. */
  ghost predicate IntroducedUpTo(players: seq<ServerPlayer>, ps: seq<ServerPlayer>, i: nat, j: nat)
    requires i < |ps|
  {
    |players| == |ps| && j <= |ps| &&
    players[i] == Appended(ps[i], Announcements(ps, 0, if j < i then j else i) + (if j > i then [JoinMsg(ps[i], true)] else [])) &&
    (forall x :: 0 <= x < j && x < i ==> players[x] == Appended(ps[x], [JoinMsg(ps[i], false)])) &&
    (forall x :: j <= x < |ps| && x != i ==> players[x] == ps[x]) &&
    (forall x :: i < x < |ps| ==> players[x] == ps[x])
  }

  /** One pass of the inner loop: player `j` and the newcomer `i` learn of each other if `j` is initialized. */
  method IntroduceTo(server: NetworkServer, ghost ps: seq<ServerPlayer>, i: nat, j: nat, newcomer: ServerPlayer)
    requires i < |ps| && j < |ps| && newcomer == ps[i]
    requires forall x :: 0 <= x < |ps| && x != i ==> ps[x].handle != ps[i].handle
    requires forall x :: 0 <= x < i ==> ps[x].initialized
    requires forall x :: i < x < |ps| ==> !ps[x].initialized
    requires IntroducedUpTo(server.players, ps, i, j)
    modifies server`players
    ensures IntroducedUpTo(server.players, ps, i, j + 1)
  {
    var other := server.players[j];
    assert other.handle == ps[j].handle && other.initialized == ps[j].initialized && other.data == ps[j].data;
    var me := newcomer.handle == other.handle;
    assert me <==> j == i;
    if other.initialized || me {
      server.players := server.players[i := Deliver(server.players[i], PlayerJoin(other.handle, me, other.data))];
      if !me {
        server.players := server.players[j := Deliver(server.players[j], PlayerJoin(newcomer.handle, false, newcomer.data))];
      }
    }
    if j < i {
      assert Announcements(ps, 0, j + 1) == Announcements(ps, 0, j) + [JoinMsg(ps[j], false)];
    }
  }

  /** Under the prefix invariant nobody behind the first uninitialized player is initialized. */
  lemma UninitializedSuffix(ps: seq<ServerPlayer>)
    requires InitializedPrefix(ps)
    ensures forall x :: InitializedCount(ps) <= x < |ps| ==> !ps[x].initialized
  {
    var k := InitializedCount(ps);
    forall x | k <= x < |ps|
      ensures !ps[x].initialized
    {
      if x > k {
        assert !ps[k].initialized;
      }
    }
  }

  /** Player `x` once the newcomers `k` up to `i` were introduced and marked initialized. */
  function StageEntry(ps: seq<ServerPlayer>, k: nat, i: nat, x: nat): ServerPlayer
    requires k <= i <= |ps| && x < |ps|
  {
    Appended(ps[x], Introductions(ps, k, i, x)).(initialized := ps[x].initialized || x < i)
  }

  /** The first `n` players at that stage. */
  function Stage(ps: seq<ServerPlayer>, k: nat, i: nat, n: nat := |ps|): (r: seq<ServerPlayer>)
    requires k <= i <= |ps| && n <= |ps|
    ensures |r| == n
    ensures forall x :: 0 <= x < n ==> r[x] == StageEntry(ps, k, i, x)
    decreases n
  {
    if n == 0 then [] else Stage(ps, k, i, n - 1) + [StageEntry(ps, k, i, n - 1)]
  }

  /** At every stage a player keeps its handle, and nobody at or behind `i` has changed yet. */
  lemma StageEntryShape(ps: seq<ServerPlayer>, k: nat, i: nat, x: nat)
    requires k <= i <= |ps| && x < |ps|
    ensures StageEntry(ps, k, i, x).handle == ps[x].handle && StageEntry(ps, k, i, x).data == ps[x].data
    ensures x < i ==> StageEntry(ps, k, i, x).initialized
    ensures x >= i ==> StageEntry(ps, k, i, x) == ps[x]
    ensures x < k == i && ps[x].initialized ==> StageEntry(ps, k, i, x) == ps[x]
  {
    if x >= i || (x < k == i) {
      assert Introductions(ps, k, i, x) == [];
      assert ps[x].socket.outbox + [] == ps[x].socket.outbox;
    }
  }

  /** Before any newcomer is introduced the list is as it was; at every stage handles and flags line up. */
  lemma StageShape(ps: seq<ServerPlayer>, k: nat, i: nat)
    requires k == InitializedCount(ps) && k <= i <= |ps|
    requires forall x :: k <= x < |ps| ==> !ps[x].initialized
    ensures i == k ==> Stage(ps, k, i) == ps
    ensures PlayerHandles(Stage(ps, k, i)) == PlayerHandles(ps)
    ensures forall x :: 0 <= x < i ==> Stage(ps, k, i)[x].initialized
    ensures forall x :: i <= x < |ps| ==> Stage(ps, k, i)[x] == ps[x]
  {
    var st := Stage(ps, k, i);
    forall x | 0 <= x < |ps|
      ensures st[x].handle == ps[x].handle
      ensures x < i ==> st[x].initialized
      ensures x >= i ==> st[x] == ps[x]
      ensures i == k ==> st[x] == ps[x]
    {
      StageEntryShape(ps, k, i, x);
    }
    SameHandles(st, ps);
    if i == k {
      assert st == ps;
    }
  }

  /** Announcements depend only on the announced players' handles and data. */
  lemma {:induction false} SameAnnouncements(a: seq<ServerPlayer>, b: seq<ServerPlayer>, lo: nat, hi: nat)
    requires lo <= hi <= |a| && hi <= |b|
    requires forall x :: lo <= x < hi ==> a[x].handle == b[x].handle && a[x].data == b[x].data
    ensures Announcements(a, lo, hi) == Announcements(b, lo, hi)
    decreases hi - lo
  {
    if lo < hi {
      SameAnnouncements(a, b, lo, hi - 1);
    }
  }

  /** Two lists whose players have the same handles position by position have the same handle list. */
  lemma SameHandles(a: seq<ServerPlayer>, b: seq<ServerPlayer>)
    requires |a| == |b| && forall x :: 0 <= x < |a| ==> a[x].handle == b[x].handle
    ensures PlayerHandles(a) == PlayerHandles(b)
  {
    var ha, hb := PlayerHandles(a), PlayerHandles(b);
    assert forall x :: 0 <= x < |a| ==> ha[x] == hb[x];
  }

  /** Introducing newcomer `i` and marking it initialized moves the list from stage `i` to stage `i + 1`. */
  lemma StageStep(ps: seq<ServerPlayer>, k: nat, i: nat, after: seq<ServerPlayer>)
    requires k <= i < |ps| && !ps[i].initialized
    requires |after| == |ps|
    requires after[i] == Appended(ps[i], Announcements(ps, 0, i) + [JoinMsg(ps[i], true)]).(initialized := true)
    requires forall x :: 0 <= x < i ==> after[x] == Appended(StageEntry(ps, k, i, x), [JoinMsg(ps[i], false)])
    requires forall x :: i < x < |ps| ==> after[x] == ps[x]
    ensures after == Stage(ps, k, i + 1)
  {
    var next := Stage(ps, k, i + 1);
    forall x | 0 <= x < |ps|
      ensures after[x] == next[x]
    {
      IntroductionsStep(ps, k, i, x);
      StageEntryShape(ps, k, i + 1, x);
      if x < i {
        assert ps[x].socket.outbox + Introductions(ps, k, i, x) + [JoinMsg(ps[i], false)]
            == ps[x].socket.outbox + Introductions(ps, k, i + 1, x);
      }
    }
  }

  function Later(i: nat, k: nat): nat {
    if i < k then k else i
  }

  /** What the inner loop does to stage `i`, followed by setting the flag, is stage `i + 1`. */
  lemma IntroducedIsNextStage(ps: seq<ServerPlayer>, k: nat, i: nat, mid: seq<ServerPlayer>)
    requires k == InitializedCount(ps) && k <= i < |ps|
    requires forall x :: k <= x < |ps| ==> !ps[x].initialized
    requires |mid| == |ps|
    requires var before := Stage(ps, k, i);
      mid[i] == Appended(before[i], Announcements(before, 0, i) + [JoinMsg(before[i], true)]) &&
      (forall x :: 0 <= x < i ==> mid[x] == Appended(before[x], [JoinMsg(before[i], false)])) &&
      (forall x :: i < x < |mid| ==> mid[x] == before[x])
    ensures mid[i := mid[i].(initialized := true)] == Stage(ps, k, i + 1)
  {
    var before := Stage(ps, k, i);
    var after := mid[i := mid[i].(initialized := true)];
    StageEntryShape(ps, k, i, i);
    StagedAnnouncements(ps, k, i);
    forall x | i < x < |ps|
      ensures after[x] == ps[x]
    {
      StageEntryShape(ps, k, i, x);
    }
    StageStep(ps, k, i, after);
  }

  /** The players ahead of `i` announce themselves at stage `i` as they did at the start. */
  lemma StagedAnnouncements(ps: seq<ServerPlayer>, k: nat, i: nat)
    requires k <= i < |ps|
    ensures Announcements(Stage(ps, k, i), 0, i) == Announcements(ps, 0, i)
  {
    var before := Stage(ps, k, i);
    forall x | 0 <= x < i
      ensures before[x].handle == ps[x].handle && before[x].data == ps[x].data
    {
      StageEntryShape(ps, k, i, x);
    }
    SameAnnouncements(before, ps, 0, i);
  }

  /** One newcomer of `server_initialize_players`: its introductions and its flag. */
  method InitializeNewcomer(server: NetworkServer, ghost ps: seq<ServerPlayer>, ghost k: nat, i: nat)
    requires k == InitializedCount(ps) && k <= i < |ps| && NoDup(PlayerHandles(ps))
    requires forall x :: k <= x < |ps| ==> !ps[x].initialized
    requires server.players == Stage(ps, k, i)
    modifies server`players
    ensures server.players == Stage(ps, k, i + 1)
  {
    StageShape(ps, k, i);
    forall x | 0 <= x < |ps| && x != i
      ensures server.players[x].handle != server.players[i].handle
    {
      assert PlayerHandles(server.players)[x] == server.players[x].handle;
      assert PlayerHandles(server.players)[i] == server.players[i].handle;
    }
    IntroduceNewcomer(server, i);
    IntroducedIsNextStage(ps, k, i, server.players);
    server.players := server.players[i := server.players[i].(initialized := true)];
  }

  /** Before the first newcomer nothing has been introduced and no join event sent. */
  lemma NothingStagedYet(ps: seq<ServerPlayer>)
    requires InitializedPrefix(ps)
    ensures var k := InitializedCount(ps);
      Later(0, k) == k && Stage(ps, k, k) == ps && JoinEvents(ps, k, k) == []
  {
    UninitializedSuffix(ps);
    StageShape(ps, InitializedCount(ps), InitializedCount(ps));
  }

  /** What `server_initialize_players` has done once it has looked at the first `i` players. */
  ghost predicate InitializedUpTo(server: NetworkServer, queue: EventQueue, ps: seq<ServerPlayer>, q0: seq<PlayerJoinEvent>, i: nat)
    reads server, queue
    requires InitializedCount(ps) <= |ps|
  {
    var k := InitializedCount(ps);
    i <= |ps| && server.players == Stage(ps, k, Later(i, k)) &&
    queue.playerJoinEvents == q0 + (if server.localPlayer.None? then JoinEvents(ps, k, Later(i, k)) else [])
  }

  /** The host-world join event of newcomer `i`, sent only when the server has no local player. */
  method AnnounceJoin(queue: EventQueue, localPlayer: Option<Player>, newcomer: Player,
                      ghost ps: seq<ServerPlayer>, ghost k: nat, ghost q0: seq<PlayerJoinEvent>, i: nat)
    requires k <= i < |ps| && newcomer == ps[i].handle
    requires queue.playerJoinEvents == q0 + (if localPlayer.None? then JoinEvents(ps, k, i) else [])
    modifies queue`playerJoinEvents
    ensures queue.playerJoinEvents == q0 + (if localPlayer.None? then JoinEvents(ps, k, i + 1) else [])
  {
    if localPlayer.None? {
      queue.PlayerJoin(PlayerJoinEvent(newcomer, false, false));
      ghost var done, e := JoinEvents(ps, k, i), [PlayerJoinEvent(ps[i].handle, false, false)];
      assert JoinEvents(ps, k, i + 1) == done + e;
      assert (q0 + done) + e == q0 + (done + e);
    }
  }

  /** The body of the loop of `server_initialize_players` for player `i`. */
  method InitializeAt(server: NetworkServer, queue: EventQueue, ghost ps: seq<ServerPlayer>, ghost q0: seq<PlayerJoinEvent>, i: nat)
    requires InitializedPrefix(ps) && NoDup(PlayerHandles(ps)) && i < |ps|
    requires InitializedUpTo(server, queue, ps, q0, i)
    modifies server`players, queue`playerJoinEvents
    ensures InitializedUpTo(server, queue, ps, q0, i + 1)
  {
    ghost var k := InitializedCount(ps);
    UninitializedSuffix(ps);
    StageShape(ps, k, Later(i, k));
    if !server.players[i].initialized {
      assert k <= i && Later(i, k) == i && Later(i + 1, k) == i + 1;
      AnnounceJoin(queue, server.localPlayer, server.players[i].handle, ps, k, q0, i);
      InitializeNewcomer(server, ps, k, i);
    } else {
      assert i < k && Later(i + 1, k) == k;
    }
  }

  /**
   * `server_initialize_players`: every player ends up initialized. Each
   * newcomer, in list order, gets a host-world join event when the server
   * has no local player, and is introduced as `Introductions` describes.
   */
  method ServerInitializePlayers(server: NetworkServer, queue: EventQueue)
    requires server.Valid() && NoDup(PlayerHandles(server.players))
    modifies server`players, queue`playerJoinEvents
    ensures server.Valid()
    ensures |server.players| == |old(server.players)|
    ensures server.players == Stage(old(server.players), InitializedCount(old(server.players)), |server.players|)
    ensures queue.playerJoinEvents == old(queue.playerJoinEvents) +
      (if server.localPlayer.None? then JoinEvents(old(server.players), InitializedCount(old(server.players)), |server.players|) else [])
  {
    ghost var ps := server.players;
    InitializeEach(server, queue);
    InitializeLeavesEveryoneInitialized(ps);
  }

  /** The loop of `server_initialize_players`, over the players in list order. */
  method InitializeEach(server: NetworkServer, queue: EventQueue)
    requires InitializedPrefix(server.players) && NoDup(PlayerHandles(server.players))
    modifies server`players, queue`playerJoinEvents
    ensures |server.players| == |old(server.players)|
    ensures server.players == Stage(old(server.players), InitializedCount(old(server.players)), |server.players|)
    ensures queue.playerJoinEvents == old(queue.playerJoinEvents) +
      (if server.localPlayer.None? then JoinEvents(old(server.players), InitializedCount(old(server.players)), |server.players|) else [])
  {
    ghost var ps := server.players;
    ghost var q0 := queue.playerJoinEvents;
    ghost var k := InitializedCount(ps);
    NothingStagedYet(ps);
    assert q0 + [] == q0;
    var i, n := 0, |server.players|;
    while i < n
      invariant n == |ps| == |server.players|
      invariant InitializedUpTo(server, queue, ps, q0, i)
    {
      InitializeAt(server, queue, ps, q0, i);
      i := i + 1;
    }
    assert Later(i, k) == i == |ps|;
  }

  /** Under the server's invariants every player is initialized afterwards and the prefix invariant holds. */
  lemma InitializeLeavesEveryoneInitialized(ps: seq<ServerPlayer>)
    requires InitializedPrefix(ps)
    ensures var st := Stage(ps, InitializedCount(ps), |ps|);
      InitializedPrefix(st) && PlayerHandles(st) == PlayerHandles(ps) &&
      forall x :: 0 <= x < |st| ==> st[x].initialized
  {
    UninitializedSuffix(ps);
    StageShape(ps, InitializedCount(ps), |ps|);
  }
}
