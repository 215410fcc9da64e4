/**
 * `server_accept_sockets`: every host hands over its pending connections,
 * oldest first, and each becomes a joiner at the back of the server's
 * joiner list.
 */
module AcceptPipeline {
  import opened Wrappers
  import opened Messages
  import opened Server

  /** The pending sockets of the hosts, host by host and oldest first within a host. */
  function Pending(hosts: seq<Host>): seq<Socket> {
    if hosts == [] then [] else Pending(hosts[..|hosts| - 1]) + hosts[|hosts| - 1].backlog
  }

  /** Each socket wrapped as a joiner that has not introduced itself yet. */
  function AsJoiners(sockets: seq<Socket>): (r: seq<ServerJoiner>)
    ensures |r| == |sockets|
    ensures forall i :: 0 <= i < |r| ==> r[i] == ServerJoiner(Some(sockets[i]))
  {
    seq(|sockets|, i requires 0 <= i < |sockets| => ServerJoiner(Some(sockets[i])))
  }

  /** Joining two runs of sockets one after the other gives the two runs of joiners one after the other. */
  lemma AsJoinersAppend(a: seq<Socket>, b: seq<Socket>)
    ensures AsJoiners(a + b) == AsJoiners(a) + AsJoiners(b)
  {
    assert |AsJoiners(a + b)| == |AsJoiners(a) + AsJoiners(b)|;
    forall i | 0 <= i < |a| + |b|
      ensures AsJoiners(a + b)[i] == (AsJoiners(a) + AsJoiners(b))[i]
    {
      if i < |a| {
        assert (a + b)[i] == a[i];
      } else {
        assert (a + b)[i] == b[i - |a|];
      }
    }
  }

  /** The pending sockets of the first `n` hosts number as many as their backlogs hold. */
  lemma {:induction false} PendingLength(hosts: seq<Host>, n: nat)
    requires n <= |hosts|
    ensures |Pending(hosts[..n])| == Backlogged(hosts, n)
    decreases n
  {
    if n > 0 {
      PendingLength(hosts, n - 1);
      assert hosts[..n][..n - 1] == hosts[..n - 1];
    }
  }

  /**
   * Where each pending socket lands: socket `j` of host `h`'s backlog
   * comes after every socket of the hosts before `h` and the `j` sockets
   * ahead of it at `h`.
   */
  lemma {:induction false} PendingAt(hosts: seq<Host>, n: nat, h: nat, j: nat)
    requires h < n <= |hosts| && j < |hosts[h].backlog|
    ensures Backlogged(hosts, h) + j < |Pending(hosts[..n])|
    ensures Pending(hosts[..n])[Backlogged(hosts, h) + j] == hosts[h].backlog[j]
    decreases n
  {
    var init := hosts[..n][..n - 1];
    assert init == hosts[..n - 1];
    assert hosts[..n][n - 1] == hosts[n - 1];
    PendingLength(hosts, n - 1);
    if h < n - 1 {
      PendingAt(hosts, n - 1, h, j);
    } else {
      assert Backlogged(hosts, h) == |Pending(init)|;
    }
  }

  /**
   * Every accepted socket becomes exactly one joiner, at a known place:
   * socket `j` of host `h`'s backlog becomes joiner number
   * (sockets at the hosts before `h`) + `j` among the new joiners, and
   * the new joiners number as many as the backlogs held in total.
   */
  lemma AcceptedJoinerPosition(hosts: seq<Host>, h: nat, j: nat)
    requires h < |hosts| && j < |hosts[h].backlog|
    ensures |AsJoiners(Pending(hosts))| == Backlogged(hosts, |hosts|)
    ensures Backlogged(hosts, h) + j < |AsJoiners(Pending(hosts))|
    ensures AsJoiners(Pending(hosts))[Backlogged(hosts, h) + j] == ServerJoiner(Some(hosts[h].backlog[j]))
  {
    assert hosts[..|hosts|] == hosts;
    PendingLength(hosts, |hosts|);
    PendingAt(hosts, |hosts|, h, j);
  }

  /** The number of sockets waiting at the first `n` hosts. */
  function Backlogged(hosts: seq<Host>, n: nat): nat
    requires n <= |hosts|
  {
    if n == 0 then 0 else Backlogged(hosts, n - 1) + |hosts[n - 1].backlog|
  }

  /**
   * `server_accept_sockets`: `host.update()` is a no-op here; then
   * `accept` is called until it returns None, so every host ends with an
   * empty backlog, and the joiner list grows by the pending sockets in
   * host order.
   */
  method ServerAcceptSockets(server: NetworkServer)
    requires server.Valid()
    modifies server`hosts, server`joiners
    ensures server.Valid()
    ensures |server.hosts| == |old(server.hosts)|
    ensures forall h :: 0 <= h < |server.hosts| ==> server.hosts[h].backlog == []
    ensures server.joiners == old(server.joiners) + AsJoiners(Pending(old(server.hosts)))
  {
    AcceptFromHosts(server);
  }

  /** The loop over the hosts, in host order. */
  method AcceptFromHosts(server: NetworkServer)
    modifies server`hosts, server`joiners
    ensures |server.hosts| == |old(server.hosts)|
    ensures forall h :: 0 <= h < |server.hosts| ==> server.hosts[h].backlog == []
    ensures server.joiners == old(server.joiners) + AsJoiners(Pending(old(server.hosts)))
  {
    ghost var hs := server.hosts;
    ghost var js := server.joiners;
    assert hs[..0] == [];
    assert js + [] == js;
    var h := 0;
    while h < |server.hosts|
      invariant h <= |server.hosts| == |hs|
      invariant forall x :: 0 <= x < h ==> server.hosts[x].backlog == []
      invariant forall x :: h <= x < |hs| ==> server.hosts[x] == hs[x]
      invariant server.joiners == js + AsJoiners(Pending(hs[..h]))
    {
      AcceptAll(server, h);
      assert hs[..h + 1][..h] == hs[..h];
      AsJoinersAppend(Pending(hs[..h]), hs[h].backlog);
      h := h + 1;
    }
    assert hs[..h] == hs;
  }

  /** The inner loop for host `h`: accept until its backlog is empty. */
  method AcceptAll(server: NetworkServer, h: nat)
    requires h < |server.hosts|
    modifies server`hosts, server`joiners
    ensures |server.hosts| == |old(server.hosts)|
    ensures server.hosts == old(server.hosts)[h := Host([])]
    ensures server.joiners == old(server.joiners) + AsJoiners(old(server.hosts)[h].backlog)
  {
    ghost var hs := server.hosts;
    ghost var js := server.joiners;
    ghost var backlog := hs[h].backlog;
    assert js + [] == js;
    var taken := 0;
    while server.hosts[h].backlog != []
      invariant |server.hosts| == |hs| && taken <= |backlog|
      invariant server.hosts == hs[h := Host(backlog[taken..])]
      invariant server.joiners == js + AsJoiners(backlog[..taken])
      decreases |server.hosts[h].backlog|
    {
      var socket := Accept(server, h);
      assert backlog[..taken + 1] == backlog[..taken] + [socket];
      AsJoinersAppend(backlog[..taken], [socket]);
      taken := taken + 1;
    }
    assert backlog[..taken] == backlog;
  }

  /** One `accept` that returns a socket, and the joiner it becomes. */
  method Accept(server: NetworkServer, h: nat) returns (socket: Socket)
    requires h < |server.hosts| && server.hosts[h].backlog != []
    modifies server`hosts, server`joiners
    ensures socket == old(server.hosts)[h].backlog[0]
    ensures server.hosts == old(server.hosts)[h := Host(old(server.hosts)[h].backlog[1..])]
    ensures server.joiners == old(server.joiners) + [ServerJoiner(Some(socket))]
  {
    socket := server.hosts[h].backlog[0];
    server.hosts := server.hosts[h := Host(server.hosts[h].backlog[1..])];
    server.joiners := server.joiners + [ServerJoiner(Some(socket))];
  }
}
