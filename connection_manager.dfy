/** The back end's registry of open WebSocket connections and its fan-out of
    messages to them. A send that fails drops the connection from the registry. */
module ConnectionManager {
  import opened Seqs

  /** A WebSocket connection, compared by identity. */
  type Socket = nat

  /** The connections a send to them fails for. */
  function FailedIn(failing: set<Socket>): Socket -> bool {
    c => c in failing
  }

  /** The connections a send to them succeeds for. */
  function SucceededIn(failing: set<Socket>): Socket -> bool {
    c => c !in failing
  }

  /** Dropping the first occurrence of a failed connection leaves the surviving
      connections untouched. */
  lemma {:induction false} RemoveFailedKeepsSurvivors(s: seq<Socket>, failing: set<Socket>, x: Socket)
    requires x in failing
    ensures Filter(RemoveFirst(s, x), SucceededIn(failing)) == Filter(s, SucceededIn(failing))
  {
    var survives := SucceededIn(failing);
    if |s| > 0 {
      assert s == [s[0]] + s[1..];
      FilterCons(s[0], s[1..], survives);
      if s[0] != x {
        RemoveFailedKeepsSurvivors(s[1..], failing, x);
        assert RemoveFirst(s, x) == [s[0]] + RemoveFirst(s[1..], x);
        FilterCons(s[0], RemoveFirst(s[1..], x), survives);
      } else {
        assert !survives(x);
      }
    }
  }

  /** Dropping the first occurrence of a failed connection drops it from the
      failed ones too. */
  lemma {:induction false} RemoveFailedFromFailures(s: seq<Socket>, failing: set<Socket>, x: Socket)
    requires x in failing
    ensures Filter(RemoveFirst(s, x), FailedIn(failing)) == RemoveFirst(Filter(s, FailedIn(failing)), x)
  {
    var fails := FailedIn(failing);
    if |s| > 0 {
      assert s == [s[0]] + s[1..];
      FilterCons(s[0], s[1..], fails);
      if s[0] != x {
        RemoveFailedFromFailures(s[1..], failing, x);
        assert RemoveFirst(s, x) == [s[0]] + RemoveFirst(s[1..], x);
        FilterCons(s[0], RemoveFirst(s[1..], x), fails);
      } else {
        assert fails(x);
      }
    }
  }

  /** One step of the removal loop: disconnecting the first remaining failed
      connection keeps the survivors and leaves the other failed ones. */
  lemma DisconnectStep(s: seq<Socket>, failing: set<Socket>, conn: Socket, rest: seq<Socket>)
    requires Filter(s, FailedIn(failing)) == [conn] + rest
    ensures conn in failing
    ensures Filter(RemoveFirst(s, conn), SucceededIn(failing)) == Filter(s, SucceededIn(failing))
    ensures Filter(RemoveFirst(s, conn), FailedIn(failing)) == rest
  {
    assert FailedIn(failing)(Filter(s, FailedIn(failing))[0]);
    RemoveFailedKeepsSurvivors(s, failing, conn);
    RemoveFailedFromFailures(s, failing, conn);
  }

  /** One step of the collecting loop: the failed connections of a one-longer prefix. */
  lemma FailuresStep(s: seq<Socket>, failing: set<Socket>, i: nat, next: nat)
    requires next == i + 1 && next <= |s|
    ensures Filter(s[..next], FailedIn(failing)) ==
      Filter(s[..i], FailedIn(failing)) + (if s[i] in failing then [s[i]] else [])
  {
    assert s[..next] == s[..i] + [s[i]];
    FilterConcat(s[..i], [s[i]], FailedIn(failing));
  }

  /** A registry with no failed connection left is its surviving connections. */
  lemma NoFailuresLeft(s: seq<Socket>, failing: set<Socket>)
    requires Filter(s, FailedIn(failing)) == []
    ensures s == Filter(s, SucceededIn(failing))
  {
    forall k | 0 <= k < |s|
      ensures s[k] !in failing
    {
      FilterMembership(s, FailedIn(failing), s[k]);
    }
    FilterAll(s, SucceededIn(failing));
  }

  /** What broadcast leaves: the connections in their order, each failed one
      gone entirely and each other one kept as often as it was registered. */
  lemma SurvivorsOfBroadcast(before: seq<Socket>, failing: set<Socket>)
    ensures IsSubsequence(Filter(before, SucceededIn(failing)), before)
    ensures forall c :: (multiset(Filter(before, SucceededIn(failing)))[c] ==
                          if c in failing then 0 else multiset(before)[c])
  {
    FilterIsSubsequence(before, SucceededIn(failing));
    forall c ensures multiset(Filter(before, SucceededIn(failing)))[c] ==
      (if c in failing then 0 else multiset(before)[c])
    {
      FilterMultiplicity(before, SucceededIn(failing), c);
    }
  }

  class ConnectionManager {
    var activeConnections: seq<Socket>

    constructor()
      ensures activeConnections == []
    {
      activeConnections := [];
    }

    /** connect: the accepted connection joins the end of the registry. */
    method Connect(socket: Socket)
      modifies this`activeConnections
      ensures activeConnections == old(activeConnections) + [socket]
      ensures GetConnectionCount() == old(GetConnectionCount()) + 1
    {
      activeConnections := activeConnections + [socket];
    }

    /** disconnect: the first occurrence of the connection leaves the registry;
        an unknown connection changes nothing. */
    method Disconnect(socket: Socket)
      modifies this`activeConnections
      ensures activeConnections == RemoveFirst(old(activeConnections), socket)
      ensures socket !in old(activeConnections) ==> activeConnections == old(activeConnections)
      ensures multiset(activeConnections) == multiset(old(activeConnections)) - multiset{socket}
      ensures socket in old(activeConnections) ==> GetConnectionCount() == old(GetConnectionCount()) - 1
    {
      if socket in activeConnections {
        activeConnections := RemoveFirst(activeConnections, socket);
      }
    }

    /** broadcast: every connection is sent the message; afterwards exactly the
        connections whose send failed are gone, and the others stay in order. */
    method Broadcast(failing: set<Socket>)
      modifies this`activeConnections
      ensures old(activeConnections) == [] ==> activeConnections == []
      ensures activeConnections == Filter(old(activeConnections), SucceededIn(failing))
    {
      ghost var before := activeConnections;
      if activeConnections == [] {
        return;
      }
      var disconnected: seq<Socket> := [];
      var i := 0;
      while i < |activeConnections|
        invariant 0 <= i <= |activeConnections| && activeConnections == before
        invariant disconnected == Filter(activeConnections[..i], FailedIn(failing))
      {
        var next := i + 1;
        FailuresStep(activeConnections, failing, i, next);
        if activeConnections[i] in failing {
          disconnected := disconnected + [activeConnections[i]];
        }
        i := next;
      }
      assert activeConnections[..i] == activeConnections;
      var j := 0;
      while j < |disconnected|
        invariant 0 <= j <= |disconnected|
        invariant Filter(activeConnections, SucceededIn(failing)) == Filter(before, SucceededIn(failing))
        invariant Filter(activeConnections, FailedIn(failing)) == disconnected[j..]
      {
        var conn := disconnected[j];
        assert disconnected[j..] == [conn] + disconnected[j + 1..];
        DisconnectStep(activeConnections, failing, conn, disconnected[j + 1..]);
        Disconnect(conn);
        j := j + 1;
      }
      NoFailuresLeft(activeConnections, failing);
    }

    /** send_to_client: a failed send drops the connection, a successful one changes nothing. */
    method SendToClient(socket: Socket, sendFails: bool)
      modifies this`activeConnections
      ensures activeConnections == if sendFails then RemoveFirst(old(activeConnections), socket)
        else old(activeConnections)
    {
      if sendFails {
        Disconnect(socket);
      }
    }

    /** get_connection_count: the number of registered connections. */
    function GetConnectionCount(): (n: nat)
      reads this`activeConnections
      ensures n == |activeConnections|
    {
      |activeConnections|
    }
  }
}
