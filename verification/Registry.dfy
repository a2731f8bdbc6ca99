/** The heartbeat registry of agents (service/controllers.go): registrations and expiry checks, both
    under the service lock and therefore in one order. Times are nanoseconds. */
module Registry {
  import opened GoInts

  const EXPIRY: int := 15 * SECOND

  datatype Event = Register(addr: string, at: int) | Check(at: int)

  function Apply(m: map<string, int>, e: Event): map<string, int> {
    match e
    case Register(addr, at) => if addr == "" then m else m[addr := at]
    case Check(at) => map a | a in m && at - m[a] <= EXPIRY :: m[a]
  }

  function Replay(h: seq<Event>): map<string, int> {
    if h == [] then map[] else Apply(Replay(h[..|h| - 1]), h[|h| - 1])
  }

  class AgentRegistry {
    var regAgentAddrs: map<string, int>
    ghost var history: seq<Event>

    ghost predicate Valid()
      reads this
    {
      regAgentAddrs == Replay(history)
    }

    constructor ()
      ensures Valid() && history == []
    {
      regAgentAddrs := map[];
      history := [];
    }

    method HandleAgentRegister(agentAddr: string, now: int)
      requires Valid()
      modifies this
      ensures Valid() && history == old(history) + [Register(agentAddr, now)]
    {
      if agentAddr != "" {
        regAgentAddrs := regAgentAddrs[agentAddr := now];
      }
      history := history + [Register(agentAddr, now)];
    }

    /** Deletes expired entries in place, in whatever order the map is iterated. */
    method CheckExpiredAgents(now: int)
      requires Valid()
      modifies this
      ensures Valid() && history == old(history) + [Check(now)]
    {
      ghost var before := regAgentAddrs;
      var todo := regAgentAddrs.Keys;
      while todo != {}
        invariant history == old(history)
        invariant todo <= before.Keys
        invariant regAgentAddrs == map a | a in before && (a in todo || now - before[a] <= EXPIRY) :: before[a]
        decreases |todo|
      {
        var addr :| addr in todo;
        if now - regAgentAddrs[addr] > EXPIRY {
          regAgentAddrs := regAgentAddrs - {addr};
        }
        todo := todo - {addr};
      }
      history := history + [Check(now)];
    }
  }

  // ----- the registry in terms of what happened -----

  ghost predicate Registers(h: seq<Event>, a: string, i: nat) {
    i < |h| && h[i].Register? && h[i].addr == a
  }

  ghost predicate Latest(h: seq<Event>, a: string, i: nat) {
    Registers(h, a, i) && forall j | i < j < |h| :: !Registers(h, a, j)
  }

  /** Registration i has outlived every check after it. */
  ghost predicate Unexpired(h: seq<Event>, i: nat)
    requires i < |h| && h[i].Register?
  {
    forall j | i < j < |h| && h[j].Check? :: h[j].at - h[i].at <= 15_000_000_000
  }

  /** An address is present, with the time of its latest registration, exactly when it has registered
      and no check since that registration ran more than 15 seconds after it. */
  lemma {:induction false} PresentIffUnexpired(h: seq<Event>, a: string)
    requires a != ""
    ensures a in Replay(h) <==> exists i: nat :: Latest(h, a, i) && Unexpired(h, i)
    ensures forall i: nat | Latest(h, a, i) && Unexpired(h, i) :: a in Replay(h) && Replay(h)[a] == h[i].at
  {
    if h != [] {
      var n := |h| - 1;
      PresentIffUnexpired(h[..n], a);
      if Registers(h, a, n) {
        assert Latest(h, a, n) && Unexpired(h, n);
        LatestUnique(h, a, n);
      } else {
        OneMoreEvent(h, a);
      }
    }
  }

  /** An event that is not a registration of `a` leaves its latest registration, and drops the address
      exactly when it is a check that finds it expired. */
  lemma OneMoreEvent(h: seq<Event>, a: string)
    requires a != "" && h != [] && !Registers(h, a, |h| - 1)
    requires var p := h[..|h| - 1];
             && (a in Replay(p) <==> exists i: nat :: Latest(p, a, i) && Unexpired(p, i))
             && (forall i: nat | Latest(p, a, i) && Unexpired(p, i) :: a in Replay(p) && Replay(p)[a] == p[i].at)
    ensures a in Replay(h) <==> exists i: nat :: Latest(h, a, i) && Unexpired(h, i)
    ensures forall i: nat | Latest(h, a, i) && Unexpired(h, i) :: a in Replay(h) && Replay(h)[a] == h[i].at
  {
    var n := |h| - 1;
    var p := h[..n];
    forall i: nat ensures Latest(h, a, i) <==> Latest(p, a, i) { SameLatest(h, a, i); }
    forall i: nat | Latest(h, a, i) && Unexpired(h, i) ensures a in Replay(h) && Replay(h)[a] == h[i].at {
      Survives(h, a, i);
    }
    if a in Replay(h) {
      assert a in Replay(p);
      var i: nat :| Latest(p, a, i) && Unexpired(p, i);
      Survives(h, a, i);
      assert Latest(h, a, i) && Unexpired(h, i);
    }
  }

  lemma SameLatest(h: seq<Event>, a: string, i: nat)
    requires h != [] && !Registers(h, a, |h| - 1)
    ensures Latest(h, a, i) <==> Latest(h[..|h| - 1], a, i)
  {
    var p := h[..|h| - 1];
    assert forall j: nat | j < |p| :: Registers(h, a, j) <==> Registers(p, a, j);
  }

  /** Registration i of a present address outlives the last event exactly if the address stays. */
  lemma Survives(h: seq<Event>, a: string, i: nat)
    requires h != [] && a != "" && !Registers(h, a, |h| - 1)
    requires var p := h[..|h| - 1];
             && Latest(p, a, i) && (Unexpired(p, i) ==> a in Replay(p) && Replay(p)[a] == p[i].at)
    ensures Unexpired(h, i) <==> Unexpired(h[..|h| - 1], i) && a in Replay(h)
    ensures Unexpired(h, i) ==> Replay(h)[a] == h[i].at
  {
    var n := |h| - 1;
    var p := h[..n];
    assert forall j | i < j < n :: p[j] == h[j];
    assert Unexpired(h, i) <==> Unexpired(p, i) && (h[n].Check? ==> h[n].at - h[i].at <= 15_000_000_000);
  }

  /** The empty address is never present. */
  lemma {:induction false} NoEmptyAddress(h: seq<Event>)
    ensures "" !in Replay(h)
  {
    if h != [] { NoEmptyAddress(h[..|h| - 1]); }
  }

  lemma LatestUnique(h: seq<Event>, a: string, i: nat)
    requires Latest(h, a, i)
    ensures forall j: nat | Latest(h, a, j) :: j == i
  {
  }

  ghost predicate Monotone(h: seq<Event>) {
    forall i, j | 0 <= i <= j < |h| :: h[i].at <= h[j].at
  }

  /** From registration `start` on, `a` registers again within 15 seconds each time, up to the end of
      the history. */
  ghost predicate Heartbeats(h: seq<Event>, a: string, start: nat) {
    && Registers(h, a, start)
    && forall i | start <= i < |h| && Registers(h, a, i) ::
         || (exists j | i < j < |h| :: Registers(h, a, j) && h[j].at - h[i].at <= 15_000_000_000)
         || h[|h| - 1].at - h[i].at <= 15_000_000_000
  }

  /** Under non-decreasing times, an agent that keeps up its heartbeat is never dropped. */
  lemma HeartbeatNeverDropped(h: seq<Event>, a: string, start: nat, k: nat)
    requires a != "" && Monotone(h) && Heartbeats(h, a, start) && start < k <= |h|
    ensures a in Replay(h[..k])
  {
    var i := LastRegistration(h, a, start, k);
    var p := h[..k];
    assert Latest(p, a, i) by {
      assert Registers(h, a, i);
      forall j | i < j < |p| ensures !Registers(p, a, j) { assert !Registers(h, a, j); }
    }
    if j :| i < j < |h| && Registers(h, a, j) && h[j].at - h[i].at <= EXPIRY {
      assert j >= k;
      assert forall c | i < c < k :: h[c].at <= h[j].at;
    } else {
      assert forall c | i < c < k :: h[c].at <= h[|h| - 1].at;
    }
    assert Unexpired(p, i);
    PresentIffUnexpired(p, a);
  }

  lemma {:induction false} LastRegistration(h: seq<Event>, a: string, start: nat, k: nat) returns (i: nat)
    requires start < k <= |h| && Registers(h, a, start)
    ensures start <= i < k && Registers(h, a, i)
    ensures forall j | i < j < k :: !Registers(h, a, j)
  {
    if Registers(h, a, k - 1) {
      i := k - 1;
    } else {
      i := LastRegistration(h, a, start, k - 1);
    }
  }
}
