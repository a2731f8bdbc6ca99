/** What the master collects from its agents, in terms of what really happened: the torn reads of
    Cluster sent through the merging of CounterMerge. */
module ClusterCounters {
  import opened Options
  import opened Sums
  import opened AgentProcess
  import opened CounterMerge
  import opened Cluster

  const HTTP_KEYS: seq<string> :=
    ["initiated", "completed", "error", "dial", "duration:<1000", "duration:<10000", "duration:>=10000"]

  function HttpKey(f: nat): string
    requires f < FIELDS
  {
    HTTP_KEYS[f]
  }

  /** The map HttpGetSession.Counters returns for the loaded values. */
  function HttpMap(v: seq<int>): Counters
    requires |v| == FIELDS
  {
    map["initiated" := v[0], "completed" := v[1], "error" := v[2], "dial" := v[3],
        "duration:<1000" := v[4], "duration:<10000" := v[5], "duration:>=10000" := v[6]]
  }

  lemma HttpMapAt(v: seq<int>, f: nat)
    requires |v| == FIELDS && f < FIELDS
    ensures HttpKey(f) in HttpMap(v) && At(HttpMap(v), HttpKey(f)) == v[f]
  {
  }

  lemma KeyNames()
    ensures HttpKey(INITIATED) == "initiated" && HttpKey(COMPLETED) == "completed" && HttpKey(ERROR) == "error"
    ensures HttpKey(LT1000) == "duration:<1000" && HttpKey(LT10000) == "duration:<10000"
    ensures HttpKey(GTE10000) == "duration:>=10000"
  {
  }

  /** Counters of other sessions and of the operating system use none of the http:get keys. */
  ghost predicate Foreign(m: Counters) {
    forall f | 0 <= f < FIELDS :: HttpKey(f) !in m
  }

  /** What the j-th listed session contributes to a reply of agent i. */
  ghost predicate SessionPart(tr: seq<State>, i: nat, from: nat, http: bool, m: Option<Counters>) {
    if http then exists at :: Reads(tr, i, from, at) && m == Some(HttpMap(HttpRead(tr, i, from, at)))
    else m.Some? ==> Foreign(m.value)
  }

  /** A reply of agent i to a ListCounters call made after moment `from`. */
  ghost predicate AgentReply(
    tr: seq<State>, i: nat, from: nat, sessions: seq<Option<Counters>>, system: Counters)
    requires from < |tr|
  {
    && |sessions| == |tr[from].cfg.http| && Foreign(system)
    && forall j | 0 <= j < |sessions| :: SessionPart(tr, i, from, tr[from].cfg.http[j], sessions[j])
  }

  lemma ReplyAt(sessions: seq<Option<Counters>>, system: Counters, f: nat)
    requires Foreign(system) && f < FIELDS
    ensures At(Reply(sessions, system), HttpKey(f)) == SumOf(sessions, Lookup(HttpKey(f)))
  {
  }

  // ----- every snapshot -----

  ghost predicate WithinBuckets(m: Option<Counters>) {
    Lookup("completed")(m) <=
    Lookup("duration:<1000")(m) + Lookup("duration:<10000")(m) + Lookup("duration:>=10000")(m)
  }

  lemma {:induction false} SumWithinBuckets(ms: seq<Option<Counters>>)
    requires forall i | 0 <= i < |ms| :: WithinBuckets(ms[i])
    ensures SumOf(ms, Lookup("completed")) <=
            SumOf(ms, Lookup("duration:<1000")) + SumOf(ms, Lookup("duration:<10000")) + SumOf(ms, Lookup("duration:>=10000"))
  {
    if ms != [] { SumWithinBuckets(ms[..|ms| - 1]); }
  }

  lemma SessionWithinBuckets(tr: seq<State>, i: nat, from: nat, http: bool, m: Option<Counters>)
    requires SetUp(tr, i, from) && SessionPart(tr, i, from, http, m)
    ensures WithinBuckets(m)
  {
    if http {
      var at :| Reads(tr, i, from, at) && m == Some(HttpMap(HttpRead(tr, i, from, at)));
      TornHttpSnapshot(tr, i, from, at);
      var v := HttpRead(tr, i, from, at);
      HttpMapAt(v, COMPLETED);
      HttpMapAt(v, LT1000);
      HttpMapAt(v, LT10000);
      HttpMapAt(v, GTE10000);
    }
    KeyNames();
  }

  lemma ReplyWithinBuckets(
    tr: seq<State>, i: nat, from: nat, sessions: seq<Option<Counters>>, system: Counters)
    requires SetUp(tr, i, from) && AgentReply(tr, i, from, sessions, system)
    ensures WithinBuckets(Some(Reply(sessions, system)))
  {
    forall j | 0 <= j < |sessions| ensures WithinBuckets(sessions[j]) {
      SessionWithinBuckets(tr, i, from, tr[from].cfg.http[j], sessions[j]);
    }
    SumWithinBuckets(sessions);
    ReplyAt(sessions, system, COMPLETED);
    ReplyAt(sessions, system, LT1000);
    ReplyAt(sessions, system, LT10000);
    ReplyAt(sessions, system, GTE10000);
    KeyNames();
  }

  ghost predicate Replied(tr: seq<State>, i: nat, from: nat, m: Counters)
    requires from < |tr|
  {
    exists sessions, system :: AgentReply(tr, i, from, sessions, system) && m == Reply(sessions, system)
  }

  /** The replies of one collection round; None where the call failed. */
  ghost predicate Round(tr: seq<State>, from: nat, replies: seq<Option<Counters>>)
    requires from < |tr|
  {
    && |replies| == |tr[from].agents|
    && forall i | 0 <= i < |replies| && replies[i].Some? :: Replied(tr, i, from, replies[i].value)
  }

  /** Every snapshot the master collects once the counter watch runs has completed <= sum of the
      duration buckets, whatever fields were read when, whichever calls failed, and however often
      http:get is listed, if the job found no leftovers that could still complete a request. */
  lemma CollectedWithinBuckets(tr: seq<State>, from: nat, replies: seq<Option<Counters>>)
    requires Job(tr) && from < |tr| && Listed(tr[from].cfg)
    requires tr[from].pc.Awaiting? || tr[from].pc.Collecting?
    requires forall i | 0 <= i < |tr[0].agents| :: Settled(tr[0].agents[i])
    requires Round(tr, from, replies)
    ensures WithinBuckets(Some(Merged(replies)))
  {
    SameJob(tr, from);
    forall i | 0 <= i < |replies| ensures WithinBuckets(replies[i]) {
      if replies[i].Some? {
        assert Replied(tr, i, from, replies[i].value);
        var sessions, system :|
          AgentReply(tr, i, from, sessions, system) && replies[i].value == Reply(sessions, system);
        WatchAfterSetup(tr, from, i);
        ReplyWithinBuckets(tr, i, from, sessions, system);
      }
    }
    SumWithinBuckets(replies);
    MergedLookup(replies, "completed");
    MergedLookup(replies, "duration:<1000");
    MergedLookup(replies, "duration:<10000");
    MergedLookup(replies, "duration:>=10000");
  }

  // ----- the final snapshot -----

  function One(b: bool): int { if b then 1 else 0 }

  function FieldOf(f: nat): Agent -> int { (a: Agent) => if f < |a.c| then a.c[f] else 0 }

  function StartedOn(a: Agent): int { SumOf(a.execs, HttpStarted) }

  /** Executions on an agent, counted by f. */
  function OnAgent(f: Exec -> int): Agent -> int { (a: Agent) => SumOf(a.execs, f) }

  function RequestFailed(e: Exec): int { if e.out.Errored? then 1 else 0 }

  /** No Run call failed, and the final collection begins. */
  ghost predicate CleanDrain(tr: seq<State>, from: nat) {
    && Job(tr) && from < |tr| && Listed(tr[from].cfg) && tr[from].pc.Collecting?
    && forall i | 0 <= i < |tr[from].calls| :: tr[from].calls[i] == RunDone(true)
  }

  lemma FinalReply(
    tr: seq<State>, i: nat, from: nat, sessions: seq<Option<Counters>>, system: Counters, f: nat)
    requires CleanDrain(tr, from) && i < |tr[from].calls| && i < |tr[from].agents| && f < FIELDS && f != DIAL
    requires AgentReply(tr, i, from, sessions, system) && Silent(tr[from].agents[i])
    ensures At(Reply(sessions, system), HttpKey(f)) == SumOf(tr[from].cfg.http, One) * FieldOf(f)(tr[from].agents[i])
  {
    var http := tr[from].cfg.http;
    var c := FieldOf(f)(tr[from].agents[i]);
    forall j | 0 <= j < |sessions| ensures c * One(http[j]) == Lookup(HttpKey(f))(sessions[j]) {
      assert SessionPart(tr, i, from, http[j], sessions[j]);
      if http[j] {
        var at :| Reads(tr, i, from, at) && sessions[j] == Some(HttpMap(HttpRead(tr, i, from, at)));
        DrainedAgent(tr, i, from, at, f);
        HttpMapAt(HttpRead(tr, i, from, at), f);
      }
    }
    SumScaledEqual(http, One, c, sessions, Lookup(HttpKey(f)));
    ReplyAt(sessions, system, f);
  }

  lemma FinalField(tr: seq<State>, from: nat, replies: seq<Option<Counters>>, f: nat)
    requires CleanDrain(tr, from) && f < FIELDS && f != DIAL && |tr[from].calls| == |tr[from].agents|
    requires forall i | 0 <= i < |tr[from].agents| :: Silent(tr[from].agents[i])
    requires Round(tr, from, replies) && forall i | 0 <= i < |replies| :: replies[i].Some?
    ensures At(Merged(replies), HttpKey(f)) ==
            SumOf(tr[from].cfg.http, One) * SumOf(tr[from].agents, FieldOf(f))
  {
    var m := SumOf(tr[from].cfg.http, One);
    forall i | 0 <= i < |replies|
      ensures m * FieldOf(f)(tr[from].agents[i]) == Lookup(HttpKey(f))(replies[i])
    {
      assert Replied(tr, i, from, replies[i].value);
      var sessions, system :|
        AgentReply(tr, i, from, sessions, system) && replies[i].value == Reply(sessions, system);
      FinalReply(tr, i, from, sessions, system, f);
    }
    SumScaledEqual(tr[from].agents, FieldOf(f), m, replies, Lookup(HttpKey(f)));
    MergedLookup(replies, HttpKey(f));
  }

  ghost predicate BooksBalance(a: Agent) {
    && FieldOf(INITIATED)(a) == 0
    && FieldOf(COMPLETED)(a) == FieldOf(LT1000)(a) + FieldOf(LT10000)(a) + FieldOf(GTE10000)(a)
    && FieldOf(COMPLETED)(a) + FieldOf(ERROR)(a) == StartedOn(a)
    && FieldOf(ERROR)(a) == OnAgent(RequestFailed)(a)
    && FieldOf(LT1000)(a) == OnAgent(Under1s)(a)
    && FieldOf(LT10000)(a) == OnAgent(Under10s)(a)
    && FieldOf(GTE10000)(a) == OnAgent(Over10s)(a)
  }

  lemma QuietBooks(cfg: Config, idx: nat, a: Agent)
    requires AgentInv(cfg, idx, a) && Listed(cfg) && a.pc.Returned? && Undrifted(a, ALL_FIELDS)
    ensures BooksBalance(a)
  {
    QuietCounters(cfg, idx, a);
    BucketsByDuration(cfg, idx, a);
    SumEqual(a.execs, Contribution(ERROR), a.execs, RequestFailed);
  }

  lemma {:induction false} BalancedBooks(agents: seq<Agent>)
    requires forall i | 0 <= i < |agents| :: BooksBalance(agents[i])
    ensures SumOf(agents, FieldOf(INITIATED)) == 0
    ensures SumOf(agents, FieldOf(COMPLETED)) ==
            SumOf(agents, FieldOf(LT1000)) + SumOf(agents, FieldOf(LT10000)) + SumOf(agents, FieldOf(GTE10000))
    ensures SumOf(agents, FieldOf(COMPLETED)) + SumOf(agents, FieldOf(ERROR)) == SumOf(agents, StartedOn)
  {
    if agents != [] { BalancedBooks(agents[..|agents| - 1]); }
  }

  lemma CountedBooks(agents: seq<Agent>)
    requires forall i | 0 <= i < |agents| :: BooksBalance(agents[i])
    ensures SumOf(agents, FieldOf(ERROR)) == SumOf(agents, OnAgent(RequestFailed))
    ensures SumOf(agents, FieldOf(LT1000)) == SumOf(agents, OnAgent(Under1s))
    ensures SumOf(agents, FieldOf(LT10000)) == SumOf(agents, OnAgent(Under10s))
    ensures SumOf(agents, FieldOf(GTE10000)) == SumOf(agents, OnAgent(Over10s))
  {
    SumEqual(agents, FieldOf(ERROR), agents, OnAgent(RequestFailed));
    SumEqual(agents, FieldOf(LT1000), agents, OnAgent(Under1s));
    SumEqual(agents, FieldOf(LT10000), agents, OnAgent(Under10s));
    SumEqual(agents, FieldOf(GTE10000), agents, OnAgent(Over10s));
  }

  lemma AllReturned(tr: seq<State>, from: nat)
    requires CleanDrain(tr, from) && forall i | 0 <= i < |tr[0].agents| :: Silent(tr[0].agents[i])
    ensures var st := tr[from];
            && |st.calls| == |st.agents|
            && forall i | 0 <= i < |st.agents| :: Silent(st.agents[i]) && BooksBalance(st.agents[i])
  {
    SameJob(tr, from);
    AlwaysInv(tr, from);
    var st := tr[from];
    forall i | 0 <= i < |st.agents| ensures Silent(st.agents[i]) && BooksBalance(st.agents[i]) {
      assert CallOk(st, i);
      SettledAlong(tr, i, from);
      QuietBooks(st.cfg, i, st.agents[i]);
    }
  }

  /** Nothing in flight; completed + error equal to the http:get executions started; every bucket equal to
      the executions that took that long, and these together to the completed ones; error equal to the
      executions whose request failed (all once per listing of http:get). */
  ghost predicate Exact(total: Counters, listings: int, agents: seq<Agent>) {
    && At(total, "initiated") == 0
    && At(total, "completed") == At(total, "duration:<1000") + At(total, "duration:<10000") + At(total, "duration:>=10000")
    && At(total, "completed") + At(total, "error") == listings * SumOf(agents, StartedOn)
    && At(total, "error") == listings * SumOf(agents, OnAgent(RequestFailed))
    && At(total, "duration:<1000") == listings * SumOf(agents, OnAgent(Under1s))
    && At(total, "duration:<10000") == listings * SumOf(agents, OnAgent(Under10s))
    && At(total, "duration:>=10000") == listings * SumOf(agents, OnAgent(Over10s))
  }

  /** If no call failed and the job found no leftovers that could still count, the final snapshot is
      exact about the http:get executions since the setup barrier. */
  lemma FinalCounters(tr: seq<State>, from: nat, replies: seq<Option<Counters>>)
    requires CleanDrain(tr, from) && forall i | 0 <= i < |tr[0].agents| :: Silent(tr[0].agents[i])
    requires Round(tr, from, replies) && forall i | 0 <= i < |replies| :: replies[i].Some?
    ensures Exact(Merged(replies), SumOf(tr[from].cfg.http, One), tr[from].agents)
  {
    var agents := tr[from].agents;
    AllReturned(tr, from);
    BalancedBooks(agents);
    CountedBooks(agents);
    FinalFields(tr, from, replies);
    KeyNames();
    Scaled(SumOf(tr[from].cfg.http, One),
           SumOf(agents, FieldOf(INITIATED)), SumOf(agents, FieldOf(COMPLETED)), SumOf(agents, FieldOf(ERROR)),
           SumOf(agents, FieldOf(LT1000)), SumOf(agents, FieldOf(LT10000)), SumOf(agents, FieldOf(GTE10000)),
           SumOf(agents, StartedOn));
  }

  lemma FinalFields(tr: seq<State>, from: nat, replies: seq<Option<Counters>>)
    requires CleanDrain(tr, from) && |tr[from].calls| == |tr[from].agents|
    requires forall i | 0 <= i < |tr[from].agents| :: Silent(tr[from].agents[i])
    requires Round(tr, from, replies) && forall i | 0 <= i < |replies| :: replies[i].Some?
    ensures forall f | 0 <= f < FIELDS && f != DIAL ::
              At(Merged(replies), HttpKey(f)) == SumOf(tr[from].cfg.http, One) * SumOf(tr[from].agents, FieldOf(f))
  {
    forall f | 0 <= f < FIELDS && f != DIAL
      ensures At(Merged(replies), HttpKey(f)) == SumOf(tr[from].cfg.http, One) * SumOf(tr[from].agents, FieldOf(f))
    {
      FinalField(tr, from, replies, f);
    }
  }

  lemma Scaled(m: int, initiated: int, completed: int, error: int, b1: int, b2: int, b3: int, started: int)
    requires initiated == 0 && completed == b1 + b2 + b3 && completed + error == started
    ensures m * initiated == 0
    ensures m * completed == m * b1 + m * b2 + m * b3
    ensures m * completed + m * error == m * started
  {
  }
}
