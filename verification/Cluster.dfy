/** The master (master/master_controller.go) driving its agents through one job: a setup barrier,
    one Run call per agent, a drain, and the collection of counters. The agents are the step
    systems of AgentProcess; everything interleaves freely. */
module Cluster {
  import opened Sums
  import opened Runs
  import opened Splitter
  import opened AgentProcess

  datatype Call = NotCalled | SetupSent | SetupDone | RunSent | RunDone(ok: bool)

  datatype MasterPc =
    | SettingUp(k: nat)      // in setupAllAgents: k goroutines started, then waiting for all
    | Dispatching(k: nat)    // k Run goroutines started
    | Awaiting               // the counter watch is running, wg.Wait
    | Collecting             // the watch is told to stop, the final collection begins

  datatype State = State(
    cfg: Config, pc: MasterPc, setupWg: int, runWg: int, calls: seq<Call>, agents: seq<Agent>)

  datatype Move =
    | SpawnSetup | SetupReturn(i: nat) | Barrier | SpawnRun | StartWatch
    | RunReturn(i: nat) | RunFail(i: nat) | Drain
    | AgentMoves(i: nat, act: Action, b: Agent)

  /** An agent enters Setup and Run only when called; a Run call that failed on the master's side
      may still be executed by the agent. */
  ghost predicate Permitted(call: Call, act: Action) {
    && (act.Reset? ==> call.SetupSent?)
    && (act.Begin? ==> call.RunSent? || call == RunDone(false))
  }

  ghost predicate Step(s: State, m: Move, t: State) {
    && ValidConfig(s.cfg) && |s.calls| == |s.agents| == s.cfg.agents
    && match m
       case SpawnSetup =>
         && s.pc.SettingUp? && s.pc.k < s.cfg.agents
         && t == s.(pc := SettingUp(s.pc.k + 1), setupWg := s.setupWg + 1, calls := s.calls[s.pc.k := SetupSent])
       case SetupReturn(i) =>
         && i < s.cfg.agents && s.calls[i].SetupSent? && s.agents[i].pc.Ready?
         && t == s.(setupWg := s.setupWg - 1, calls := s.calls[i := SetupDone])
       case Barrier =>
         s.pc == SettingUp(s.cfg.agents) && s.setupWg == 0 && t == s.(pc := Dispatching(0))
       case SpawnRun =>
         && s.pc.Dispatching? && s.pc.k < s.cfg.agents
         && t == s.(pc := Dispatching(s.pc.k + 1), runWg := s.runWg + 1, calls := s.calls[s.pc.k := RunSent])
       case StartWatch => s.pc == Dispatching(s.cfg.agents) && t == s.(pc := Awaiting)
       case RunReturn(i) =>
         && i < s.cfg.agents && s.calls[i].RunSent? && s.agents[i].pc.Returned?
         && t == s.(runWg := s.runWg - 1, calls := s.calls[i := RunDone(true)])
       case RunFail(i) =>
         && i < s.cfg.agents && s.calls[i].RunSent?
         && t == s.(runWg := s.runWg - 1, calls := s.calls[i := RunDone(false)])
       case Drain => s.pc.Awaiting? && s.runWg == 0 && t == s.(pc := Collecting)
       case AgentMoves(i, act, b) =>
         && i < s.cfg.agents && Permitted(s.calls[i], act)
         && AgentStep(s.cfg, i, s.agents[i], act, b) && t == s.(agents := s.agents[i := b])
  }

  ghost predicate Next(s: State, t: State) { exists m :: Step(s, m, t) }

  ghost predicate Init(s: State) {
    && ValidConfig(s.cfg) && s.pc == SettingUp(0) && s.setupWg == 0 && s.runWg == 0
    && |s.calls| == |s.agents| == s.cfg.agents
    && (forall i | 0 <= i < s.cfg.agents :: s.calls[i].NotCalled? && AgentInit(s.agents[i]))
  }

  ghost predicate Job(tr: seq<State>) { Run(Init, Next, tr) }

  // ----- invariant -----

  function AwaitsSetup(c: Call): int { if c.SetupSent? then 1 else 0 }
  function AwaitsRun(c: Call): int { if c.RunSent? then 1 else 0 }

  ghost predicate CallOk(s: State, i: nat)
    requires i < |s.calls| && i < |s.agents|
  {
    var call := s.calls[i];
    && (s.agents[i].pc.Resetting? ==> call.NotCalled? || call.SetupSent?)
    && (!call.RunSent? && !call.RunDone? ==> s.agents[i].pc.Resetting? || s.agents[i].pc.Ready?)
    && (call == RunDone(true) ==> s.agents[i].pc.Returned?)
    && match s.pc
       case SettingUp(k) => (if i < k then call.SetupSent? || call.SetupDone? else call.NotCalled?)
       case Dispatching(k) => (if i < k then call.RunSent? || call.RunDone? else call.SetupDone?)
       case Awaiting => call.RunSent? || call.RunDone?
       case Collecting => call.RunDone?
  }

  ghost predicate Inv(s: State) {
    && ValidConfig(s.cfg) && |s.calls| == |s.agents| == s.cfg.agents
    && (s.pc.SettingUp? || s.pc.Dispatching? ==> s.pc.k <= s.cfg.agents)
    && s.setupWg == SumOf(s.calls, AwaitsSetup)
    && s.runWg == SumOf(s.calls, AwaitsRun)
    && (forall i | 0 <= i < |s.calls| :: CallOk(s, i))
    && (forall i | 0 <= i < |s.agents| :: AgentInv(s.cfg, i, s.agents[i]))
  }

  lemma InitOk(s: State)
    requires Init(s)
    ensures Inv(s)
  {
    SumZero(s.calls, AwaitsSetup);
    SumZero(s.calls, AwaitsRun);
    forall i | 0 <= i < |s.agents| ensures AgentInv(s.cfg, i, s.agents[i]) {
      assert AgentInit(s.agents[i]);
    }
  }

  lemma NoneAwaits(calls: seq<Call>, f: Call -> int, i: nat)
    requires f == AwaitsSetup || f == AwaitsRun
    requires SumOf(calls, f) == 0 && i < |calls|
    ensures f(calls[i]) <= 0
  {
    SumAtLeast(calls, f, i);
  }

  lemma CallMovesKeepSums(s: State, m: Move, t: State)
    requires Inv(s) && Step(s, m, t) && !m.AgentMoves?
    ensures t.setupWg == SumOf(t.calls, AwaitsSetup) && t.runWg == SumOf(t.calls, AwaitsRun)
  {
    match m
    case SpawnSetup => assert CallOk(s, s.pc.k); SumUpdate(s.calls, s.pc.k, SetupSent);
    case SetupReturn(i) => SumUpdate(s.calls, i, SetupDone);
    case SpawnRun => assert CallOk(s, s.pc.k); SumUpdate(s.calls, s.pc.k, RunSent);
    case RunReturn(i) => SumUpdate(s.calls, i, RunDone(true));
    case RunFail(i) => SumUpdate(s.calls, i, RunDone(false));
    case _ =>
  }

  lemma CallMovesKeepCall(s: State, m: Move, t: State, i: nat)
    requires Inv(s) && Step(s, m, t) && !m.AgentMoves? && i < |t.calls|
    ensures CallOk(t, i)
  {
    assert CallOk(s, i);
    if m.Barrier? { NoneAwaits(s.calls, AwaitsSetup, i); }
    if m.Drain? { NoneAwaits(s.calls, AwaitsRun, i); }
  }

  lemma CallMovesKeep(s: State, m: Move, t: State)
    requires Inv(s) && Step(s, m, t) && !m.AgentMoves?
    ensures Inv(t)
  {
    CallMovesKeepSums(s, m, t);
    forall i | 0 <= i < |t.calls| ensures CallOk(t, i) { CallMovesKeepCall(s, m, t, i); }
    assert t.agents == s.agents && t.cfg == s.cfg;
  }

  lemma AgentMoveKeepsCall(s: State, i: nat, act: Action, b: Agent, t: State, j: nat)
    requires Step(s, AgentMoves(i, act, b), t) && j < |s.calls| && CallOk(s, j)
    ensures CallOk(t, j)
  {
    PcOrder(s.cfg, i, s.agents[i], act, b);
  }

  lemma AgentMoveKeeps(s: State, i: nat, act: Action, b: Agent, t: State)
    requires Inv(s) && Step(s, AgentMoves(i, act, b), t)
    ensures Inv(t)
  {
    AgentKeeps(s.cfg, i, s.agents[i], act, b);
    forall j | 0 <= j < |t.calls| ensures CallOk(t, j) {
      AgentMoveKeepsCall(s, i, act, b, t, j);
    }
  }

  lemma NextKeeps(s: State, t: State)
    requires Inv(s) && Next(s, t)
    ensures Inv(t)
  {
    var m :| Step(s, m, t);
    match m
    case AgentMoves(i, act, b) => AgentMoveKeeps(s, i, act, b, t);
    case _ => CallMovesKeep(s, m, t);
  }

  lemma AlwaysInv(tr: seq<State>, k: nat)
    requires Job(tr) && k < |tr|
    ensures Inv(tr[k])
  {
    forall s | Init(s) ensures Inv(s) { InitOk(s); }
    forall s, t | Inv(s) && Next(s, t) ensures Inv(t) { NextKeeps(s, t); }
    Always(Init, Next, Inv, tr, k);
  }

  lemma SameJob(tr: seq<State>, k: nat)
    requires Job(tr) && k < |tr|
    ensures tr[k].cfg == tr[0].cfg && |tr[k].agents| == |tr[0].agents|
  {
    if k > 0 {
      SameJob(tr, k - 1);
      assert Next(tr[k - 1], tr[k]);
      AlwaysInv(tr, k - 1);
      AlwaysInv(tr, k);
    }
  }

  /** In every reachable state of every agent: channels and WaitGroups are what LaneOk says, `<-done`
      never blocks, and whatever is unfinished belongs to the one phase the agent is in. */
  lemma AgentsAlwaysOrderly(tr: seq<State>, k: nat, i: nat)
    requires Job(tr) && k < |tr| && i < |tr[k].agents|
    ensures AgentInv(tr[k].cfg, i, tr[k].agents[i])
    ensures var a := tr[k].agents[i];
            forall j | 0 <= j < |a.execs| ::
              && (a.execs[j].pc.Back? ==> exists b :: FreeStep(a, j, b))
              && (!a.execs[j].pc.Finished? ==> a.pc == Launching(a.execs[j].p))
  {
    AlwaysInv(tr, k);
    var a := tr[k].agents[i];
    ReleaseNeverBlocks(tr[k].cfg, i, a);
    forall j | 0 <= j < |a.execs| && !a.execs[j].pc.Finished? ensures a.pc == Launching(a.execs[j].p) {
      OnePhaseAtATime(tr[k].cfg, i, a, j);
    }
  }

  // ----- sessions in flight -----

  function LiveOf(p: nat, s: nat): Agent -> int { (a: Agent) => SumOf(a.execs, Live(p, s)) }

  /** In every interleaving of master and agents, the sessions in flight over all agents never
      exceed the users configured for that session and phase. */
  lemma InFlightWithinTotal(tr: seq<State>, k: nat, p: nat, s: nat)
    requires Job(tr) && k < |tr| && p < |tr[k].cfg.totals| && s < |tr[k].cfg.http|
    ensures |tr[k].cfg.totals[p]| == |tr[k].cfg.http|
    ensures SumOf(tr[k].agents, LiveOf(p, s)) <= tr[k].cfg.totals[p][s]
  {
    AlwaysInv(tr, k);
    var st := tr[k];
    var total := st.cfg.totals[p][s];
    var shares := Shares(total, st.cfg.agents);
    forall i | 0 <= i < |st.agents| ensures 1 * LiveOf(p, s)(st.agents[i]) <= Id()(shares[i]) {
      LiveWithinShare(st.cfg, i, st.agents[i], p, s);
      CodeMeetsReference(total, st.cfg.agents, i);
      SumNonNegative(st.agents[i].execs, LeakedAt(p, s));
    }
    SumScaledBound(st.agents, LiveOf(p, s), 1, shares, Id());
    SharesExact(total, st.cfg.agents);
  }

  // ----- order along a run -----

  /** What later states of agent i owe to earlier ones. */
  ghost predicate Later(i: nat, s: State, t: State) {
    && t.cfg == s.cfg && i < |s.agents| == |t.agents|
    && var a := s.agents[i];
    var b := t.agents[i];
    && |a.c| == |b.c| == FIELDS
    && (!a.pc.Resetting? ==> !b.pc.Resetting? && forall f | LT1000 <= f <= GTE10000 :: a.c[f] <= b.c[f])
    && (a.pc.Returned? ==> b.pc.Returned? && b.execs == a.execs)
    && (a.pc.Returned? && Silent(a) ==> Silent(b) && forall f | 0 <= f < FIELDS && f != DIAL :: b.c[f] == a.c[f])
  }

  lemma LaterStep(i: nat, r: State, s: State, t: State)
    requires Inv(s) && Later(i, r, s) && Next(s, t)
    ensures Later(i, r, t)
  {
    var m :| Step(s, m, t);
    if m.AgentMoves? && m.i == i {
      if !s.agents[i].pc.Resetting? { BucketsOnlyGrow(s.cfg, i, s.agents[i], m.act, m.b); }
      if s.agents[i].pc.Returned? { ReturnedIsFinal(s.cfg, i, s.agents[i], m.act, m.b); }
    } else {
      assert t.agents[i] == s.agents[i];
    }
  }

  lemma LaterAlong(tr: seq<State>, i: nat, t: nat, u: nat)
    requires Job(tr) && t <= u < |tr| && i < |tr[0].agents|
    ensures Later(i, tr[t], tr[u])
  {
    AlwaysInv(tr, 0);
    var inv := (s: State) => Inv(s) && i < |s.agents|;
    var le := (s, s') => Later(i, s, s');
    forall s, s' | inv(s) && Next(s, s') ensures inv(s') {
      NextKeeps(s, s');
      LaterStep(i, s, s, s');
    }
    var start := (s: State) => s == tr[0];
    forall k | 0 <= k < |tr| ensures inv(tr[k]) { Always(start, Next, inv, tr, k); }
    forall r, s, s' | inv(s) && le(r, s) && Next(s, s') ensures le(r, s') { LaterStep(i, r, s, s'); }
    Ordered(Next, inv, le, tr, t, u);
  }

  // ----- leftovers of earlier jobs -----

  lemma SettledStep(s: State, t: State, i: nat)
    requires Inv(s) && Next(s, t) && Listed(s.cfg) && i < |s.agents|
    ensures i < |t.agents| && t.cfg == s.cfg
    ensures BucketsSettled(s.agents[i]) ==> BucketsSettled(t.agents[i])
    ensures AllSilent(s.agents[i]) ==> AllSilent(t.agents[i])
  {
    var m :| Step(s, m, t);
    if m.AgentMoves? && m.i == i {
      SettledStays(s.cfg, i, s.agents[i], m.act, m.b);
    } else {
      assert t.agents[i] == s.agents[i];
    }
  }

  lemma SettledAtFirst(s: State, i: nat)
    requires Init(s) && i < |s.agents|
    ensures Settled(s.agents[i]) ==> BucketsSettled(s.agents[i])
    ensures Silent(s.agents[i]) ==> AllSilent(s.agents[i])
  {
    assert AgentInit(s.agents[i]);
  }

  ghost predicate SettledSince(s0: State, i: nat, s: State) {
    && Inv(s) && s.cfg == s0.cfg && i < |s0.agents| == |s.agents|
    && (Settled(s0.agents[i]) ==> BucketsSettled(s.agents[i]))
    && (Silent(s0.agents[i]) ==> AllSilent(s.agents[i]))
  }

  lemma SettledSinceStep(s0: State, i: nat, s: State, t: State)
    requires SettledSince(s0, i, s) && Next(s, t) && Listed(s0.cfg)
    ensures SettledSince(s0, i, t)
  {
    NextKeeps(s, t);
    SettledStep(s, t, i);
  }

  /** A job that finds its agent without leftovers that count has a clean ledger throughout. */
  lemma SettledAlong(tr: seq<State>, i: nat, k: nat)
    requires Job(tr) && k < |tr| && Listed(tr[0].cfg) && i < |tr[0].agents|
    ensures SettledSince(tr[0], i, tr[k])
  {
    var start := (s: State) => s == tr[0];
    var inv := (s: State) => SettledSince(tr[0], i, s);
    AlwaysInv(tr, 0);
    SettledAtFirst(tr[0], i);
    forall s, t | inv(s) && Next(s, t) ensures inv(t) { SettledSinceStep(tr[0], i, s, t); }
    Always(start, Next, inv, tr, k);
  }

  ghost predicate DialsSince(i: nat, s: State) { Inv(s) && (i < |s.agents| ==> DialsOk(s.cfg, s.agents[i])) }

  lemma DialsStep(i: nat, s: State, t: State)
    requires DialsSince(i, s) && Next(s, t)
    ensures DialsSince(i, t)
  {
    NextKeeps(s, t);
    var m :| Step(s, m, t);
    if m.AgentMoves? && m.i == i {
      DialsKept(s.cfg, i, s.agents[i], m.act, m.b);
    } else if i < |t.agents| {
      assert t.agents[i] == s.agents[i];
    }
  }

  /** In every job, once an agent is set up, its `dial` counter is the number of connections dialled since
      Setup cleared it. */
  lemma DialsCounted(tr: seq<State>, k: nat, i: nat)
    requires Job(tr) && k < |tr| && i < |tr[k].agents| && Listed(tr[k].cfg) && !tr[k].agents[i].pc.Resetting?
    ensures var a := tr[k].agents[i];
            |a.c| == |a.base| == FIELDS && a.c[DIAL] == a.dials - a.base[DIAL]
  {
    var inv := (s: State) => DialsSince(i, s);
    forall s | Init(s) ensures inv(s) { InitOk(s); }
    forall s, t | inv(s) && Next(s, t) ensures inv(t) { DialsStep(i, s, t); }
    Always(Init, Next, inv, tr, k);
  }

  // ----- what a reader of the counters sees -----

  function HttpCounters(i: nat): State -> seq<int> {
    (s: State) => if i < |s.agents| then s.agents[i].c else []
  }

  /** A ListCounters call on agent i, not started before moment `from`: it loads the http:get fields
      one after the other at moments of its own. */
  ghost predicate Reads(tr: seq<State>, i: nat, from: nat, at: seq<nat>) {
    && |at| == FIELDS && ReadTimes(at, |tr|) && from <= at[0]
    && (forall t | 0 <= t < |tr| :: i < |tr[t].agents| && |tr[t].agents[i].c| == FIELDS)
  }

  ghost function HttpRead(tr: seq<State>, i: nat, from: nat, at: seq<nat>): (v: seq<int>)
    requires Reads(tr, i, from, at)
    ensures |v| == FIELDS
    ensures forall f | 0 <= f < FIELDS :: v[f] == tr[at[f]].agents[i].c[f]
  {
    Torn(History(tr, HttpCounters(i)), at)
  }

  /** Once the agent is set up, every such snapshot has completed <= sum of the duration buckets,
      however the reads interleave with running sessions, unless an earlier job left something
      behind that still completes requests. */
  lemma TornHttpSnapshot(tr: seq<State>, i: nat, from: nat, at: seq<nat>)
    requires Job(tr) && Reads(tr, i, from, at)
    requires Listed(tr[from].cfg) && !tr[from].agents[i].pc.Resetting? && Settled(tr[0].agents[i])
    ensures var v := HttpRead(tr, i, from, at);
            v[COMPLETED] <= v[LT1000] + v[LT10000] + v[GTE10000]
  {
    var cs := History(tr, HttpCounters(i));
    BucketsDominate(tr, i, from);
    forall j | j in BUCKETS ensures NeverDecreases(cs, from, j) { BucketNeverDecreases(tr, i, from, j); }
    TornBound(cs, from, at, 1, COMPLETED, BUCKETS);
    BucketColumns(Torn(cs, at));
  }

  /** At every moment after Setup each bucket counts the executions of this job whose request took that
      long, unless an earlier job left something behind that still completes requests. */
  lemma BucketsCountDurations(tr: seq<State>, k: nat, i: nat)
    requires Job(tr) && k < |tr| && i < |tr[k].agents| && i < |tr[0].agents| && Listed(tr[0].cfg)
    requires !tr[k].agents[i].pc.Resetting? && Settled(tr[0].agents[i])
    ensures var a := tr[k].agents[i];
            && |a.c| == FIELDS && a.c[LT1000] == SumOf(a.execs, Under1s)
            && a.c[LT10000] == SumOf(a.execs, Under10s) && a.c[GTE10000] == SumOf(a.execs, Over10s)
  {
    SettledAlong(tr, i, k);
    assert AgentInv(tr[k].cfg, i, tr[k].agents[i]);
    BucketsByDuration(tr[k].cfg, i, tr[k].agents[i]);
  }

  const BUCKETS: seq<nat> := [LT1000, LT10000, GTE10000]

  ghost predicate SetUp(tr: seq<State>, i: nat, from: nat) {
    && Job(tr) && from < |tr| && Listed(tr[from].cfg)
    && i < |tr[0].agents| && i < |tr[from].agents| && !tr[from].agents[i].pc.Resetting?
    && Settled(tr[0].agents[i])
  }

  lemma BucketsDominate(tr: seq<State>, i: nat, from: nat)
    requires SetUp(tr, i, from)
    ensures Dominated(History(tr, HttpCounters(i)), from, 1, COMPLETED, BUCKETS)
  {
    var cs := History(tr, HttpCounters(i));
    forall t | from <= t < |cs|
      ensures COMPLETED < |cs[t]| && 1 * cs[t][COMPLETED] <= SumOf(BUCKETS, Column(cs[t]))
    {
      LaterAlong(tr, i, from, t);
      AlwaysInv(tr, t);
      SameJob(tr, from);
      SettledAlong(tr, i, t);
      CompletedWithinBuckets(tr[t].cfg, i, tr[t].agents[i]);
      BucketColumns(cs[t]);
    }
  }

  lemma BucketNeverDecreases(tr: seq<State>, i: nat, from: nat, j: nat)
    requires SetUp(tr, i, from) && j in BUCKETS
    ensures NeverDecreases(History(tr, HttpCounters(i)), from, j)
  {
    var cs := History(tr, HttpCounters(i));
    forall t, u | from <= t <= u < |cs| ensures j < |cs[t]| && j < |cs[u]| && cs[t][j] <= cs[u][j] {
      LaterAlong(tr, i, from, t);
      LaterAlong(tr, i, t, u);
    }
  }

  lemma BucketColumns(v: seq<int>)
    requires |v| == FIELDS
    ensures SumOf(BUCKETS, Column(v)) == v[LT1000] + v[LT10000] + v[GTE10000]
  {
    SumOfThree(LT1000, LT10000, GTE10000, Column(v));
  }

  /** From the moment the counter watch starts, every agent has been set up. */
  lemma WatchAfterSetup(tr: seq<State>, k: nat, i: nat)
    requires Job(tr) && k < |tr| && i < |tr[k].agents|
    requires tr[k].pc.Awaiting? || tr[k].pc.Collecting?
    ensures !tr[k].agents[i].pc.Resetting?
  {
    AlwaysInv(tr, k);
    assert CallOk(tr[k], i);
  }

  /** When the final collection begins, an agent whose Run call succeeded has nothing in flight, and
      from then on, unless an earlier job's leftovers still count, its http:get counters (all but
      `dial`) are what a reader gets. */
  lemma DrainedAgent(tr: seq<State>, i: nat, from: nat, at: seq<nat>, f: nat)
    requires Job(tr) && Reads(tr, i, from, at) && from < |tr| && f < FIELDS && f != DIAL
    requires tr[from].pc.Collecting? && i < |tr[from].calls| && tr[from].calls[i] == RunDone(true)
    ensures forall j | 0 <= j < |tr[from].agents[i].execs| :: tr[from].agents[i].execs[j].pc.Finished?
    ensures Silent(tr[from].agents[i]) ==> HttpRead(tr, i, from, at)[f] == tr[from].agents[i].c[f]
  {
    AlwaysInv(tr, from);
    assert CallOk(tr[from], i);
    forall j | 0 <= j < |tr[from].agents[i].execs| ensures tr[from].agents[i].execs[j].pc.Finished? {
      StillFinished(tr[from].cfg, i, tr[from].agents[i], j);
    }
    LaterAlong(tr, i, from, at[f]);
  }
}
