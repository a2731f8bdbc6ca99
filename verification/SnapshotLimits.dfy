/** Exactly when the promises about snapshots hold: which leftovers of earlier jobs break them, and
    what a failed Run call does to the final one. Each failing half is a job that is constructed for
    every configuration, not a single example. */
module SnapshotLimits {
  import opened Options
  import opened Sums
  import opened Runs
  import opened Arith
  import opened Splitter
  import opened AgentProcess
  import opened AgentProgress
  import opened CounterMerge
  import opened Cluster
  import opened ClusterProgress
  import opened ClusterCounters

  // ----- a collection round that reads everything at once -----

  function InstantSessions(http: seq<bool>, c: seq<int>): (s: seq<Option<Counters>>)
    requires |c| == FIELDS
    ensures |s| == |http|
    ensures forall j | 0 <= j < |s| :: s[j] == if http[j] then Some(HttpMap(c)) else None
  {
    seq(|http|, j requires 0 <= j < |http| => if http[j] then Some(HttpMap(c)) else None)
  }

  function InstantReply(http: seq<bool>, c: seq<int>): Option<Counters>
    requires |c| == FIELDS
  {
    Some(Reply(InstantSessions(http, c), map[]))
  }

  ghost function InstantReplies(s: State): (r: seq<Option<Counters>>)
    requires Inv(s)
    ensures |r| == |s.agents|
    ensures forall i | 0 <= i < |r| :: |s.agents[i].c| == FIELDS && r[i] == InstantReply(s.cfg.http, s.agents[i].c)
  {
    assert forall i | 0 <= i < |s.agents| :: AgentInv(s.cfg, i, s.agents[i]);
    seq(|s.agents|, i requires 0 <= i < |s.agents| => InstantReply(s.cfg.http, s.agents[i].c))
  }

  lemma InstantReplyAt(http: seq<bool>, a: Agent, f: nat)
    requires |a.c| == FIELDS && f < FIELDS
    ensures SumOf(http, One) * FieldOf(f)(a) == Lookup(HttpKey(f))(InstantReply(http, a.c))
  {
    var sessions := InstantSessions(http, a.c);
    forall j | 0 <= j < |http| ensures FieldOf(f)(a) * One(http[j]) == Lookup(HttpKey(f))(sessions[j]) {
      HttpMapAt(a.c, f);
    }
    SumScaledEqual(http, One, FieldOf(f)(a), sessions, Lookup(HttpKey(f)));
    ReplyAt(sessions, map[], f);
  }

  lemma InstantTotals(s: State, f: nat)
    requires Inv(s) && f < FIELDS
    ensures At(Merged(InstantReplies(s)), HttpKey(f)) == SumOf(s.cfg.http, One) * SumOf(s.agents, FieldOf(f))
  {
    var replies := InstantReplies(s);
    var m := SumOf(s.cfg.http, One);
    forall i | 0 <= i < |s.agents| ensures m * FieldOf(f)(s.agents[i]) == Lookup(HttpKey(f))(replies[i]) {
      InstantReplyAt(s.cfg.http, s.agents[i], f);
    }
    SumScaledEqual(s.agents, FieldOf(f), m, replies, Lookup(HttpKey(f)));
    MergedLookup(replies, HttpKey(f));
  }

  /** The master may happen to read every counter in one and the same state. */
  lemma InstantReads(tr: seq<State>, i: nat) returns (at: seq<nat>)
    requires Job(tr) && i < |Last(tr).agents|
    ensures Reads(tr, i, |tr| - 1, at) && HttpRead(tr, i, |tr| - 1, at) == Last(tr).agents[i].c
  {
    var from: nat := |tr| - 1;
    SameJob(tr, from);
    forall t | 0 <= t < |tr| ensures i < |tr[t].agents| && |tr[t].agents[i].c| == FIELDS {
      SameJob(tr, t);
      AlwaysInv(tr, t);
      assert AgentInv(tr[t].cfg, i, tr[t].agents[i]);
    }
    at := seq(FIELDS, _ => from);
  }

  lemma InstantRound(tr: seq<State>)
    requires Job(tr) && Inv(Last(tr))
    ensures Round(tr, |tr| - 1, InstantReplies(Last(tr)))
  {
    var s := Last(tr);
    var replies := InstantReplies(s);
    forall i | 0 <= i < |replies| ensures Replied(tr, i, |tr| - 1, replies[i].value) {
      var at := InstantReads(tr, i);
      var sessions := InstantSessions(s.cfg.http, s.agents[i].c);
      forall j | 0 <= j < |sessions| ensures SessionPart(tr, i, |tr| - 1, s.cfg.http[j], sessions[j]) {}
      assert AgentReply(tr, i, |tr| - 1, sessions, map[]);
    }
  }

  // ----- a job that ends well while the leftovers stand still -----

  ghost predicate FreshJob(s: State) {
    && Inv(s) && Listed(s.cfg) && s.pc == SettingUp(0)
    && forall i | 0 <= i < |s.agents| :: s.agents[i].pc == Resetting(0)
  }

  lemma EndWell(s: State) returns (t: State)
    requires FreshJob(s)
    ensures Reaches(Next, s, t) && Inv(t) && t.cfg == s.cfg && t.pc.Collecting? && |t.agents| == |s.agents|
    ensures forall j | 0 <= j < |t.calls| :: t.calls[j] == RunDone(true)
    ensures forall j | 0 <= j < |s.agents| :: t.agents[j].strays == s.agents[j].strays && Undrifted(t.agents[j], ALL_FIELDS)
  {
    var u := Start(s);
    forall j | 0 <= j < |s.agents|
      ensures u.calls[j] == RunSent && NoneStuck(u.agents[j])
      ensures u.agents[j].strays == s.agents[j].strays && Undrifted(u.agents[j], ALL_FIELDS)
    {
      assert CallOk(s, j) && AgentInv(s.cfg, j, s.agents[j]);
      assert CalmAgent(s.cfg, s.agents[j], u.agents[j]);
    }
    var v := ReturnAll(u, 0);
    ReachJoin(Next, s, u, v);
    t := DrainNow(v);
    ReachStep(Next, s, v, t);
  }

  // ----- leftovers -----

  /** Leftovers of agent i take a step. */
  lemma StrayTakes(s: State, i: nat, act: Action, b: Agent)
    requires Inv(s) && i < |s.agents| && IsStray(act) && |s.agents[i].c| == |s.agents[i].base| == FIELDS
    requires StrayStep(s.agents[i], act, b)
    ensures Next(s, WithAgent(s, i, b)) && Inv(WithAgent(s, i, b))
  {
    assert Step(s, AgentMoves(i, act, b), WithAgent(s, i, b));
    NextKeeps(s, WithAgent(s, i, b));
  }

  lemma AgentShape(s: State, i: nat)
    requires Inv(s) && i < |s.agents|
    ensures |s.agents[i].c| == |s.agents[i].base| == FIELDS
    ensures forall j | 0 <= j < |s.agents[i].strays| :: StrayOk(s.agents[i].strays[j])
  {
    assert AgentInv(s.cfg, i, s.agents[i]);
  }

  function StrayMoved(a: Agent, j: nat, y: Stray, field: nat, delta: int): Agent
    requires j < |a.strays| && field < |a.c|
  {
    a.(strays := a.strays[j := y], c := a.c[field := a.c[field] + delta])
  }

  lemma StrayMoves(s: State, i: nat, j: nat, y: Stray, field: nat, delta: int) returns (t: State)
    requires Inv(s) && i < |s.agents| && j < |s.agents[i].strays| && field < FIELDS
    requires StrayMove(s.agents[i].strays[j], y, field, delta)
    ensures Next(s, t) && Inv(t) && |s.agents[i].c| == FIELDS
    ensures t == WithAgent(s, i, StrayMoved(s.agents[i], j, y, field, delta))
  {
    AgentShape(s, i);
    var b := StrayMoved(s.agents[i], j, y, field, delta);
    assert StrayStep(s.agents[i], OnStray(j, y, field, delta), b);
    StrayTakes(s, i, OnStray(j, y, field, delta), b);
    t := WithAgent(s, i, b);
  }

  /** A leftover that can still complete a request can be brought to the brink of it. */
  lemma {:induction false} DriveStray(s: State, i: nat, j: nat) returns (t: State)
    requires FreshJob(s) && i < |s.agents| && j < |s.agents[i].strays|
    requires s.agents[i].strays[j].http && CanComplete(s.agents[i].strays[j].e.pc)
    ensures Reaches(Next, s, t) && FreshJob(t) && t.cfg == s.cfg && |t.agents| == |s.agents|
    ensures j < |t.agents[i].strays| && t.agents[i].strays[j].http && t.agents[i].strays[j].e.pc.Completing?
    decreases ExecRank(s.agents[i].strays[j].e)
  {
    var x := s.agents[i].strays[j];
    if x.e.pc.Completing? {
      t := s;
      ReachSelf(Next, s);
    } else {
      AgentShape(s, i);
      NextExecMoves(true, x.e);
      var r := NextExec(true, x.e);
      var u := StrayMoves(s, i, j, x.(e := r.0), r.1, r.2);
      t := DriveStray(u, i, j);
      ReachFirst(Next, s, u, t);
    }
  }

  /** An earlier Run that goes on launches one more executor. */
  lemma StrayLaunches(s: State, i: nat) returns (t: State)
    requires FreshJob(s) && i < |s.agents| && s.agents[i].relaunch
    ensures Next(s, t) && FreshJob(t)
    ensures t == WithAgent(s, i, s.agents[i].(strays := s.agents[i].strays + [NEWCOMER]))
  {
    var a := s.agents[i];
    AgentShape(s, i);
    var b := a.(strays := a.strays + [NEWCOMER]);
    StrayTakes(s, i, StrayLaunch, b);
    t := WithAgent(s, i, b);
  }

  lemma BringToCompleting(s: State, i: nat) returns (t: State, j: nat)
    requires FreshJob(s) && i < |s.agents| && !Settled(s.agents[i])
    ensures Reaches(Next, s, t) && FreshJob(t) && t.cfg == s.cfg && |t.agents| == |s.agents|
    ensures j < |t.agents[i].strays| && t.agents[i].strays[j].http && t.agents[i].strays[j].e.pc.Completing?
  {
    if s.agents[i].relaunch {
      var u := StrayLaunches(s, i);
      j := |s.agents[i].strays|;
      t := DriveStray(u, i, j);
      ReachFirst(Next, s, u, t);
    } else {
      j :| 0 <= j < |s.agents[i].strays| && s.agents[i].strays[j].http && CanComplete(s.agents[i].strays[j].e.pc);
      t := DriveStray(s, i, j);
    }
  }

  /** The one counter a leftover at this point touches next, and by how much. */
  function Effect(pc: ExecPc): (nat, int) {
    if pc.Completing? then (COMPLETED, 1) else if pc.GotError? then (INITIATED, -1) else (ERROR, 1)
  }

  /** The summed counters of t are those of u but for one field. */
  ghost predicate Off(u: State, t: State, effect: (nat, int)) {
    && SumOf(t.agents, StartedOn) == SumOf(u.agents, StartedOn)
    && forall f | 0 <= f < FIELDS ::
         SumOf(t.agents, FieldOf(f)) == SumOf(u.agents, FieldOf(f)) + if f == effect.0 then effect.1 else 0
  }

  lemma OneFieldOff(u: State, i: nat, j: nat, y: Stray, effect: (nat, int))
    requires i < |u.agents| && |u.agents[i].c| == FIELDS && effect.0 < FIELDS && j < |u.agents[i].strays|
    ensures Off(u, WithAgent(u, i, StrayMoved(u.agents[i], j, y, effect.0, effect.1)), effect)
  {
    SumUpdate(u.agents, i, StrayMoved(u.agents[i], j, y, effect.0, effect.1));
  }

  lemma EffectMove(x: Stray) returns (y: Stray)
    requires StrayOk(x) && x.http && x.e.pc in {Completing, GotError, Failing}
    ensures StrayMove(x, y, Effect(x.e.pc).0, Effect(x.e.pc).1)
  {
    NextExecMoves(true, x.e);
    y := x.(e := NextExec(true, x.e).0);
  }

  /** A leftover makes a move that counts. */
  lemma Strike(u: State, i: nat, j: nat) returns (t: State)
    requires Inv(u) && i < |u.agents| && j < |u.agents[i].strays| && u.agents[i].strays[j].http
    requires u.agents[i].strays[j].e.pc in {Completing, GotError, Failing}
    ensures Next(u, t) && Inv(t) && t == u.(agents := t.agents)
    ensures Off(u, t, Effect(u.agents[i].strays[j].e.pc))
  {
    var x := u.agents[i].strays[j];
    AgentShape(u, i);
    var r := Effect(x.e.pc);
    var y := EffectMove(x);
    t := StrayMoves(u, i, j, y, r.0, r.1);
    OneFieldOff(u, i, j, y, r);
  }

  lemma EndBalanced(s: State) returns (t: State)
    requires FreshJob(s)
    ensures Reaches(Next, s, t) && Inv(t) && t.cfg == s.cfg && t.pc.Collecting? && |t.agents| == |s.agents|
    ensures forall j | 0 <= j < |t.calls| :: t.calls[j] == RunDone(true)
    ensures forall j | 0 <= j < |s.agents| :: t.agents[j].strays == s.agents[j].strays && BooksBalance(t.agents[j])
  {
    t := EndWell(s);
    forall k | 0 <= k < |t.agents| ensures BooksBalance(t.agents[k]) {
      assert CallOk(t, k) && AgentInv(t.cfg, k, t.agents[k]);
      QuietBooks(t.cfg, k, t.agents[k]);
    }
  }

  /** A job from s0 in which no call fails and a leftover strikes last: its final round is off. */
  lemma OffAtTheEnd(s0: State, s: State, i: nat, j: nat) returns (tr: seq<State>, u: State)
    requires Init(s0) && Reaches(Next, s0, s) && FreshJob(s)
    requires i < |s.agents| && j < |s.agents[i].strays| && s.agents[i].strays[j].http
    requires s.agents[i].strays[j].e.pc in {Completing, GotError, Failing}
    ensures Job(tr) && tr[0] == s0 && CleanDrain(tr, |tr| - 1) && Inv(Last(tr))
    ensures forall k | 0 <= k < |u.agents| :: BooksBalance(u.agents[k])
    ensures Off(u, Last(tr), Effect(s.agents[i].strays[j].e.pc))
  {
    u := EndBalanced(s);
    var t := Strike(u, i, j);
    assert CleanState(t);
    ReachJoin(Next, s0, s, u);
    ReachStep(Next, s0, u, t);
    tr := RunTo(Init, Next, s0, t);
  }

  ghost predicate CleanState(t: State) {
    Listed(t.cfg) && t.pc.Collecting? && forall k | 0 <= k < |t.calls| :: t.calls[k] == RunDone(true)
  }

  lemma ListedPositive(cfg: Config)
    requires Listed(cfg)
    ensures SumOf(cfg.http, One) >= 1
  {
    var s: nat :| s < |cfg.http| && cfg.http[s];
    SumAtLeast(cfg.http, One, s);
  }

  /** A field that is off by d before scaling is off by a multiple of d after. */
  lemma ScaledOff(m: int, x: int, y: int, d: int)
    requires m >= 1 && x == y + d && d != 0
    ensures d > 0 ==> m * x > m * y
    ensures d < 0 ==> m * x < m * y
  {
  }

  /** Off by one on the small side, the inequality fails; off by one anywhere, exactness fails. */
  lemma OffIsWrong(u: State, t: State, pc: ExecPc)
    requires Inv(t) && Listed(t.cfg) && forall k | 0 <= k < |u.agents| :: BooksBalance(u.agents[k])
    requires pc in {Completing, GotError, Failing} && Off(u, t, Effect(pc))
    ensures pc.Completing? ==> !WithinBuckets(Some(Merged(InstantReplies(t))))
    ensures !Exact(Merged(InstantReplies(t)), SumOf(t.cfg.http, One), t.agents)
  {
    var m := SumOf(t.cfg.http, One);
    ListedPositive(t.cfg);
    BalancedBooks(u.agents);
    forall f | 0 <= f < FIELDS
      ensures At(Merged(InstantReplies(t)), HttpKey(f)) == m * SumOf(t.agents, FieldOf(f))
    {
      InstantTotals(t, f);
    }
    KeyNames();
    WrongTotals(m, pc, SumOf(t.agents, FieldOf(INITIATED)), SumOf(t.agents, FieldOf(COMPLETED)), SumOf(t.agents, FieldOf(ERROR)),
                SumOf(t.agents, FieldOf(LT1000)), SumOf(t.agents, FieldOf(LT10000)), SumOf(t.agents, FieldOf(GTE10000)),
                SumOf(t.agents, StartedOn));
  }

  lemma WrongTotals(m: int, pc: ExecPc, initiated: int, completed: int, error: int, b1: int, b2: int, b3: int, started: int)
    requires m >= 1
    requires pc.Completing? ==> completed == b1 + b2 + b3 + 1
    requires pc.GotError? ==> initiated == -1
    requires pc.Failing? ==> completed + error == started + 1
    ensures pc.Completing? ==> m * completed > m * b1 + m * b2 + m * b3
    ensures pc.GotError? ==> m * initiated != 0
    ensures pc.Failing? ==> m * completed + m * error != m * started
  {
    var b := b1 + b2 + b3;
    assert m * b == m * b1 + m * b2 + m * b3;
    if pc.Completing? { ScaledOff(m, completed, b, 1); }
    if pc.GotError? { ScaledOff(m, initiated, 0, -1); }
    if pc.Failing? {
      assert m * (completed + error) == m * completed + m * error;
      ScaledOff(m, completed + error, started, 1);
    }
  }

  lemma FirstIsFresh(s: State)
    requires Init(s) && Listed(s.cfg)
    ensures FreshJob(s) && Reaches(Next, s, s)
  {
    InitOk(s);
    ReachSelf(Next, s);
    forall i | 0 <= i < |s.agents| ensures s.agents[i].pc == Resetting(0) { assert AgentInit(s.agents[i]); }
  }

  // ----- the exact conditions -----

  /** In every job from s0, every snapshot the master takes has completed <= sum of the buckets. */
  ghost predicate AlwaysWithinBuckets(s0: State) {
    forall tr: seq<State>, from: nat, replies: seq<Option<Counters>> | Job(tr) && tr[0] == s0 && Watched(tr, from) && Round(tr, from, replies) ::
      WithinBuckets(Some(Merged(replies)))
  }

  ghost predicate Watched(tr: seq<State>, from: nat) {
    from < |tr| && (tr[from].pc.Awaiting? || tr[from].pc.Collecting?)
  }

  /** In every job from s0 without a failed call, a complete final snapshot is exact. */
  ghost predicate AlwaysExact(s0: State) {
    forall tr: seq<State>, from: nat, replies: seq<Option<Counters>> | CleanDrain(tr, from) && tr[0] == s0 && Round(tr, from, replies) && AllAnswered(replies) ::
      Exact(Merged(replies), SumOf(tr[from].cfg.http, One), tr[from].agents)
  }

  ghost predicate AllAnswered(replies: seq<Option<Counters>>) {
    forall i | 0 <= i < |replies| :: replies[i].Some?
  }

  /** The snapshots of a job keep completed within the buckets if and only if no earlier job left an
      http:get executor, or a launcher of one, that can still reach `completed++`. */
  lemma WithinBucketsIff(s0: State)
    requires Init(s0) && Listed(s0.cfg)
    ensures AlwaysWithinBuckets(s0) <==> forall i | 0 <= i < |s0.agents| :: Settled(s0.agents[i])
  {
    if i: nat :| i < |s0.agents| && !Settled(s0.agents[i]) {
      FirstIsFresh(s0);
      var s, j := BringToCompleting(s0, i);
      var tr, u := OffAtTheEnd(s0, s, i, j);
      OffIsWrong(u, Last(tr), Completing);
      InstantRound(tr);
      assert Watched(tr, |tr| - 1);
    } else {
      forall tr: seq<State>, from: nat, replies: seq<Option<Counters>> | Job(tr) && tr[0] == s0 && Watched(tr, from) && Round(tr, from, replies)
        ensures WithinBuckets(Some(Merged(replies)))
      {
        SameJob(tr, from);
        CollectedWithinBuckets(tr, from, replies);
      }
    }
  }

  /** The final snapshot of every job without a failed call is exact if and only if no earlier job left
      anything that still counts. */
  lemma ExactIff(s0: State)
    requires Init(s0) && Listed(s0.cfg)
    ensures AlwaysExact(s0) <==> forall i | 0 <= i < |s0.agents| :: Silent(s0.agents[i])
  {
    if i: nat :| i < |s0.agents| && !Silent(s0.agents[i]) {
      FirstIsFresh(s0);
      var s, j := BringToStrike(s0, i);
      LeftoverBreaksExact(s0, s, i, j);
    } else {
      forall tr: seq<State>, from: nat, replies: seq<Option<Counters>> | CleanDrain(tr, from) && tr[0] == s0 && Round(tr, from, replies) && AllAnswered(replies)
        ensures Exact(Merged(replies), SumOf(tr[from].cfg.http, One), tr[from].agents)
      {
        FinalCounters(tr, from, replies);
      }
    }
  }

  lemma LeftoverBreaksExact(s0: State, s: State, i: nat, j: nat)
    requires Init(s0) && Listed(s0.cfg) && Reaches(Next, s0, s) && FreshJob(s)
    requires i < |s.agents| && j < |s.agents[i].strays| && s.agents[i].strays[j].http
    requires s.agents[i].strays[j].e.pc in {Completing, GotError, Failing}
    ensures !AlwaysExact(s0)
  {
    var tr, u := OffAtTheEnd(s0, s, i, j);
    OffIsWrong(u, Last(tr), s.agents[i].strays[j].e.pc);
    InstantRound(tr);
    assert AllAnswered(InstantReplies(Last(tr)));
  }

  lemma BringToStrike(s: State, i: nat) returns (t: State, j: nat)
    requires FreshJob(s) && i < |s.agents| && !Silent(s.agents[i])
    ensures Reaches(Next, s, t) && FreshJob(t) && t.cfg == s.cfg && |t.agents| == |s.agents|
    ensures j < |t.agents[i].strays| && t.agents[i].strays[j].http
    ensures t.agents[i].strays[j].e.pc in {Completing, GotError, Failing}
  {
    if !Settled(s.agents[i]) {
      t, j := BringToCompleting(s, i);
    } else {
      j :| 0 <= j < |s.agents[i].strays| && s.agents[i].strays[j].http && CanCount(s.agents[i].strays[j].e.pc);
      t := s;
      ReachSelf(Next, s);
    }
  }

  // ----- failed calls -----

  lemma SomeUsersSomeShare(total: nat, agents: int)
    requires total >= 1 && agents >= 1
    ensures Share(total, agents, 0) >= 1
  {
    CeilDivBounds(total, agents);
    assert CeilDiv(total, agents) != 0;
  }

  lemma NoUsersNoShare(agents: int, i: nat)
    requires agents >= 1
    ensures Share(0, agents, i) == 0
  {
    DivUnique(agents - 1, agents, 0, agents - 1);
  }

  /** The job is dispatched, its agents untouched. */
  lemma Dispatched(s0: State) returns (u: State)
    requires Init(s0) && Listed(s0.cfg)
    ensures Reaches(Next, s0, u) && Inv(u) && u.cfg == s0.cfg && u.pc.Awaiting?
    ensures Untouched(u)
  {
    FirstIsFresh(s0);
    u := Start(s0);
    forall j | 0 <= j < |u.agents|
      ensures u.calls[j].RunSent? && u.agents[j].pc.Ready? && u.agents[j].execs == []
      ensures Undrifted(u.agents[j], ALL_FIELDS)
    {
      assert CallOk(s0, j) && AgentInit(s0.agents[j]);
      assert CalmAgent(s0.cfg, s0.agents[j], u.agents[j]);
    }
  }

  /** Dispatched, and no agent has begun. */
  ghost predicate Untouched(u: State) {
    && |u.calls| == |u.agents|
    && forall j | 0 <= j < |u.agents| ::
         && u.calls[j].RunSent? && u.agents[j].pc.Ready? && u.agents[j].execs == []
         && Undrifted(u.agents[j], ALL_FIELDS)
  }

  lemma OneInFlight(u: State, b: Agent)
    requires Listed(u.cfg) && Untouched(u) && |u.agents| >= 1 && Inv(WithAgent(u, 0, b))
    requires SumOf(b.execs, Contribution(INITIATED)) >= 1 && Undrifted(b, ALL_FIELDS)
    ensures SumOf(WithAgent(u, 0, b).agents, FieldOf(INITIATED)) >= 1
  {
    var v := WithAgent(u, 0, b);
    assert CallOk(v, 0);
    forall j | 0 <= j < |v.agents| ensures FieldOf(INITIATED)(v.agents[j]) >= if j == 0 then 1 else 0 {
      assert AgentInv(v.cfg, j, v.agents[j]);
    }
    SumAtLeast(v.agents, FieldOf(INITIATED), 0);
  }

  lemma RequestFrom(cfg: Config, a: Agent, p: nat, s: nat) returns (b: Agent)
    requires AgentInv(cfg, 0, a) && a.pc.Ready? && a.execs == []
    requires p < |cfg.totals| && s < |cfg.http| && cfg.http[s] && cfg.totals[p][s] >= 1
    ensures Reaches(OwnNext(cfg, 0), a, b) && SumOf(b.execs, Contribution(INITIATED)) >= 1
  {
    SomeUsersSomeShare(cfg.totals[p][s], cfg.agents);
    CodeMeetsReference(cfg.totals[p][s], cfg.agents, 0);
    b := RequestIn(cfg, 0, a, p, s);
  }

  lemma InTheMiddle(u: State, p: nat, s: nat) returns (v: State)
    requires Inv(u) && p < |u.cfg.totals| && s < |u.cfg.http| && u.cfg.http[s] && u.cfg.totals[p][s] >= 1
    requires Untouched(u)
    ensures Reaches(Next, u, v) && Inv(v) && v == u.(agents := v.agents)
    ensures SumOf(v.agents, FieldOf(INITIATED)) >= 1
  {
    assert AgentInv(u.cfg, 0, u.agents[0]);
    var b := RequestFrom(u.cfg, u.agents[0], p, s);
    Lift(u, 0, b);
    v := WithAgent(u, 0, b);
    OneInFlight(u, b);
  }

  /** A job whose Run calls all fail while its first agent is in the middle of a request. */
  lemma CutShort(s0: State, p: nat, s: nat) returns (tr: seq<State>)
    requires Init(s0) && p < |s0.cfg.totals| && s < |s0.cfg.http|
    requires s0.cfg.http[s] && s0.cfg.totals[p][s] >= 1
    ensures Job(tr) && tr[0] == s0 && Last(tr).pc.Collecting? && Inv(Last(tr)) && Last(tr).cfg == s0.cfg
    ensures SumOf(Last(tr).agents, FieldOf(INITIATED)) >= 1
  {
    var u := Dispatched(s0);
    var v := InTheMiddle(u, p, s);
    var t := FailAll(v, 0);
    ReachJoin(Next, s0, u, v);
    ReachJoin(Next, s0, v, t);
    tr := RunTo(Init, Next, s0, t);
  }

  /** No http:get user is configured anywhere. */
  ghost predicate NoHttpUsers(cfg: Config) {
    forall p, s | 0 <= p < |cfg.totals| && 0 <= s < |cfg.totals[p]| && s < |cfg.http| && cfg.http[s] ::
      cfg.totals[p][s] == 0
  }

  lemma NobodyInFlight(cfg: Config, idx: nat, a: Agent)
    requires AgentInv(cfg, idx, a) && NoHttpUsers(cfg)
    ensures SumOf(a.execs, Contribution(INITIATED)) == 0
  {
    forall j | 0 <= j < |a.execs| ensures Contribution(INITIATED)(a.execs[j]) == 0 {
      if Contribution(INITIATED)(a.execs[j]) != 0 {
        var e := a.execs[j];
        assert ExecOk(cfg, e) && HasLane(a, e.p, e.s);
        assert LaneOk(cfg, idx, a, e.p, e.s);
        UnfinishedIsCounted(cfg, idx, a, j);
        NoUsersNoShare(cfg.agents, idx);
        assert false;
      }
    }
    SumZero(a.execs, Contribution(INITIATED));
  }

  lemma NothingRead(tr: seq<State>, i: nat, from: nat, at: seq<nat>)
    requires Job(tr) && Reads(tr, i, from, at) && from < |tr| && tr[from].pc.Collecting?
    requires Listed(tr[0].cfg) && NoHttpUsers(tr[0].cfg) && i < |tr[0].agents| && Silent(tr[0].agents[i])
    ensures HttpRead(tr, i, from, at)[INITIATED] == 0
  {
    var k := at[INITIATED];
    WatchAfterSetup(tr, from, i);
    LaterAlong(tr, i, from, k);
    SettledAlong(tr, i, k);
    assert AgentInv(tr[k].cfg, i, tr[k].agents[i]);
    NobodyInFlight(tr[k].cfg, i, tr[k].agents[i]);
  }

  lemma NothingReplied(tr: seq<State>, i: nat, from: nat, m: Counters)
    requires Job(tr) && from < |tr| && tr[from].pc.Collecting? && Replied(tr, i, from, m)
    requires Listed(tr[0].cfg) && NoHttpUsers(tr[0].cfg) && i < |tr[0].agents| && Silent(tr[0].agents[i])
    ensures At(m, "initiated") == 0
  {
    var sessions, system :| AgentReply(tr, i, from, sessions, system) && m == Reply(sessions, system);
    KeyNames();
    forall j | 0 <= j < |sessions| ensures Lookup("initiated")(sessions[j]) == 0 {
      assert SessionPart(tr, i, from, tr[from].cfg.http[j], sessions[j]);
      if tr[from].cfg.http[j] {
        var at :| Reads(tr, i, from, at) && sessions[j] == Some(HttpMap(HttpRead(tr, i, from, at)));
        NothingRead(tr, i, from, at);
        HttpMapAt(HttpRead(tr, i, from, at), INITIATED);
        KeyNames();
      }
    }
    SumZero(sessions, Lookup("initiated"));
    ReplyAt(sessions, system, INITIATED);
    KeyNames();
  }

  /** In every job from s0, failed calls or not, the final snapshot reports nothing in flight. */
  ghost predicate AlwaysIdleAtTheEnd(s0: State) {
    forall tr: seq<State>, from: nat, replies: seq<Option<Counters>> |
      Job(tr) && tr[0] == s0 && from < |tr| && tr[from].pc.Collecting? && Round(tr, from, replies) ::
      At(Merged(replies), "initiated") == 0
  }

  lemma OneUserIsEnough(s0: State, p: nat, s: nat)
    requires Init(s0) && p < |s0.cfg.totals| && s < |s0.cfg.http|
    requires s0.cfg.http[s] && s0.cfg.totals[p][s] >= 1
    ensures !AlwaysIdleAtTheEnd(s0)
  {
    var tr := CutShort(s0, p, s);
    var t := Last(tr);
    InstantRound(tr);
    InstantTotals(t, INITIATED);
    KeyNames();
    ListedPositive(t.cfg);
    ScaledOff(SumOf(t.cfg.http, One), SumOf(t.agents, FieldOf(INITIATED)), 0, SumOf(t.agents, FieldOf(INITIATED)));
  }

  lemma NothingCollected(tr: seq<State>, from: nat, replies: seq<Option<Counters>>)
    requires Job(tr) && from < |tr| && tr[from].pc.Collecting? && Round(tr, from, replies)
    requires Listed(tr[0].cfg) && NoHttpUsers(tr[0].cfg)
    requires forall i | 0 <= i < |tr[0].agents| :: Silent(tr[0].agents[i])
    ensures At(Merged(replies), "initiated") == 0
  {
    SameJob(tr, from);
    forall i | 0 <= i < |replies| ensures Lookup("initiated")(replies[i]) == 0 {
      if replies[i].Some? { NothingReplied(tr, i, from, replies[i].value); }
    }
    SumZero(replies, Lookup("initiated"));
    MergedLookup(replies, "initiated");
  }

  /** Without the promise that calls succeed, the final snapshot is right about what is in flight if
      and only if the job has no http:get user at all: one configured user is enough for a job whose
      final snapshot, with every agent answering, still shows a session in flight. */
  lemma IdleAtTheEndIff(s0: State)
    requires Init(s0) && Listed(s0.cfg) && forall i | 0 <= i < |s0.agents| :: Silent(s0.agents[i])
    ensures AlwaysIdleAtTheEnd(s0) <==> NoHttpUsers(s0.cfg)
  {
    if p: nat, s: nat :| p < |s0.cfg.totals| && s < |s0.cfg.totals[p]| && s < |s0.cfg.http|
                         && s0.cfg.http[s] && s0.cfg.totals[p][s] != 0 {
      OneUserIsEnough(s0, p, s);
    } else {
      forall tr: seq<State>, from: nat, replies: seq<Option<Counters>> |
        Job(tr) && tr[0] == s0 && from < |tr| && tr[from].pc.Collecting? && Round(tr, from, replies)
        ensures At(Merged(replies), "initiated") == 0
      {
        NothingCollected(tr, from, replies);
      }
    }
  }
}
