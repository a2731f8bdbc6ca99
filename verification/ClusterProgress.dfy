/** When a job can still end well: whatever the interleaving so far, a Run call can return unless it
    failed already or one of its executors is leaked or hung. */
module ClusterProgress {
  import opened Sums
  import opened Runs
  import opened Splitter
  import opened AgentProcess
  import opened AgentProgress
  import opened Cluster

  function WithAgent(s: State, i: nat, a: Agent): State
    requires i < |s.agents|
  {
    s.(agents := s.agents[i := a])
  }

  function WithCall(s: State, i: nat, c: Call): State
    requires i < |s.calls|
  {
    s.(calls := s.calls[i := c])
  }

  ghost predicate Called(c: Call) { c.RunSent? || c == RunDone(false) }

  /** The agent goes on by itself: what it can do alone it can do within the cluster. */
  lemma {:induction false} LiftAlong(s: State, i: nat, path: seq<Agent>, k: nat)
    requires Inv(s) && i < |s.agents| && Called(s.calls[i])
    requires Path(OwnNext(s.cfg, i), path) && path[0] == s.agents[i] && k < |path|
    ensures Reaches(Next, s, WithAgent(s, i, path[k])) && Inv(WithAgent(s, i, path[k]))
  {
    if k == 0 {
      assert WithAgent(s, i, path[0]) == s;
      ReachSelf(Next, s);
    } else {
      LiftAlong(s, i, path, k - 1);
      var t, u := WithAgent(s, i, path[k - 1]), WithAgent(s, i, path[k]);
      assert OwnNext(s.cfg, i)(path[k - 1], path[k]);
      var act :| Own(act) && AgentStep(s.cfg, i, path[k - 1], act, path[k]);
      assert Step(t, AgentMoves(i, act, path[k]), u);
      NextKeeps(t, u);
      ReachStep(Next, s, t, u);
    }
  }

  lemma Lift(s: State, i: nat, b: Agent)
    requires Inv(s) && i < |s.agents| && Called(s.calls[i]) && Reaches(OwnNext(s.cfg, i), s.agents[i], b)
    ensures Reaches(Next, s, WithAgent(s, i, b)) && Inv(WithAgent(s, i, b))
    ensures b.strays == s.agents[i].strays && b.relaunch == s.agents[i].relaunch
    ensures Listed(s.cfg) && Undrifted(s.agents[i], ALL_FIELDS) ==> Undrifted(b, ALL_FIELDS)
  {
    var path :| Path(OwnNext(s.cfg, i), path) && path[0] == s.agents[i] && Last(path) == b;
    LiftAlong(s, i, path, |path| - 1);
    OwnPathKeeps(s.cfg, i, path, |path| - 1);
  }

  // ----- the setup barrier -----

  /** t follows s without a step of a session, old or new. */
  ghost predicate Calm(s: State, t: State) {
    && Reaches(Next, s, t) && Inv(t) && t.cfg == s.cfg && |t.agents| == |s.agents|
    && forall i | 0 <= i < |s.agents| :: CalmAgent(s.cfg, s.agents[i], t.agents[i])
  }

  ghost predicate CalmAgent(cfg: Config, a: Agent, b: Agent) {
    && b.execs == a.execs && b.strays == a.strays && b.relaunch == a.relaunch
    && (Listed(cfg) && Undrifted(a, ALL_FIELDS) ==> Undrifted(b, ALL_FIELDS))
  }

  lemma CalmJoin(s: State, t: State, u: State)
    requires Calm(s, t) && Calm(t, u)
    ensures Calm(s, u)
  {
    ReachJoin(Next, s, t, u);
    forall i | 0 <= i < |s.agents| ensures CalmAgent(s.cfg, s.agents[i], u.agents[i]) {
      assert CalmAgent(s.cfg, s.agents[i], t.agents[i]) && CalmAgent(t.cfg, t.agents[i], u.agents[i]);
    }
  }

  lemma CalmSelf(s: State)
    requires Inv(s)
    ensures Calm(s, s)
  {
    ReachSelf(Next, s);
  }

  lemma CalmMove(s: State, m: Move, t: State)
    requires Inv(s) && Step(s, m, t) && !m.AgentMoves?
    ensures Calm(s, t)
  {
    NextKeeps(s, t);
    ReachSelf(Next, s);
    ReachStep(Next, s, s, t);
    assert t.agents == s.agents && t.cfg == s.cfg;
  }

  lemma ResetOnce(cfg: Config, idx: nat, a: Agent) returns (b: Agent)
    requires AgentInv(cfg, idx, a) && a.pc.Resetting?
    ensures AgentStep(cfg, idx, a, Reset, b) && CalmAgent(cfg, a, b) && ResetsLeft(b.pc) < ResetsLeft(a.pc)
  {
    b := if Listed(cfg) && a.pc.k < FIELDS
         then a.(pc := Resetting(a.pc.k + 1), c := a.c[a.pc.k := 0],
                 base := a.base[a.pc.k := SoFar(a, a.pc.k)])
         else a.(pc := Ready);
    assert ControlStep(cfg, idx, a, Reset, b);
    OwnStepsUndrifted(cfg, idx, a, Reset, b, ALL_FIELDS);
  }

  lemma CalmReset(s: State, i: nat) returns (t: State)
    requires Inv(s) && i < |s.agents| && s.calls[i].SetupSent? && s.agents[i].pc.Resetting?
    ensures Calm(s, t) && t == WithAgent(s, i, t.agents[i])
    ensures ResetsLeft(t.agents[i].pc) < ResetsLeft(s.agents[i].pc)
  {
    var b := ResetOnce(s.cfg, i, s.agents[i]);
    t := WithAgent(s, i, b);
    assert Step(s, AgentMoves(i, Reset, b), t);
    NextKeeps(s, t);
    ReachSelf(Next, s);
    ReachStep(Next, s, s, t);
  }

  function ResetsLeft(pc: AgentPc): nat {
    if !pc.Resetting? then 0 else if pc.k < FIELDS then FIELDS - pc.k + 1 else 1
  }

  lemma {:induction false} SetupOne(s: State, i: nat) returns (t: State)
    requires Inv(s) && i < |s.calls| && s.calls[i].SetupSent? && s.pc.SettingUp?
    ensures Calm(s, t) && t.pc == s.pc && t.calls == s.calls[i := SetupDone]
    decreases ResetsLeft(s.agents[i].pc)
  {
    if s.agents[i].pc.Resetting? {
      var u := CalmReset(s, i);
      t := SetupOne(u, i);
      CalmJoin(s, u, t);
    } else {
      assert CallOk(s, i);
      t := WithCall(s, i, SetupDone).(setupWg := s.setupWg - 1);
      CalmMove(s, SetupReturn(i), t);
    }
  }

  lemma {:induction false} SetupAll(s: State, i: nat) returns (t: State)
    requires Inv(s) && s.pc == SettingUp(s.cfg.agents) && i <= s.cfg.agents
    requires forall j | 0 <= j < i :: s.calls[j].SetupDone?
    ensures Calm(s, t) && t.pc == Dispatching(0)
    decreases s.cfg.agents - i
  {
    if i == s.cfg.agents {
      SumZero(s.calls, AwaitsSetup);
      t := s.(pc := Dispatching(0));
      CalmMove(s, Barrier, t);
    } else {
      assert CallOk(s, i);
      var u := s;
      CalmSelf(s);
      if s.calls[i].SetupSent? { u := SetupOne(s, i); }
      t := SetupAll(u, i + 1);
      CalmJoin(s, u, t);
    }
  }

  lemma {:induction false} FinishSetup(s: State) returns (t: State)
    requires Inv(s) && s.pc.SettingUp?
    ensures Calm(s, t) && t.pc == Dispatching(0)
    decreases s.cfg.agents - s.pc.k
  {
    if s.pc.k == s.cfg.agents {
      t := SetupAll(s, 0);
    } else {
      var u := WithCall(s, s.pc.k, SetupSent).(pc := SettingUp(s.pc.k + 1), setupWg := s.setupWg + 1);
      CalmMove(s, SpawnSetup, u);
      t := FinishSetup(u);
      CalmJoin(s, u, t);
    }
  }

  // ----- dispatch -----

  lemma {:induction false} DispatchAll(s: State) returns (t: State)
    requires Inv(s) && s.pc.Dispatching?
    ensures Calm(s, t) && t.pc.Awaiting? && t.agents == s.agents
    ensures forall i | 0 <= i < |s.calls| :: t.calls[i] == if s.calls[i].SetupDone? then RunSent else s.calls[i]
    decreases s.cfg.agents - s.pc.k
  {
    if s.pc.k == s.cfg.agents {
      forall i | 0 <= i < |s.calls| ensures !s.calls[i].SetupDone? { assert CallOk(s, i); }
      t := s.(pc := Awaiting);
      CalmMove(s, StartWatch, t);
    } else {
      assert CallOk(s, s.pc.k);
      var u := WithCall(s, s.pc.k, RunSent).(pc := Dispatching(s.pc.k + 1), runWg := s.runWg + 1);
      CalmMove(s, SpawnRun, u);
      t := DispatchAll(u);
      CalmJoin(s, u, t);
    }
  }

  /** From any moment before the final collection the master can get to await all its Run calls. */
  lemma Start(s: State) returns (t: State)
    requires Inv(s) && !s.pc.Collecting?
    ensures Calm(s, t) && t.pc.Awaiting?
    ensures forall i | 0 <= i < |s.calls| ::
              if s.calls[i].RunSent? || s.calls[i].RunDone? then t.calls[i] == s.calls[i]
              else t.calls[i].RunSent? && t.agents[i].pc.Ready?
  {
    var u := s;
    CalmSelf(s);
    if s.pc.SettingUp? { u := FinishSetup(s); }
    t := u;
    if u.pc.Dispatching? { t := DispatchAll(u); }
    CalmJoin(s, u, t);
    forall i | 0 <= i < |s.calls|
      ensures if s.calls[i].RunSent? || s.calls[i].RunDone? then t.calls[i] == s.calls[i]
              else t.calls[i].RunSent? && t.agents[i].pc.Ready?
    {
      assert CallOk(s, i) && CallOk(u, i) && CallOk(t, i);
    }
  }

  // ----- when a Run call can return -----

  /** Nothing but a leaked or hung executor keeps a Run call from returning. */
  lemma ReturnOne(s: State, i: nat) returns (t: State)
    requires Inv(s) && i < |s.calls| && s.calls[i].RunSent? && NoneStuck(s.agents[i])
    ensures Reaches(Next, s, t) && Inv(t) && t.cfg == s.cfg && t.pc == s.pc
    ensures t.calls == s.calls[i := RunDone(true)] && |t.agents| == |s.agents|
    ensures t.agents == s.agents[i := t.agents[i]]
    ensures t.agents[i].strays == s.agents[i].strays && t.agents[i].relaunch == s.agents[i].relaunch
    ensures Listed(s.cfg) && Undrifted(s.agents[i], ALL_FIELDS) ==> Undrifted(t.agents[i], ALL_FIELDS)
  {
    assert CallOk(s, i) && AgentInv(s.cfg, i, s.agents[i]);
    var b := Drive(s.cfg, i, s.agents[i], Returned);
    Lift(s, i, b);
    var u := WithAgent(s, i, b);
    t := WithCall(u, i, RunDone(true)).(runWg := u.runWg - 1);
    assert Step(u, RunReturn(i), t);
    NextKeeps(u, t);
    ReachStep(Next, s, u, t);
  }

  ghost function RunReturned(i: nat): State -> bool {
    (s: State) => i < |s.calls| && s.calls[i] == RunDone(true)
  }

  /** Run call i failed, or waits for an executor that never comes back. */
  ghost predicate Doomed(s: State, i: nat) {
    i < |s.calls| == |s.agents| && (s.calls[i] == RunDone(false) || !NoneStuck(s.agents[i]))
  }

  lemma DoomedStep(s: State, t: State, i: nat)
    requires Inv(s) && Next(s, t) && Doomed(s, i)
    ensures Inv(t) && Doomed(t, i)
  {
    NextKeeps(s, t);
    var m :| Step(s, m, t);
    if m.AgentMoves? && m.i == i {
      StuckStays(s.cfg, i, s.agents[i], m.act, m.b);
    } else {
      assert t.agents[i] == s.agents[i];
      assert CallOk(s, i);
    }
  }

  lemma DoomedForGood(tr: seq<State>, k: nat, l: nat, i: nat)
    requires Job(tr) && k <= l < |tr| && Doomed(tr[k], i)
    ensures Inv(tr[l]) && Doomed(tr[l], i)
  {
    AlwaysInv(tr, k);
    var start := (s: State) => s == tr[k];
    var inv := (s: State) => Inv(s) && Doomed(s, i);
    forall s, t | inv(s) && Next(s, t) ensures inv(t) { DoomedStep(s, t, i); }
    assert Run(start, Next, tr[k..]);
    Always(start, Next, inv, tr[k..], l - k);
  }

  lemma DoomedNeverReturns(tr: seq<State>, k: nat, l: nat, i: nat)
    requires Job(tr) && k <= l < |tr| && Doomed(tr[k], i)
    ensures !RunReturned(i)(tr[l])
  {
    DoomedForGood(tr, k, l, i);
    assert CallOk(tr[l], i);
    if !NoneStuck(tr[l].agents[i]) {
      var j: nat :| j < |tr[l].agents[i].execs| && Stuck(tr[l].agents[i].execs[j].pc);
      OnePhaseAtATime(tr[l].cfg, i, tr[l].agents[i], j);
    }
  }

  /** Deadlock freedom: at every moment of every job, agent i's Run call can still return if and only
      if it has not failed and none of its executors is leaked or hung. */
  lemma RunCanReturnIff(tr: seq<State>, i: nat)
    requires Job(tr) && i < |Last(tr).calls| == |Last(tr).agents|
    ensures Possible(Init, Next, tr, RunReturned(i)) <==>
            Last(tr).calls[i] != RunDone(false) && NoneStuck(Last(tr).agents[i])
  {
    var s := Last(tr);
    AlwaysInv(tr, |tr| - 1);
    if Doomed(s, i) {
      forall more | Job(tr + more) ensures !RunReturned(i)(Last(tr + more)) {
        assert (tr + more)[|tr| - 1] == s;
        DoomedNeverReturns(tr + more, |tr| - 1, |tr + more| - 1, i);
      }
    } else if RunReturned(i)(s) {
      ReachSelf(Next, s);
      ReachedIsPossible(Init, Next, tr, s, RunReturned(i));
    } else {
      assert CallOk(s, i);
      var t := Start(s);
      assert CalmAgent(s.cfg, s.agents[i], t.agents[i]);
      var u := ReturnOne(t, i);
      ReachJoin(Next, s, t, u);
      ReachedIsPossible(Init, Next, tr, u, RunReturned(i));
    }
  }

  // ----- when the whole job can end -----

  /** All open Run calls return, one after the other, while no leftover of an earlier job moves. */
  lemma {:induction false} ReturnAll(s: State, i: nat) returns (t: State)
    requires Inv(s) && s.pc.Awaiting? && i <= |s.calls|
    requires forall j | 0 <= j < |s.calls| :: s.calls[j] == RunDone(true) || (i <= j && s.calls[j].RunSent? && NoneStuck(s.agents[j]))
    ensures Reaches(Next, s, t) && Inv(t) && t.cfg == s.cfg && t.pc.Awaiting? && |t.agents| == |s.agents|
    ensures forall j | 0 <= j < |t.calls| :: t.calls[j] == RunDone(true)
    ensures forall j | 0 <= j < |s.agents| :: t.agents[j].strays == s.agents[j].strays
    ensures Listed(s.cfg) ==> forall j | 0 <= j < |s.agents| :: Undrifted(s.agents[j], ALL_FIELDS) ==> Undrifted(t.agents[j], ALL_FIELDS)
    decreases |s.calls| - i
  {
    if i == |s.calls| {
      t := s;
      ReachSelf(Next, s);
    } else {
      var u := s;
      ReachSelf(Next, s);
      if s.calls[i].RunSent? { u := ReturnOne(s, i); }
      t := ReturnAll(u, i + 1);
      ReachJoin(Next, s, u, t);
    }
  }

  /** Every open Run call fails on the master's side, whatever the agents are doing. */
  lemma {:induction false} FailAll(s: State, i: nat) returns (t: State)
    requires Inv(s) && s.pc.Awaiting? && i <= |s.calls|
    requires forall j | 0 <= j < i :: s.calls[j].RunDone?
    ensures Reaches(Next, s, t) && Inv(t) && t.pc.Collecting? && t.agents == s.agents && t.cfg == s.cfg
    decreases |s.calls| - i
  {
    ReachSelf(Next, s);
    if i == |s.calls| {
      t := DrainNow(s);
      ReachStep(Next, s, s, t);
    } else {
      assert CallOk(s, i);
      var u := s;
      if s.calls[i].RunSent? {
        u := WithCall(s, i, RunDone(false)).(runWg := s.runWg - 1);
        assert Step(s, RunFail(i), u);
        NextKeeps(s, u);
        ReachStep(Next, s, s, u);
      }
      t := FailAll(u, i + 1);
      ReachJoin(Next, s, u, t);
    }
  }

  lemma DrainNow(s: State) returns (t: State)
    requires Inv(s) && s.pc.Awaiting? && forall j | 0 <= j < |s.calls| :: s.calls[j].RunDone?
    ensures Next(s, t) && Inv(t) && t == s.(pc := Collecting)
  {
    SumZero(s.calls, AwaitsRun);
    t := s.(pc := Collecting);
    assert Step(s, Move.Drain, t);
    NextKeeps(s, t);
  }

  /** The final collection has begun and no Run call failed. */
  ghost predicate EndedWell(s: State) {
    s.pc.Collecting? && forall i | 0 <= i < |s.calls| :: s.calls[i] == RunDone(true)
  }

  ghost predicate HasEnded(s: State) { s.pc.Collecting? }

  /** At every moment of every job, all Run calls can still return and the final collection begin, if and
      only if none of them has failed and no executor on any agent is leaked or hung. */
  lemma JobCanEndWellIff(tr: seq<State>)
    requires Job(tr)
    ensures Possible(Init, Next, tr, EndedWell) <==> forall i: nat | i < |Last(tr).calls| :: !Doomed(Last(tr), i)
  {
    var s := Last(tr);
    AlwaysInv(tr, |tr| - 1);
    if i: nat :| i < |s.calls| && Doomed(s, i) {
      forall more | Job(tr + more) ensures !EndedWell(Last(tr + more)) {
        assert (tr + more)[|tr| - 1] == s;
        DoomedNeverReturns(tr + more, |tr| - 1, |tr + more| - 1, i);
        DoomedForGood(tr + more, |tr| - 1, |tr + more| - 1, i);
      }
    } else if s.pc.Collecting? {
      forall i | 0 <= i < |s.calls| ensures s.calls[i] == RunDone(true) { assert CallOk(s, i) && !Doomed(s, i); }
      ReachSelf(Next, s);
      ReachedIsPossible(Init, Next, tr, s, EndedWell);
    } else {
      var t := EndWellFrom(s);
      ReachedIsPossible(Init, Next, tr, t, EndedWell);
    }
  }

  lemma EndWellFrom(s: State) returns (t: State)
    requires Inv(s) && !s.pc.Collecting? && forall i: nat | i < |s.calls| :: !Doomed(s, i)
    ensures Reaches(Next, s, t) && EndedWell(t)
  {
    var u := Start(s);
    forall j | 0 <= j < |u.calls| ensures u.calls[j] == RunDone(true) || (u.calls[j].RunSent? && NoneStuck(u.agents[j])) {
      assert !Doomed(s, j) && CallOk(s, j) && CalmAgent(s.cfg, s.agents[j], u.agents[j]);
    }
    var v := ReturnAll(u, 0);
    t := DrainNow(v);
    ReachJoin(Next, s, u, v);
    ReachStep(Next, s, v, t);
  }

  /** The master's Run can always come to its end, if need be because the open calls fail: this is what
      lets the service free its slot. */
  lemma JobCanAlwaysEnd(tr: seq<State>)
    requires Job(tr)
    ensures Possible(Init, Next, tr, HasEnded)
  {
    var s := Last(tr);
    AlwaysInv(tr, |tr| - 1);
    ReachSelf(Next, s);
    var t := s;
    if !s.pc.Collecting? {
      var u := Start(s);
      t := FailAll(u, 0);
      ReachJoin(Next, s, u, t);
    }
    ReachedIsPossible(Init, Next, tr, t, HasEnded);
  }

  /** One stuck executor is enough: the master reaches its final collection only if that agent's Run
      call fails. */
  lemma StuckBlocksTheJob(tr: seq<State>, k: nat, l: nat, i: nat)
    requires Job(tr) && k <= l < |tr| && i < |tr[k].calls| == |tr[k].agents| && !NoneStuck(tr[k].agents[i])
    ensures tr[l].pc.Collecting? ==> i < |tr[l].calls| && tr[l].calls[i] == RunDone(false)
  {
    DoomedNeverReturns(tr, k, l, i);
    DoomedForGood(tr, k, l, i);
    assert CallOk(tr[l], i);
  }

  ghost function StuckOn(i: nat): State -> bool {
    (s: State) => i < |s.agents| && !NoneStuck(s.agents[i])
  }

  /** From the start of any job, agent i can get stuck if and only if it has a share of some session. */
  lemma CanGetStuckIff(s0: State, i: nat)
    requires Init(s0) && i < |s0.agents|
    ensures Possible(Init, Next, [s0], StuckOn(i)) <==> HasShare(s0.cfg, i)
  {
    var cfg := s0.cfg;
    InitOk(s0);
    if p: nat, s: nat :| p < |cfg.totals| && s < |cfg.totals[p]| && CodeShare(cfg.totals[p][s], cfg.agents, i) >= 1 {
      var t := Start(s0);
      assert CalmAgent(cfg, s0.agents[i], t.agents[i]);
      var b := LeakIn(cfg, i, t.agents[i], p, s);
      Lift(t, i, b);
      ReachJoin(Next, s0, t, WithAgent(t, i, b));
      ReachedIsPossible(Init, Next, [s0], WithAgent(t, i, b), StuckOn(i));
    } else {
      forall more | Job([s0] + more) ensures !StuckOn(i)(Last([s0] + more)) {
        var tr := [s0] + more;
        AlwaysInv(tr, |more|);
        SameJob(tr, |more|);
        if StuckOn(i)(Last(tr)) { StuckHasShare(cfg, i, Last(tr).agents[i]); }
      }
    }
  }

  ghost predicate HasShare(cfg: Config, i: nat)
    requires ValidConfig(cfg)
  {
    exists p, s | 0 <= p < |cfg.totals| && 0 <= s < |cfg.totals[p]| :: CodeShare(cfg.totals[p][s], cfg.agents, i) >= 1
  }

  lemma StuckHasShare(cfg: Config, i: nat, a: Agent)
    requires AgentInv(cfg, i, a) && !NoneStuck(a)
    ensures HasShare(cfg, i)
  {
    var j: nat :| j < |a.execs| && Stuck(a.execs[j].pc);
    UnfinishedIsCounted(cfg, i, a, j);
    var e := a.execs[j];
    assert HasLane(a, e.p, e.s) && LaneOk(cfg, i, a, e.p, e.s);
    CapIsShare(cfg, i, e.p, e.s);
    assert CodeShare(cfg.totals[e.p][e.s], cfg.agents, i) >= 1;
  }

  // ----- the bound on sessions in flight is attained -----

  ghost predicate FullFrom(s: State, p: nat, x: nat, i: nat)
    requires Inv(s) && p < |s.cfg.totals| && x < |s.cfg.http|
  {
    && i <= |s.agents|
    && (forall j | 0 <= j < i :: LiveOf(p, x)(s.agents[j]) == CodeShare(s.cfg.totals[p][x], s.cfg.agents, j))
    && (forall j | i <= j < |s.agents| :: s.calls[j].RunSent? && s.agents[j].pc.Ready? && NoneStuck(s.agents[j]))
  }

  lemma {:induction false} FillAgents(s: State, p: nat, x: nat, i: nat) returns (t: State)
    requires Inv(s) && p < |s.cfg.totals| && x < |s.cfg.http| && FullFrom(s, p, x, i)
    ensures Reaches(Next, s, t) && Inv(t) && t.cfg == s.cfg && FullFrom(t, p, x, |t.agents|)
    decreases |s.agents| - i
  {
    if i == |s.agents| {
      t := s;
      ReachSelf(Next, s);
    } else {
      assert AgentInv(s.cfg, i, s.agents[i]);
      var b := FillShare(s.cfg, i, s.agents[i], p, x);
      Lift(s, i, b);
      var u := WithAgent(s, i, b);
      t := FillAgents(u, p, x, i + 1);
      ReachJoin(Next, s, u, t);
    }
  }

  /** All configured users of a session and phase in flight at once, on every agent its share. */
  ghost function AllInFlight(p: nat, x: nat): State -> bool {
    (s: State) =>
      && p < |s.cfg.totals| && x < |s.cfg.totals[p]| && ValidConfig(s.cfg)
      && SumOf(s.agents, LiveOf(p, x)) == s.cfg.totals[p][x]
      && forall j | 0 <= j < |s.agents| ::
           LiveOf(p, x)(s.agents[j]) == CodeShare(s.cfg.totals[p][x], s.cfg.agents, j)
  }

  /** The bound on the sessions in flight is attained: from the start of any job, whatever earlier jobs
      left behind, a run leads to all configured users of any session and phase in flight at once, with
      exactly what getSessionUsers hands out on every agent. */
  lemma InFlightReachesTotal(s0: State, p: nat, x: nat)
    requires Init(s0) && p < |s0.cfg.totals| && x < |s0.cfg.http|
    ensures Possible(Init, Next, [s0], AllInFlight(p, x))
  {
    InitOk(s0);
    var u := Start(s0);
    forall j | 0 <= j < |u.agents| ensures u.calls[j].RunSent? && u.agents[j].pc.Ready? && NoneStuck(u.agents[j]) {
      assert CalmAgent(s0.cfg, s0.agents[j], u.agents[j]) && CallOk(s0, j) && AgentInit(s0.agents[j]);
    }
    var t := FillAgents(u, p, x, 0);
    ReachJoin(Next, s0, u, t);
    var shares := CodeShares(t.cfg.totals[p][x], t.cfg.agents);
    SumEqual(t.agents, LiveOf(p, x), shares, Id());
    CodeSharesSum(t.cfg.totals[p][x], t.cfg.agents);
    ReachedIsPossible(Init, Next, [s0], t, AllInFlight(p, x));
  }
}
