/** What an agent can still do: launchers, the channel semaphore and both WaitGroups never deadlock.
    From every state of the agent in which no executor is leaked or hung, its Run call can return. */
module AgentProgress {
  import opened Sums
  import opened Runs
  import opened Splitter
  import opened AgentProcess

  /** Steps of the Run call and the goroutines it starts. */
  predicate Own(act: Action) { !act.Reset? && !IsStray(act) }

  ghost predicate OwnStep(cfg: Config, idx: nat, a: Agent, b: Agent) {
    ValidConfig(cfg) && exists act | Own(act) :: AgentStep(cfg, idx, a, act, b)
  }

  ghost function OwnNext(cfg: Config, idx: nat): (Agent, Agent) -> bool {
    (a: Agent, b: Agent) => OwnStep(cfg, idx, a, b)
  }

  ghost predicate NoneStuck(a: Agent) { forall j | 0 <= j < |a.execs| :: !Stuck(a.execs[j].pc) }

  // ----- the work that is left -----

  function ExecRank(e: Exec): (r: int)
    ensures r >= 0
  {
    match e.pc
    case Spawned => 8
    case Entered => 7
    case Requesting => 6
    case GotError => 5
    case GotResponse => 5
    case Measured => 4
    case Failing => 4
    case Completing => 3
    case Busy => 3
    case Back => 2
    case Freed => 1
    case _ => 0
  }

  function LaneRank(l: Lane): (r: int)
    ensures r >= 0
  {
    match l.pc
    case Sent => 6
    case Added => 5
    case Selecting => if l.fired then 3 else 4
    case Draining => 2
    case Drained => 1
    case Done => 0
  }

  /** Stages of Run still ahead. */
  function StagesLeft(cfg: Config, pc: AgentPc): nat {
    var n := |cfg.totals|;
    match pc
    case Resetting(_) => 2 * n + 3
    case Ready => 2 * n + 2
    case AtPhase(p) => if p <= n then 2 * (n - p) + 1 else 0
    case Launching(p) => if p <= n then 2 * (n - p) else 0
    case Returned => 0
  }

  function LanesLeft(cfg: Config, a: Agent): nat {
    if a.pc.Launching? && a.pc.p < |a.phases| && |a.phases[a.pc.p].lanes| <= |cfg.http|
    then |cfg.http| - |a.phases[a.pc.p].lanes| else 0
  }

  function LaneWork(a: Agent): nat {
    if a.pc.Launching? && a.pc.p < |a.phases|
    then SumNonNegative(a.phases[a.pc.p].lanes, LaneRank); SumOf(a.phases[a.pc.p].lanes, LaneRank) else 0
  }

  function ExecWork(a: Agent): nat { SumNonNegative(a.execs, ExecRank); SumOf(a.execs, ExecRank) }

  /** b has less work left than a: in stages, then in launchers to start, then in what the launchers
      and finally the executors have to do. */
  ghost predicate Closer(cfg: Config, b: Agent, a: Agent) {
    || StagesLeft(cfg, b.pc) == StagesLeft(cfg, a.pc) - 1
    || (b.pc == a.pc && LanesLeft(cfg, b) < LanesLeft(cfg, a))
    || (b.pc == a.pc && LanesLeft(cfg, b) == LanesLeft(cfg, a) && LaneWork(b) < LaneWork(a))
    || (b.pc == a.pc && LanesLeft(cfg, b) == LanesLeft(cfg, a) && LaneWork(b) == LaneWork(a) && ExecWork(b) < ExecWork(a))
  }

  // ----- there is always a step that leaves less work -----

  /** An http:get request that succeeds within the second; any other session that returns. */
  function NextExec(http: bool, e: Exec): (r: (Exec, nat, int))
    requires e.pc.Completing? ==> e.out.Timed?
  {
    match e.pc
    case Spawned => (e.(pc := if http then Entered else Busy), 0, 0)
    case Busy => (e.(pc := Back), 0, 0)
    case Entered => (e.(pc := Requesting), INITIATED, 1)
    case Requesting => (e.(pc := GotResponse), 0, 0)
    case GotError => (e.(pc := Failing), INITIATED, -1)
    case Failing => (e.(pc := Back, out := Errored), ERROR, 1)
    case GotResponse => (e.(pc := Measured, out := Timed(0)), Bucket(0), 1)
    case Measured => (e.(pc := Completing), INITIATED, -1)
    case Completing => (e.(pc := Back, out := Completed(e.out.duration)), COMPLETED, 1)
    case _ => (e, 0, 0)
  }

  lemma NextExecMoves(http: bool, e: Exec)
    requires OutcomeOk(http, e) && !Stuck(e.pc) && !e.pc.Back? && !e.pc.Freed? && !e.pc.Finished?
    ensures var r := NextExec(http, e);
            && ExecMove(http, e, r.0, r.1, r.2) && r.1 < FIELDS
            && !Stuck(r.0.pc) && ExecRank(r.0) < ExecRank(e)
  {
    if e.pc.GotResponse? { assert Bucket(0) == NextExec(http, e).1; }
  }

  /** Executor i gets closer to its end, and its launcher at most counts differently. */
  lemma LessExecWork(cfg: Config, a: Agent, i: nat, b: Agent, l: Lane, f: Exec)
    requires NoneStuck(a) && i < |a.execs| && HasLane(a, a.execs[i].p, a.execs[i].s)
    requires var e := a.execs[i];
             && LaneRank(l) == LaneRank(a.phases[e.p].lanes[e.s])
             && b == WithLane(a, e.p, e.s, l).(execs := a.execs[i := f], c := b.c)
    requires ExecRank(f) < ExecRank(a.execs[i]) && !Stuck(f.pc)
    ensures NoneStuck(b) && Closer(cfg, b, a)
  {
    SumUpdate(a.execs, i, f);
    SumUpdate(a.phases[a.execs[i].p].lanes, a.execs[i].s, l);
  }

  lemma Release(cfg: Config, idx: nat, a: Agent, i: nat) returns (b: Agent)
    requires ValidConfig(cfg) && |a.c| == |a.base| == FIELDS && NoneStuck(a) && i < |a.execs|
    requires var e := a.execs[i];
             HasLane(a, e.p, e.s) && (e.pc.Freed? || (e.pc.Back? && a.phases[e.p].lanes[e.s].occ > 0))
    ensures OwnStep(cfg, idx, a, b) && NoneStuck(b) && Closer(cfg, b, a)
  {
    var e := a.execs[i];
    var l := a.phases[e.p].lanes[e.s];
    var m := if e.pc.Back? then l.(occ := l.occ - 1) else l.(wg := l.wg - 1);
    var f := e.(pc := if e.pc.Back? then Freed else Finished);
    b := WithLane(a, e.p, e.s, m).(execs := a.execs[i := f]);
    LessExecWork(cfg, a, i, b, m, f);
    var act := if e.pc.Back? then Free(i) else Finish(i);
    assert Own(act) && AgentStep(cfg, idx, a, act, b);
  }

  lemma Execute(cfg: Config, idx: nat, a: Agent, i: nat) returns (b: Agent)
    requires ValidConfig(cfg) && |a.c| == |a.base| == FIELDS && NoneStuck(a) && i < |a.execs|
    requires ExecOk(cfg, a.execs[i]) && HasLane(a, a.execs[i].p, a.execs[i].s)
    requires !a.execs[i].pc.Back? && !a.execs[i].pc.Freed? && !a.execs[i].pc.Finished?
    ensures OwnStep(cfg, idx, a, b) && NoneStuck(b) && Closer(cfg, b, a)
  {
    var e := a.execs[i];
    NextExecMoves(cfg.http[e.s], e);
    var r := NextExec(cfg.http[e.s], e);
    b := a.(execs := a.execs[i := r.0], c := a.c[r.1 := a.c[r.1] + r.2]);
    var l := a.phases[e.p].lanes[e.s];
    assert a.phases[e.p].lanes[e.s := l] == a.phases[e.p].lanes;
    LessExecWork(cfg, a, i, b, l, r.0);
    assert AgentStep(cfg, idx, a, OnExec(i, r.0, r.1, r.2), b);
  }

  lemma AdvanceExec(cfg: Config, idx: nat, a: Agent, i: nat) returns (b: Agent)
    requires AgentInv(cfg, idx, a) && NoneStuck(a) && i < |a.execs| && !a.execs[i].pc.Finished?
    ensures OwnStep(cfg, idx, a, b) && NoneStuck(b) && Closer(cfg, b, a)
  {
    var e := a.execs[i];
    assert ExecOk(cfg, e) && HasLane(a, e.p, e.s);
    UnfinishedIsCounted(cfg, idx, a, i);
    if e.pc.Back? || e.pc.Freed? {
      b := Release(cfg, idx, a, i);
    } else {
      b := Execute(cfg, idx, a, i);
    }
  }

  ghost predicate AllFinished(a: Agent) { forall j | 0 <= j < |a.execs| :: a.execs[j].pc.Finished? }

  /** The next operation of a launcher that is told to stop. */
  function NextOp(l: Lane): LaneOp {
    match l.pc
    case Selecting => if l.fired then Expire else Fire
    case Sent => WgAdd
    case Added => Go
    case Draining => LaneOp.Drain
    case _ => SwgDone
  }

  function NextLane(l: Lane): Lane {
    match l.pc
    case Selecting => if l.fired then l.(pc := Draining) else l.(fired := true)
    case Sent => l.(pc := Added, wg := l.wg + 1)
    case Added => l.(pc := Selecting)
    case Draining => l.(pc := Drained)
    case _ => l.(pc := Done)
  }

  /** With every executor finished a launcher that is not done can make its next move. */
  lemma LaneCanMove(cfg: Config, idx: nat, a: Agent, p: nat, s: nat)
    requires AgentInv(cfg, idx, a) && AllFinished(a) && HasLane(a, p, s) && !a.phases[p].lanes[s].pc.Done?
    ensures var l := a.phases[p].lanes[s];
            LaneMove(l, NextOp(l), NextLane(l)) && LaneRank(NextLane(l)) < LaneRank(l)
  {
    assert LaneOk(cfg, idx, a, p, s);
    SumZero(a.execs, Counted(p, s));
  }

  lemma LessLaneWork(cfg: Config, a: Agent, s: nat, m: Lane, b: Agent)
    requires a.pc.Launching? && HasLane(a, a.pc.p, s) && LaneRank(m) < LaneRank(a.phases[a.pc.p].lanes[s])
    requires b.pc == a.pc && HasLane(b, a.pc.p, s)
    requires b.phases[a.pc.p].lanes == a.phases[a.pc.p].lanes[s := m]
    ensures Closer(cfg, b, a)
  {
    SumUpdate(a.phases[a.pc.p].lanes, s, m);
  }

  lemma AdvanceLane(cfg: Config, idx: nat, a: Agent, s: nat) returns (b: Agent)
    requires AgentInv(cfg, idx, a) && AllFinished(a) && a.pc.Launching?
    requires HasLane(a, a.pc.p, s) && !a.phases[a.pc.p].lanes[s].pc.Done?
    ensures OwnStep(cfg, idx, a, b) && NoneStuck(b) && Closer(cfg, b, a)
  {
    var p := a.pc.p;
    var l := a.phases[p].lanes[s];
    var op, m := NextOp(l), NextLane(l);
    LaneCanMove(cfg, idx, a, p, s);
    var c := WithLane(a, p, s, m);
    b := match op
         case Go => c.(execs := a.execs + [Exec(p, s, Spawned, Pending)])
         case SwgDone => c.(phases := c.phases[p := c.phases[p].(swg := c.phases[p].swg - 1)])
         case _ => c;
    LessLaneWork(cfg, a, s, m, b);
    assert LaneStep(a, p, s, op, b);
    assert AgentStep(cfg, idx, a, OnLane(p, s, op), b);
  }

  lemma AdvanceControl(cfg: Config, idx: nat, a: Agent) returns (b: Agent)
    requires AgentInv(cfg, idx, a) && AllFinished(a) && !a.pc.Resetting? && !a.pc.Returned?
    requires a.pc.Launching? ==>
               var lanes := a.phases[a.pc.p].lanes;
               |lanes| < |cfg.http| || forall s | 0 <= s < |lanes| :: lanes[s].pc.Done?
    ensures OwnStep(cfg, idx, a, b) && NoneStuck(b) && Closer(cfg, b, a)
  {
    match a.pc
    case Ready =>
      b := a.(pc := AtPhase(0));
      assert ControlStep(cfg, idx, a, Begin, b);
      assert AgentStep(cfg, idx, a, Begin, b);
    case AtPhase(p) =>
      b := if p < |cfg.totals| then a.(pc := Launching(p), phases := a.phases + [Phase([], |cfg.http|)])
      else a.(pc := Returned);
      assert ControlStep(cfg, idx, a, NextPhase, b);
      assert AgentStep(cfg, idx, a, NextPhase, b);
    case Launching(p) =>
      if |a.phases[p].lanes| < |cfg.http| {
        b := LaunchNext(cfg, idx, a);
      } else {
        b := a.(pc := AtPhase(p + 1));
        AllDoneSum(a.phases[p].lanes);
        assert ControlStep(cfg, idx, a, PhaseDone, b);
        assert AgentStep(cfg, idx, a, PhaseDone, b);
      }
  }

  lemma LaunchNext(cfg: Config, idx: nat, a: Agent) returns (b: Agent)
    requires ValidConfig(cfg) && |a.c| == |a.base| == FIELDS
    requires a.pc.Launching? && a.pc.p < |cfg.totals| && a.pc.p < |a.phases| && NoneStuck(a)
    requires |a.phases[a.pc.p].lanes| < |cfg.http|
    ensures OwnStep(cfg, idx, a, b) && NoneStuck(b) && Closer(cfg, b, a)
    ensures b == a.(phases := b.phases) && |b.phases| == |a.phases|
    ensures |b.phases[a.pc.p].lanes| == |a.phases[a.pc.p].lanes| + 1
    ensures b.phases[a.pc.p].lanes[|a.phases[a.pc.p].lanes|].pc.Selecting?
  {
    var p := a.pc.p;
    var ph := a.phases[p];
    var lane := Lane(Selecting, 0, 0, Cap(cfg, idx, p, |ph.lanes|), false);
    b := a.(phases := a.phases[p := ph.(lanes := ph.lanes + [lane])]);
    assert ControlStep(cfg, idx, a, Launch, b);
    assert AgentStep(cfg, idx, a, Launch, b);
  }

  lemma {:induction false} AllDoneSum(lanes: seq<Lane>)
    requires forall s | 0 <= s < |lanes| :: lanes[s].pc.Done?
    ensures SumOf(lanes, IsDone) == |lanes|
  {
    if lanes != [] { AllDoneSum(lanes[..|lanes| - 1]); }
  }

  lemma Advance(cfg: Config, idx: nat, a: Agent) returns (b: Agent)
    requires AgentInv(cfg, idx, a) && NoneStuck(a) && !a.pc.Resetting? && !a.pc.Returned?
    ensures OwnStep(cfg, idx, a, b) && NoneStuck(b) && Closer(cfg, b, a) && AgentInv(cfg, idx, b) && !b.pc.Resetting?
  {
    if i :| 0 <= i < |a.execs| && !a.execs[i].pc.Finished? {
      b := AdvanceExec(cfg, idx, a, i);
    } else if a.pc.Launching? && |a.phases[a.pc.p].lanes| == |cfg.http|
           && exists s | 0 <= s < |a.phases[a.pc.p].lanes| :: !a.phases[a.pc.p].lanes[s].pc.Done? {
      var s: nat :| s < |a.phases[a.pc.p].lanes| && !a.phases[a.pc.p].lanes[s].pc.Done?;
      b := AdvanceLane(cfg, idx, a, s);
    } else {
      b := AdvanceControl(cfg, idx, a);
    }
    var act :| Own(act) && AgentStep(cfg, idx, a, act, b);
    AgentKeeps(cfg, idx, a, act, b);
    BucketsOnlyGrow(cfg, idx, a, act, b);
  }

  lemma StageIsUnique(cfg: Config, idx: nat, a: Agent, stop: AgentPc)
    requires PhasesOk(cfg, a) && !a.pc.Resetting?
    requires stop.Returned? || (stop.AtPhase? && stop.p <= |cfg.totals|)
    ensures StagesLeft(cfg, a.pc) == StagesLeft(cfg, stop) ==> a.pc == stop
  {
  }

  /** Run can be driven through to any later stage. */
  lemma {:induction false} Drive(cfg: Config, idx: nat, a: Agent, stop: AgentPc) returns (b: Agent)
    requires AgentInv(cfg, idx, a) && NoneStuck(a) && !a.pc.Resetting?
    requires stop.Returned? || (stop.AtPhase? && stop.p <= |cfg.totals|)
    requires StagesLeft(cfg, stop) <= StagesLeft(cfg, a.pc)
    ensures Reaches(OwnNext(cfg, idx), a, b) && b.pc == stop && AgentInv(cfg, idx, b) && NoneStuck(b)
    decreases StagesLeft(cfg, a.pc), LanesLeft(cfg, a), LaneWork(a), ExecWork(a)
  {
    if a.pc == stop {
      b := a;
      ReachSelf(OwnNext(cfg, idx), a);
    } else {
      StageIsUnique(cfg, idx, a, stop);
      var next := Advance(cfg, idx, a);
      b := Drive(cfg, idx, next, stop);
      ReachFirst(OwnNext(cfg, idx), a, next, b);
    }
  }

  // ----- what such a path leaves alone -----

  lemma {:induction false} OwnPathKeeps(cfg: Config, idx: nat, path: seq<Agent>, k: nat)
    requires Path(OwnNext(cfg, idx), path) && k < |path| && AgentInv(cfg, idx, path[0])
    ensures AgentInv(cfg, idx, path[k])
    ensures path[k].strays == path[0].strays && path[k].relaunch == path[0].relaunch
    ensures Listed(cfg) && Undrifted(path[0], ALL_FIELDS) ==> Undrifted(path[k], ALL_FIELDS)
  {
    if k > 0 {
      OwnPathKeeps(cfg, idx, path, k - 1);
      assert OwnNext(cfg, idx)(path[k - 1], path[k]);
      var act :| Own(act) && AgentStep(cfg, idx, path[k - 1], act, path[k]);
      AgentKeeps(cfg, idx, path[k - 1], act, path[k]);
      OwnStepsUndrifted(cfg, idx, path[k - 1], act, path[k], ALL_FIELDS);
    }
  }

  // ----- an executor for any session with a share -----

  lemma {:induction false} LaunchUpTo(cfg: Config, idx: nat, a: Agent, s: nat) returns (b: Agent)
    requires AgentInv(cfg, idx, a) && NoneStuck(a) && a.pc.Launching? && a.pc.p < |cfg.totals|
    requires |a.phases[a.pc.p].lanes| <= s < |cfg.http|
    ensures Reaches(OwnNext(cfg, idx), a, b) && AgentInv(cfg, idx, b) && b.execs == a.execs && b.pc == a.pc
    ensures HasLane(b, a.pc.p, s) && b.phases[a.pc.p].lanes[s].pc.Selecting?
    decreases s - |a.phases[a.pc.p].lanes|
  {
    var next := LaunchNext(cfg, idx, a);
    var act :| Own(act) && AgentStep(cfg, idx, a, act, next);
    AgentKeeps(cfg, idx, a, act, next);
    if |a.phases[a.pc.p].lanes| == s {
      b := next;
      ReachSelf(OwnNext(cfg, idx), b);
    } else {
      b := LaunchUpTo(cfg, idx, next, s);
    }
    ReachFirst(OwnNext(cfg, idx), a, next, b);
  }

  lemma Operate(cfg: Config, idx: nat, a: Agent, p: nat, s: nat, op: LaneOp, m: Lane) returns (b: Agent)
    requires AgentInv(cfg, idx, a) && HasLane(a, p, s) && LaneMove(a.phases[p].lanes[s], op, m) && !op.SwgDone?
    ensures OwnNext(cfg, idx)(a, b) && AgentInv(cfg, idx, b)
    ensures HasLane(b, p, s) && b.phases[p].lanes[s] == m && b.pc == a.pc
    ensures b.execs == if op.Go? then a.execs + [Exec(p, s, Spawned, Pending)] else a.execs
  {
    var c := WithLane(a, p, s, m);
    b := if op.Go? then c.(execs := a.execs + [Exec(p, s, Spawned, Pending)]) else c;
    assert LaneStep(a, p, s, op, b);
    assert AgentStep(cfg, idx, a, OnLane(p, s, op), b);
    AgentKeeps(cfg, idx, a, OnLane(p, s, op), b);
  }

  /** A launcher with room spawns an executor. */
  lemma SpawnFrom(cfg: Config, idx: nat, a: Agent, p: nat, s: nat) returns (b: Agent)
    requires AgentInv(cfg, idx, a) && HasLane(a, p, s)
    requires a.phases[p].lanes[s].pc.Selecting? && a.phases[p].lanes[s].occ < a.phases[p].lanes[s].cap
    ensures Reaches(OwnNext(cfg, idx), a, b) && AgentInv(cfg, idx, b)
    ensures b.execs == a.execs + [Exec(p, s, Spawned, Pending)] && b.pc == a.pc && HasLane(b, p, s)
    ensures var l := a.phases[p].lanes[s];
            b.phases[p].lanes[s] == l.(occ := l.occ + 1, wg := l.wg + 1)
  {
    var u := Occupy(cfg, idx, a, p, s);
    b := LaunchOne(cfg, idx, u, p, s);
    ReachJoin(OwnNext(cfg, idx), a, u, b);
  }

  /** The launcher takes a slot of the channel and tells its WaitGroup. */
  lemma Occupy(cfg: Config, idx: nat, a: Agent, p: nat, s: nat) returns (b: Agent)
    requires AgentInv(cfg, idx, a) && HasLane(a, p, s)
    requires a.phases[p].lanes[s].pc.Selecting? && a.phases[p].lanes[s].occ < a.phases[p].lanes[s].cap
    ensures Reaches(OwnNext(cfg, idx), a, b) && AgentInv(cfg, idx, b)
    ensures HasLane(b, p, s) && b.pc == a.pc && b.execs == a.execs
    ensures var l := a.phases[p].lanes[s];
            b.phases[p].lanes[s] == l.(pc := Added, occ := l.occ + 1, wg := l.wg + 1)
  {
    var l := a.phases[p].lanes[s];
    var l1 := l.(pc := Sent, occ := l.occ + 1);
    var a1 := Operate(cfg, idx, a, p, s, Send, l1);
    b := Operate(cfg, idx, a1, p, s, WgAdd, l1.(pc := Added, wg := l.wg + 1));
    ReachSelf(OwnNext(cfg, idx), a);
    ReachStep(OwnNext(cfg, idx), a, a, a1);
    ReachStep(OwnNext(cfg, idx), a, a1, b);
  }

  /** And starts the executor. */
  lemma LaunchOne(cfg: Config, idx: nat, a: Agent, p: nat, s: nat) returns (b: Agent)
    requires AgentInv(cfg, idx, a) && HasLane(a, p, s) && a.phases[p].lanes[s].pc.Added?
    ensures Reaches(OwnNext(cfg, idx), a, b) && AgentInv(cfg, idx, b)
    ensures HasLane(b, p, s) && b.pc == a.pc && b.execs == a.execs + [Exec(p, s, Spawned, Pending)]
    ensures b.phases[p].lanes[s] == a.phases[p].lanes[s].(pc := Selecting)
  {
    b := Operate(cfg, idx, a, p, s, Go, a.phases[p].lanes[s].(pc := Selecting));
    ReachSelf(OwnNext(cfg, idx), a);
    ReachStep(OwnNext(cfg, idx), a, a, b);
  }

  lemma EnterPhase(cfg: Config, idx: nat, a: Agent) returns (b: Agent)
    requires AgentInv(cfg, idx, a) && a.pc.AtPhase? && a.pc.p < |cfg.totals|
    ensures OwnNext(cfg, idx)(a, b) && AgentInv(cfg, idx, b) && AllFinished(b)
    ensures b.pc == Launching(a.pc.p) && b.phases[a.pc.p].lanes == []
  {
    forall j | 0 <= j < |a.execs| ensures a.execs[j].pc.Finished? {
      if !a.execs[j].pc.Finished? { OnePhaseAtATime(cfg, idx, a, j); }
    }
    b := a.(pc := Launching(a.pc.p), phases := a.phases + [Phase([], |cfg.http|)]);
    assert ControlStep(cfg, idx, a, NextPhase, b);
    assert AgentStep(cfg, idx, a, NextPhase, b);
    AgentKeeps(cfg, idx, a, NextPhase, b);
  }

  /** An agent before phase p can come to execute any session in which it has a share. */
  lemma SpawnIn(cfg: Config, idx: nat, a: Agent, p: nat, s: nat) returns (b: Agent)
    requires AgentInv(cfg, idx, a) && NoneStuck(a) && !a.pc.Resetting?
    requires p < |cfg.totals| && s < |cfg.http| && StagesLeft(cfg, AtPhase(p)) <= StagesLeft(cfg, a.pc)
    requires CodeShare(cfg.totals[p][s], cfg.agents, idx) >= 1
    ensures Reaches(OwnNext(cfg, idx), a, b) && AgentInv(cfg, idx, b)
    ensures exists execs :: b.execs == execs + [Exec(p, s, Spawned, Pending)]
  {
    var next := OwnNext(cfg, idx);
    var a1 := Drive(cfg, idx, a, AtPhase(p));
    var a2 := EnterPhase(cfg, idx, a1);
    ReachStep(next, a, a1, a2);
    var a3 := LaunchUpTo(cfg, idx, a2, s);
    ReachJoin(next, a, a2, a3);
    assert LaneOk(cfg, idx, a3, p, s);
    CapIsShare(cfg, idx, p, s);
    SumZero(a3.execs, Holding(p, s));
    b := SpawnFrom(cfg, idx, a3, p, s);
    ReachJoin(next, a, a3, b);
  }

  lemma MoveLast(cfg: Config, idx: nat, a: Agent, e: Exec, field: nat, delta: int) returns (b: Agent)
    requires AgentInv(cfg, idx, a) && a.execs != [] && field < FIELDS
    requires var last := a.execs[|a.execs| - 1];
             last.s < |cfg.http| ==> ExecMove(cfg.http[last.s], last, e, field, delta)
    ensures OwnNext(cfg, idx)(a, b) && AgentInv(cfg, idx, b)
    ensures b == a.(execs := a.execs[|a.execs| - 1 := e], c := b.c)
  {
    var i := |a.execs| - 1;
    assert ExecOk(cfg, a.execs[i]);
    b := a.(execs := a.execs[i := e], c := a.c[field := a.c[field] + delta]);
    assert AgentStep(cfg, idx, a, OnExec(i, e, field, delta), b);
    AgentKeeps(cfg, idx, a, OnExec(i, e, field, delta), b);
  }

  /** A launcher with room for k more can have k more sessions in flight. */
  lemma {:induction false} Fill(cfg: Config, idx: nat, a: Agent, p: nat, s: nat, k: nat) returns (b: Agent)
    requires AgentInv(cfg, idx, a) && HasLane(a, p, s) && s < |cfg.http|
    requires a.phases[p].lanes[s].pc.Selecting? && a.phases[p].lanes[s].occ + k <= a.phases[p].lanes[s].cap
    ensures Reaches(OwnNext(cfg, idx), a, b) && AgentInv(cfg, idx, b)
    ensures SumOf(b.execs, Live(p, s)) == SumOf(a.execs, Live(p, s)) + k
    decreases k
  {
    if k == 0 {
      b := a;
      ReachSelf(OwnNext(cfg, idx), a);
    } else {
      var u := FillOne(cfg, idx, a, p, s);
      b := Fill(cfg, idx, u, p, s, k - 1);
      ReachJoin(OwnNext(cfg, idx), a, u, b);
    }
  }

  lemma FillOne(cfg: Config, idx: nat, a: Agent, p: nat, s: nat) returns (b: Agent)
    requires AgentInv(cfg, idx, a) && HasLane(a, p, s) && s < |cfg.http|
    requires a.phases[p].lanes[s].pc.Selecting? && a.phases[p].lanes[s].occ < a.phases[p].lanes[s].cap
    ensures Reaches(OwnNext(cfg, idx), a, b) && AgentInv(cfg, idx, b) && HasLane(b, p, s)
    ensures var l := a.phases[p].lanes[s];
            b.phases[p].lanes[s] == l.(occ := l.occ + 1, wg := l.wg + 1)
    ensures SumOf(b.execs, Live(p, s)) == SumOf(a.execs, Live(p, s)) + 1
  {
    var u := SpawnFrom(cfg, idx, a, p, s);
    var e := Exec(p, s, if cfg.http[s] then Entered else Busy, Pending);
    b := MoveLast(cfg, idx, u, e, 0, 0);
    ReachStep(OwnNext(cfg, idx), a, u, b);
    assert b.execs == a.execs + [e];
    SumAppend(a.execs, e);
  }

  /** An agent before phase p can come to have its whole share of a session in flight at once. */
  lemma FillShare(cfg: Config, idx: nat, a: Agent, p: nat, s: nat) returns (b: Agent)
    requires AgentInv(cfg, idx, a) && NoneStuck(a) && !a.pc.Resetting?
    requires p < |cfg.totals| && s < |cfg.http| && StagesLeft(cfg, AtPhase(p)) <= StagesLeft(cfg, a.pc)
    ensures Reaches(OwnNext(cfg, idx), a, b)
    ensures SumOf(b.execs, Live(p, s)) == CodeShare(cfg.totals[p][s], cfg.agents, idx)
  {
    var next := OwnNext(cfg, idx);
    var a1 := Drive(cfg, idx, a, AtPhase(p));
    var a2 := EnterPhase(cfg, idx, a1);
    ReachStep(next, a, a1, a2);
    var a3 := LaunchUpTo(cfg, idx, a2, s);
    ReachJoin(next, a, a2, a3);
    assert LaneOk(cfg, idx, a3, p, s);
    CapIsShare(cfg, idx, p, s);
    SumZero(a3.execs, Holding(p, s));
    SumZero(a3.execs, Live(p, s));
    b := Fill(cfg, idx, a3, p, s, Cap(cfg, idx, p, s));
    ReachJoin(next, a, a3, b);
  }

  /** Such an executor can fail to get a user id. */
  lemma LeakIn(cfg: Config, idx: nat, a: Agent, p: nat, s: nat) returns (b: Agent)
    requires AgentInv(cfg, idx, a) && NoneStuck(a) && !a.pc.Resetting?
    requires p < |cfg.totals| && s < |cfg.http| && StagesLeft(cfg, AtPhase(p)) <= StagesLeft(cfg, a.pc)
    requires CodeShare(cfg.totals[p][s], cfg.agents, idx) >= 1
    ensures Reaches(OwnNext(cfg, idx), a, b) && !NoneStuck(b)
  {
    var a1 := SpawnIn(cfg, idx, a, p, s);
    b := MoveLast(cfg, idx, a1, Exec(p, s, Leaked, Pending), 0, 0);
    ReachStep(OwnNext(cfg, idx), a, a1, b);
    assert Stuck(b.execs[|b.execs| - 1].pc);
  }

  lemma OneRequests(execs: seq<Exec>)
    requires execs != [] && execs[|execs| - 1].pc.Requesting?
    ensures SumOf(execs, Contribution(INITIATED)) > 0
  {
    SumAtLeast(execs, Contribution(INITIATED), |execs| - 1);
  }

  /** Or, for http:get, be in the middle of a request. */
  lemma RequestIn(cfg: Config, idx: nat, a: Agent, p: nat, s: nat) returns (b: Agent)
    requires AgentInv(cfg, idx, a) && NoneStuck(a) && !a.pc.Resetting?
    requires p < |cfg.totals| && s < |cfg.http| && StagesLeft(cfg, AtPhase(p)) <= StagesLeft(cfg, a.pc)
    requires CodeShare(cfg.totals[p][s], cfg.agents, idx) >= 1 && cfg.http[s]
    ensures Reaches(OwnNext(cfg, idx), a, b) && AgentInv(cfg, idx, b)
    ensures SumOf(b.execs, Contribution(INITIATED)) > 0
  {
    var a1 := SpawnIn(cfg, idx, a, p, s);
    var a2 := MoveLast(cfg, idx, a1, Exec(p, s, Entered, Pending), 0, 0);
    ReachStep(OwnNext(cfg, idx), a, a1, a2);
    b := MoveLast(cfg, idx, a2, Exec(p, s, Requesting, Pending), INITIATED, 1);
    ReachStep(OwnNext(cfg, idx), a, a2, b);
    OneRequests(b.execs);
  }

  // ----- no interleaving drains forever -----

  /** Every launcher of the phase was started and has stopped launching. */
  ghost predicate Winding(cfg: Config, a: Agent) {
    && a.pc.Launching? && a.pc.p < |a.phases| && |a.phases[a.pc.p].lanes| == |cfg.http|
    && forall s | 0 <= s < |cfg.http| :: a.phases[a.pc.p].lanes[s].pc in {Draining, Drained, Done}
  }

  /** Own steps that are not just a connection dialled or a timer that fires late. */
  predicate Counts(act: Action) { Own(act) && !act.DialOut? && !(act.OnLane? && act.op.Fire?) }

  function WorkLeft(a: Agent): nat { LaneWork(a) + ExecWork(a) }

  /** Every step inside Execute and around it, a leak or a hang included, brings the executor forward. */
  lemma ExecMoveShrinks(http: bool, e: Exec, f: Exec, field: nat, delta: int)
    requires ExecMove(http, e, f, field, delta)
    ensures ExecRank(f) < ExecRank(e)
  {
  }

  lemma ExecShrinks(a: Agent, i: nat, f: Exec, b: Agent)
    requires i < |a.execs| && b.execs == a.execs[i := f] && ExecRank(f) < ExecRank(a.execs[i])
    requires b.pc == a.pc && a.pc.Launching? && a.pc.p < |a.phases| == |b.phases|
    requires |b.phases[a.pc.p].lanes| == |a.phases[a.pc.p].lanes|
    requires forall s | 0 <= s < |a.phases[a.pc.p].lanes| :: b.phases[a.pc.p].lanes[s].pc == a.phases[a.pc.p].lanes[s].pc
                                                          && b.phases[a.pc.p].lanes[s].fired == a.phases[a.pc.p].lanes[s].fired
    ensures WorkLeft(b) < WorkLeft(a)
  {
    SumUpdate(a.execs, i, f);
    SumEqual(a.phases[a.pc.p].lanes, LaneRank, b.phases[a.pc.p].lanes, LaneRank);
  }

  lemma LaneMoveShrinks(l: Lane, op: LaneOp, m: Lane)
    requires LaneMove(l, op, m) && !op.Fire? && l.pc in {Draining, Drained, Done}
    ensures m.pc in {Drained, Done} && LaneRank(m) < LaneRank(l)
  {
  }

  /** Launchers of earlier phases are done and can only have their timer fire. */
  lemma MovesInPhase(cfg: Config, a: Agent, p: nat, s: nat, op: LaneOp, m: Lane)
    requires PhasesOk(cfg, a) && a.pc.Launching? && HasLane(a, p, s) && LaneMove(a.phases[p].lanes[s], op, m) && !op.Fire?
    ensures p == a.pc.p
  {
    assert p == a.pc.p || AllDone(cfg, a.phases[p]);
  }

  lemma LaneShrinks(cfg: Config, a: Agent, p: nat, s: nat, op: LaneOp, b: Agent)
    requires PhasesOk(cfg, a) && Winding(cfg, a) && LaneEffect(a, p, s, op, b) && !op.Fire?
    ensures Winding(cfg, b) && b.pc == a.pc && WorkLeft(b) < WorkLeft(a)
  {
    var l, m := a.phases[p].lanes[s], b.phases[p].lanes[s];
    MovesInPhase(cfg, a, p, s, op, m);
    LaneMoveShrinks(l, op, m);
    SumUpdate(a.phases[p].lanes, s, m);
  }

  /** In a phase that is winding down every such step leaves less work, or ends the phase. */
  lemma WindingShrinks(cfg: Config, idx: nat, a: Agent, act: Action, b: Agent)
    requires AgentInv(cfg, idx, a) && Winding(cfg, a) && AgentStep(cfg, idx, a, act, b) && Counts(act)
    ensures b.pc == AtPhase(a.pc.p + 1) || (b.pc == a.pc && Winding(cfg, b) && WorkLeft(b) < WorkLeft(a))
  {
    match act
    case OnLane(p, s, op) =>
      LaneStepEffect(a, p, s, op, b);
      LaneShrinks(cfg, a, p, s, op, b);
    case OnExec(i, f, field, delta) =>
      ExecMoveShrinks(cfg.http[a.execs[i].s], a.execs[i], f, field, delta);
      ExecShrinks(a, i, f, b);
    case Free(i) => ReleaseShrinks(cfg, a, i, b);
    case Finish(i) => ReleaseShrinks(cfg, a, i, b);
    case _ =>
  }

  lemma ReleaseShrinks(cfg: Config, a: Agent, i: nat, b: Agent)
    requires Winding(cfg, a) && (FreeStep(a, i, b) || FinishStep(a, i, b))
    ensures b.pc == a.pc && Winding(cfg, b) && WorkLeft(b) < WorkLeft(a)
  {
    ExecShrinks(a, i, b.execs[i], b);
  }

  ghost predicate CountingStep(cfg: Config, idx: nat, a: Agent, b: Agent) {
    ValidConfig(cfg) && exists act | Counts(act) :: AgentStep(cfg, idx, a, act, b)
  }

  ghost function CountingNext(cfg: Config, idx: nat): (Agent, Agent) -> bool {
    (a: Agent, b: Agent) => CountingStep(cfg, idx, a, b)
  }

  /** However the goroutines interleave, a phase that is winding down takes at most as many steps as
      there is work left in it. */
  lemma {:induction false} WindingIsBounded(cfg: Config, idx: nat, path: seq<Agent>, k: nat)
    requires Path(CountingNext(cfg, idx), path) && AgentInv(cfg, idx, path[0]) && Winding(cfg, path[0])
    requires k < |path| && forall j | 0 <= j <= k :: path[j].pc == path[0].pc
    ensures AgentInv(cfg, idx, path[k]) && Winding(cfg, path[k]) && WorkLeft(path[k]) + k <= WorkLeft(path[0])
  {
    if k > 0 {
      WindingIsBounded(cfg, idx, path, k - 1);
      assert CountingNext(cfg, idx)(path[k - 1], path[k]);
      var act :| Counts(act) && AgentStep(cfg, idx, path[k - 1], act, path[k]);
      AgentKeeps(cfg, idx, path[k - 1], act, path[k]);
      WindingShrinks(cfg, idx, path[k - 1], act, path[k]);
    }
  }
}
