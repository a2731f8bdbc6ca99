/** One agent process (agent/agent_controller.go) running http:get and other sessions
    (sessions/http_get.go), as a step system: the Run goroutine, one launcher goroutine per
    session of a phase, and any number of session executors. Every atomic operation of the source
    is one step, and steps of different goroutines interleave freely. */
module AgentProcess {
  import opened GoInts
  import opened Sums
  import opened Splitter

  // ----- state -----

  /** totals[p][s]: users of session s in phase p over all agents; http[s]: session s is http:get. */
  datatype Config = Config(totals: seq<seq<nat>>, http: seq<bool>, agents: nat)

  ghost predicate ValidConfig(cfg: Config) {
    && 1 <= cfg.agents < TWO63
    && (forall p | 0 <= p < |cfg.totals| :: |cfg.totals[p]| == |cfg.http|)
    && (forall p, s | 0 <= p < |cfg.totals| && 0 <= s < |cfg.http| ::
          Valid(cfg.totals[p][s], cfg.agents) && Fits(cfg.totals[p][s], cfg.agents))
  }

  function Cap(cfg: Config, idx: nat, p: nat, s: nat): nat
    requires cfg.agents >= 1 && p < |cfg.totals| && s < |cfg.totals[p]|
  {
    Share(cfg.totals[p][s], cfg.agents, idx)
  }

  // The http:get counters, in the order in which Setup clears them and Counters loads them.
  const INITIATED: nat := 0
  const COMPLETED: nat := 1
  const ERROR: nat := 2
  const DIAL: nat := 3
  const LT1000: nat := 4
  const LT10000: nat := 5
  const GTE10000: nat := 6
  const FIELDS: nat := 7

  function Bucket(duration: int): (f: nat)
    ensures LT1000 <= f <= GTE10000
  {
    if duration < SECOND then LT1000 else if duration < 10 * SECOND then LT10000 else GTE10000
  }

  datatype ExecPc =
    | Spawned       // goroutine exists, no user id yet
    | Leaked        // no user id: returned without freeing its slot or telling the WaitGroup
    | Busy          // inside Execute of a session other than http:get
    | Hung          // inside an Execute that never returns
    | Entered       // inside HttpGetSession.Execute, before initiated++
    | Requesting
    | GotError      // before initiated--
    | Failing       // before error++
    | GotResponse   // before the duration bucket
    | Measured      // before initiated--
    | Completing    // before completed++
    | Back          // Execute returned, before <-done
    | Freed         // before wg.Done
    | Finished

  datatype Outcome = Pending | Timed(duration: int) | Completed(duration: int) | Errored

  datatype Exec = Exec(p: nat, s: nat, pc: ExecPc, out: Outcome)

  datatype LanePc = Selecting | Sent | Added | Draining | Drained | Done

  /** One launcher: occupancy of its channel, its WaitGroup, the channel's capacity, and whether the
      deadline channel has a value. */
  datatype Lane = Lane(pc: LanePc, occ: int, wg: int, cap: nat, fired: bool)

  datatype Phase = Phase(lanes: seq<Lane>, swg: int)

  datatype AgentPc =
    | Resetting(k: nat)   // in Setup, about to clear counter k
    | Ready               // set up, Run not called yet
    | AtPhase(p: nat)
    | Launching(p: nat)   // in runPhase: starting launchers, then waiting for them
    | Returned

  /** An executor left over from an earlier job whose Run call failed on the master's side. */
  datatype Stray = Stray(http: bool, e: Exec)

  /** `strays` and `relaunch`: executors of earlier jobs, and whether an earlier Run still launches
      http:get executors. `base[f]`: what the strays had contributed to counter f when it was cleared.
      `dials`: connections the http client has dialled so far. */
  datatype Agent = Agent(
    pc: AgentPc, phases: seq<Phase>, execs: seq<Exec>, strays: seq<Stray>, relaunch: bool,
    c: seq<int>, base: seq<int>, dials: nat)

  // ----- steps -----

  datatype Action =
    | Reset | DialOut | Begin | NextPhase | Launch | PhaseDone
    | OnLane(p: nat, s: nat, op: LaneOp)
    | OnExec(i: nat, e: Exec, field: nat, delta: int)
    | Free(j: nat) | Finish(k: nat)
    | OnStray(i: nat, y: Stray, field: nat, delta: int) | StrayLaunch | StrayEnd

  datatype LaneOp = Fire | Send | WgAdd | Go | Expire | Drain | SwgDone

  ghost predicate Listed(cfg: Config) { exists s | 0 <= s < |cfg.http| :: cfg.http[s] }

  /** What counter f would show had it never been cleared and this job's executors not counted. */
  function SoFar(a: Agent, f: nat): int { if f == DIAL then a.dials else SumOf(a.strays, StrayContribution(f)) }

  ghost predicate ControlStep(cfg: Config, idx: nat, a: Agent, act: Action, b: Agent)
    requires ValidConfig(cfg) && |a.c| == |a.base| == FIELDS
  {
    match act
    case Reset =>
      // a session that is not listed is not set up
      && a.pc.Resetting?
      && if Listed(cfg) && a.pc.k < FIELDS
         then b == a.(pc := Resetting(a.pc.k + 1), c := a.c[a.pc.k := 0],
                      base := a.base[a.pc.k := SoFar(a, a.pc.k)])
         else b == a.(pc := Ready)
    case DialOut => b == a.(c := a.c[DIAL := a.c[DIAL] + 1], dials := a.dials + 1)
    case Begin => a.pc.Ready? && b == a.(pc := AtPhase(0))
    case NextPhase =>
      && a.pc.AtPhase?
      && if a.pc.p < |cfg.totals|
         then b == a.(pc := Launching(a.pc.p), phases := a.phases + [Phase([], |cfg.http|)])
         else b == a.(pc := Returned)
    case Launch =>
      && a.pc.Launching? && a.pc.p < |cfg.totals| && a.pc.p < |a.phases|
      && var ph := a.phases[a.pc.p];
      && |ph.lanes| < |cfg.http|
      && var lane := Lane(Selecting, 0, 0, Cap(cfg, idx, a.pc.p, |ph.lanes|), false);
      && b == a.(phases := a.phases[a.pc.p := ph.(lanes := ph.lanes + [lane])])
    case PhaseDone =>
      && a.pc.Launching? && a.pc.p < |a.phases|
      && |a.phases[a.pc.p].lanes| == |cfg.http| && a.phases[a.pc.p].swg == 0
      && b == a.(pc := AtPhase(a.pc.p + 1))
    case _ => false
  }

  ghost predicate LaneMove(l: Lane, op: LaneOp, m: Lane) {
    match op
    case Fire => m == l.(fired := true)
    case Send => l.pc.Selecting? && l.occ < l.cap && m == l.(pc := Sent, occ := l.occ + 1)
    case WgAdd => l.pc.Sent? && m == l.(pc := Added, wg := l.wg + 1)
    case Go => l.pc.Added? && m == l.(pc := Selecting)
    case Expire => l.pc.Selecting? && l.fired && m == l.(pc := Draining)
    case Drain => l.pc.Draining? && l.wg == 0 && m == l.(pc := Drained)
    case SwgDone => l.pc.Drained? && m == l.(pc := Done)
  }

  ghost predicate HasLane(a: Agent, p: nat, s: nat) {
    p < |a.phases| && s < |a.phases[p].lanes|
  }

  function WithLane(a: Agent, p: nat, s: nat, l: Lane): Agent
    requires p < |a.phases| && s < |a.phases[p].lanes|
  {
    a.(phases := a.phases[p := a.phases[p].(lanes := a.phases[p].lanes[s := l])])
  }

  ghost predicate LaneStep(a: Agent, p: nat, s: nat, op: LaneOp, b: Agent) {
    && HasLane(a, p, s)
    && exists m | LaneMove(a.phases[p].lanes[s], op, m) ::
         var c := WithLane(a, p, s, m);
         b == match op
              case Go => c.(execs := a.execs + [Exec(p, s, Spawned, Pending)])
              case SwgDone => c.(phases := c.phases[p := c.phases[p].(swg := c.phases[p].swg - 1)])
              case _ => c
  }

  /** One step of an executor that touches neither the channel nor the WaitGroup: the new state
      and the counter it adds to. */
  ghost predicate ExecMove(http: bool, e: Exec, f: Exec, field: nat, delta: int) {
    match e.pc
    case Spawned => delta == 0 && (f == e.(pc := Leaked) || f == e.(pc := if http then Entered else Busy))
    case Busy => delta == 0 && (f == e.(pc := Back) || f == e.(pc := Hung))
    case Entered => f == e.(pc := Requesting) && field == INITIATED && delta == 1
    case Requesting => delta == 0 && (f == e.(pc := GotError) || f == e.(pc := GotResponse))
    case GotError => f == e.(pc := Failing) && field == INITIATED && delta == -1
    case Failing => f == e.(pc := Back, out := Errored) && field == ERROR && delta == 1
    case GotResponse =>
      exists d :: f == e.(pc := Measured, out := Timed(d)) && field == Bucket(d) && delta == 1
    case Measured => f == e.(pc := Completing) && field == INITIATED && delta == -1
    case Completing =>
      && e.out.Timed?
      && f == e.(pc := Back, out := Completed(e.out.duration)) && field == COMPLETED && delta == 1
    case _ => false
  }

  ghost predicate ExecStep(cfg: Config, a: Agent, i: nat, f: Exec, field: nat, delta: int, b: Agent)
    requires |a.c| == FIELDS
  {
    && i < |a.execs| && field < FIELDS && a.execs[i].s < |cfg.http|
    && ExecMove(cfg.http[a.execs[i].s], a.execs[i], f, field, delta)
    && b == a.(execs := a.execs[i := f], c := a.c[field := a.c[field] + delta])
  }

  /** `<-done`: blocks while the channel is empty. */
  ghost predicate FreeStep(a: Agent, i: nat, b: Agent) {
    && i < |a.execs| && a.execs[i].pc.Back?
    && var e := a.execs[i];
    && HasLane(a, e.p, e.s) && a.phases[e.p].lanes[e.s].occ > 0
    && var l := a.phases[e.p].lanes[e.s];
    && b == WithLane(a, e.p, e.s, l.(occ := l.occ - 1)).(execs := a.execs[i := e.(pc := Freed)])
  }

  /** wg.Done. */
  ghost predicate FinishStep(a: Agent, i: nat, b: Agent) {
    && i < |a.execs| && a.execs[i].pc.Freed?
    && var e := a.execs[i];
    && HasLane(a, e.p, e.s)
    && var l := a.phases[e.p].lanes[e.s];
    && b == WithLane(a, e.p, e.s, l.(wg := l.wg - 1)).(execs := a.execs[i := e.(pc := Finished)])
  }

  /** Executors of an earlier job go on as they would have; their channel and WaitGroup belong to that
      job. */
  ghost predicate StrayMove(x: Stray, y: Stray, field: nat, delta: int) {
    && y.http == x.http
    && (|| ExecMove(x.http, x.e, y.e, field, delta)
        || (delta == 0 && x.e.pc.Back? && y.e == x.e.(pc := Freed))
        || (delta == 0 && x.e.pc.Freed? && y.e == x.e.(pc := Finished)))
  }

  ghost const NEWCOMER: Stray := Stray(true, Exec(0, 0, Spawned, Pending))

  ghost predicate StrayStep(a: Agent, act: Action, b: Agent)
    requires |a.c| == FIELDS
  {
    match act
    case OnStray(i, y, field, delta) =>
      && i < |a.strays| && field < FIELDS && StrayMove(a.strays[i], y, field, delta)
      && b == a.(strays := a.strays[i := y], c := a.c[field := a.c[field] + delta])
    case StrayLaunch => a.relaunch && b == a.(strays := a.strays + [NEWCOMER])
    case StrayEnd => a.relaunch && b == a.(relaunch := false)
    case _ => false
  }

  predicate IsStray(act: Action) { act.OnStray? || act.StrayLaunch? || act.StrayEnd? }

  ghost predicate AgentStep(cfg: Config, idx: nat, a: Agent, act: Action, b: Agent)
    requires ValidConfig(cfg)
  {
    && |a.c| == |a.base| == FIELDS
    && if IsStray(act) then StrayStep(a, act, b) else
       match act
       case OnLane(p, s, op) => LaneStep(a, p, s, op, b)
       case OnExec(i, e, field, delta) => ExecStep(cfg, a, i, e, field, delta, b)
       case Free(i) => FreeStep(a, i, b)
       case Finish(i) => FinishStep(a, i, b)
       case _ => ControlStep(cfg, idx, a, act, b)
  }

  /** A job finds its agent with counters of any value and, possibly, leftovers of earlier jobs. */
  ghost predicate AgentInit(a: Agent) {
    && a.pc == Resetting(0) && a.phases == [] && a.execs == [] && |a.c| == |a.base| == FIELDS
    && forall i | 0 <= i < |a.strays| :: StrayOk(a.strays[i])
  }

  // ----- what each executor contributes -----

  predicate InExecute(pc: ExecPc) {
    pc in {Busy, Hung, Entered, Requesting, GotError, Failing, GotResponse, Measured, Completing}
  }

  /** Executors of session s in phase p that are inside Execute. */
  function Live(p: nat, s: nat): Exec -> int {
    (e: Exec) => if e.p == p && e.s == s && InExecute(e.pc) then 1 else 0
  }

  /** Executors whose channel slot is not freed, leaked ones included. */
  function Holding(p: nat, s: nat): Exec -> int {
    (e: Exec) => if e.p == p && e.s == s && !e.pc.Freed? && !e.pc.Finished? then 1 else 0
  }

  /** Executors the WaitGroup still waits for, leaked ones included. */
  function Counted(p: nat, s: nat): Exec -> int {
    (e: Exec) => if e.p == p && e.s == s && !e.pc.Finished? then 1 else 0
  }

  function Contribution(f: nat): Exec -> int {
    (e: Exec) =>
      if f == INITIATED then (if e.pc in {Requesting, GotError, GotResponse, Measured} then 1 else 0)
      else if f == COMPLETED then (if e.out.Completed? then 1 else 0)
      else if f == ERROR then (if e.out.Errored? then 1 else 0)
      else if (e.out.Completed? || e.out.Timed?) && Bucket(e.out.duration) == f then 1 else 0
  }

  function StrayContribution(f: nat): Stray -> int { (x: Stray) => Contribution(f)(x.e) }

  /** Executors that called HttpGetSession.Execute. */
  function HttpStarted(e: Exec): int {
    if e.out.Pending? && e.pc in {Spawned, Leaked, Busy, Hung, Back, Freed, Finished} then 0 else 1
  }

  function IsDone(l: Lane): int { if l.pc.Done? then 1 else 0 }

  // ----- invariant -----

  /** Program counter and outcome of an executor fit together; `http`: it runs http:get. */
  ghost predicate OutcomeOk(http: bool, e: Exec) {
    && (e.pc in {Spawned, Leaked, Busy, Hung, Entered, Requesting, GotError, Failing, GotResponse} ==> e.out.Pending?)
    && (e.pc in {Measured, Completing} ==> e.out.Timed?)
    && (e.pc in {Back, Freed, Finished} ==>
          if http then e.out.Completed? || e.out.Errored? else e.out.Pending?)
    && (http ==> !e.pc.Busy? && !e.pc.Hung?)
    && (!http ==> e.pc in {Spawned, Leaked, Busy, Hung, Back, Freed, Finished})
  }

  ghost predicate ExecOk(cfg: Config, e: Exec) { e.s < |cfg.http| && OutcomeOk(cfg.http[e.s], e) }

  ghost predicate StrayOk(x: Stray) { OutcomeOk(x.http, x.e) }

  ghost predicate ExecsOk(cfg: Config, a: Agent) {
    forall i | 0 <= i < |a.execs| :: ExecOk(cfg, a.execs[i]) && HasLane(a, a.execs[i].p, a.execs[i].s)
  }

  ghost predicate LaneOk(cfg: Config, idx: nat, a: Agent, p: nat, s: nat)
    requires ValidConfig(cfg) && HasLane(a, p, s)
  {
    var l := a.phases[p].lanes[s];
    && p < |cfg.totals| && s < |cfg.http| && l.cap == Cap(cfg, idx, p, s)
    && l.occ == SumOf(a.execs, Holding(p, s)) + (if l.pc.Sent? || l.pc.Added? then 1 else 0)
    && l.occ <= l.cap
    && l.wg == SumOf(a.execs, Counted(p, s)) + (if l.pc.Added? then 1 else 0)
    && (l.pc.Drained? || l.pc.Done? ==> l.wg == 0)
  }

  ghost predicate LanesOk(cfg: Config, idx: nat, a: Agent)
    requires ValidConfig(cfg)
  {
    forall p, s | 0 <= p < |a.phases| && 0 <= s < |a.phases[p].lanes| :: LaneOk(cfg, idx, a, p, s)
  }

  ghost predicate AllDone(cfg: Config, ph: Phase) {
    |ph.lanes| == |cfg.http| && forall s | 0 <= s < |ph.lanes| :: ph.lanes[s].pc.Done?
  }

  ghost predicate PhasesOk(cfg: Config, a: Agent) {
    && (forall p | 0 <= p < |a.phases| ::
          && |a.phases[p].lanes| <= |cfg.http|
          && a.phases[p].swg == |cfg.http| - SumOf(a.phases[p].lanes, IsDone))
    && |a.phases| <= |cfg.totals|
    && match a.pc
       case Resetting(_) => a.phases == [] && a.execs == []
       case Ready => a.phases == [] && a.execs == []
       case AtPhase(p) => |a.phases| == p && forall q | 0 <= q < p :: AllDone(cfg, a.phases[q])
       case Launching(p) => |a.phases| == p + 1 && forall q | 0 <= q < p :: AllDone(cfg, a.phases[q])
       case Returned => forall q | 0 <= q < |a.phases| :: AllDone(cfg, a.phases[q])
  }

  /** Counter f has been cleared by this job's Setup. */
  predicate Cleared(a: Agent, f: nat) { f < FIELDS && f != DIAL && (a.pc.Resetting? ==> f < a.pc.k) }

  /** What leftovers of earlier jobs have added to counter f since it was cleared. */
  function Drift(a: Agent, f: nat): int
    requires f < |a.base|
  {
    SumOf(a.strays, StrayContribution(f)) - a.base[f]
  }

  ghost predicate CountersOk(cfg: Config, a: Agent) {
    && |a.c| == |a.base| == FIELDS
    && (Listed(cfg) ==>
          forall f | 0 <= f < FIELDS && Cleared(a, f) :: a.c[f] == SumOf(a.execs, Contribution(f)) + Drift(a, f))
  }

  ghost predicate StraysOk(a: Agent) { forall i | 0 <= i < |a.strays| :: StrayOk(a.strays[i]) }

  ghost predicate AgentInv(cfg: Config, idx: nat, a: Agent) {
    && ValidConfig(cfg)
    && ExecsOk(cfg, a) && LanesOk(cfg, idx, a) && PhasesOk(cfg, a) && CountersOk(cfg, a) && StraysOk(a)
  }

  // ----- every step keeps it -----

  lemma ResetKeeps(cfg: Config, idx: nat, a: Agent, b: Agent)
    requires AgentInv(cfg, idx, a) && ControlStep(cfg, idx, a, Reset, b)
    ensures AgentInv(cfg, idx, b)
  {
  }

  lemma NextPhaseKeeps(cfg: Config, idx: nat, a: Agent, b: Agent)
    requires AgentInv(cfg, idx, a) && ControlStep(cfg, idx, a, NextPhase, b)
    ensures AgentInv(cfg, idx, b)
  {
    SameLanes(cfg, idx, a, b);
  }

  lemma PhaseDoneKeeps(cfg: Config, idx: nat, a: Agent, b: Agent)
    requires AgentInv(cfg, idx, a) && ControlStep(cfg, idx, a, PhaseDone, b)
    ensures AgentInv(cfg, idx, b)
  {
    AllOnes(a.phases[a.pc.p].lanes);
    SameLanes(cfg, idx, a, b);
  }

  lemma SameLanes(cfg: Config, idx: nat, a: Agent, b: Agent)
    requires ValidConfig(cfg) && LanesOk(cfg, idx, a) && ExecsOk(cfg, a) && a.execs == b.execs
    requires a.phases == b.phases || b.phases == a.phases + [Phase([], |cfg.http|)]
    ensures LanesOk(cfg, idx, b) && ExecsOk(cfg, b)
  {
    forall p, s | 0 <= p < |b.phases| && 0 <= s < |b.phases[p].lanes| ensures LaneOk(cfg, idx, b, p, s) {
      assert LaneOk(cfg, idx, a, p, s);
    }
    forall i | 0 <= i < |b.execs| ensures ExecOk(cfg, b.execs[i]) && HasLane(b, b.execs[i].p, b.execs[i].s) {
      assert HasLane(a, a.execs[i].p, a.execs[i].s);
    }
  }

  lemma ControlKeeps(cfg: Config, idx: nat, a: Agent, act: Action, b: Agent)
    requires AgentInv(cfg, idx, a) && ControlStep(cfg, idx, a, act, b)
    ensures AgentInv(cfg, idx, b)
  {
    match act
    case Reset => ResetKeeps(cfg, idx, a, b);
    case DialOut => SameLanes(cfg, idx, a, b);
    case Begin => SameLanes(cfg, idx, a, b);
    case NextPhase => NextPhaseKeeps(cfg, idx, a, b);
    case Launch => LaunchKeeps(cfg, idx, a, b);
    case PhaseDone => PhaseDoneKeeps(cfg, idx, a, b);
    case _ =>
  }

  lemma {:induction false} AllOnes(lanes: seq<Lane>)
    ensures SumOf(lanes, IsDone) <= |lanes|
    ensures SumOf(lanes, IsDone) == |lanes| ==> forall s | 0 <= s < |lanes| :: lanes[s].pc.Done?
  {
    if lanes != [] { AllOnes(lanes[..|lanes| - 1]); }
  }

  lemma LaunchKeeps(cfg: Config, idx: nat, a: Agent, b: Agent)
    requires AgentInv(cfg, idx, a) && ControlStep(cfg, idx, a, Launch, b)
    ensures AgentInv(cfg, idx, b)
  {
    var p0 := a.pc.p;
    var lanes := a.phases[p0].lanes;
    var s0 := |lanes|;
    SumAppend(lanes, b.phases[p0].lanes[s0]);
    forall i | 0 <= i < |a.execs|
      ensures Holding(p0, s0)(a.execs[i]) == 0 && Counted(p0, s0)(a.execs[i]) == 0
    {
      assert HasLane(a, a.execs[i].p, a.execs[i].s);
    }
    SumZero(a.execs, Holding(p0, s0));
    SumZero(a.execs, Counted(p0, s0));
    forall p, s | 0 <= p < |b.phases| && 0 <= s < |b.phases[p].lanes| ensures LaneOk(cfg, idx, b, p, s) {
      if !(p == p0 && s == s0) { assert LaneOk(cfg, idx, a, p, s); }
    }
  }

  /** A step of a launcher, spelled out field by field. */
  ghost predicate LaneEffect(a: Agent, p: nat, s: nat, op: LaneOp, b: Agent) {
    && HasLane(a, p, s) && HasLane(b, p, s)
    && LaneMove(a.phases[p].lanes[s], op, b.phases[p].lanes[s])
    && b == a.(phases := b.phases, execs := b.execs)
    && b.execs == (if op.Go? then a.execs + [Exec(p, s, Spawned, Pending)] else a.execs)
    && |b.phases| == |a.phases| && (forall q | 0 <= q < |a.phases| && q != p :: b.phases[q] == a.phases[q])
    && b.phases[p].lanes == a.phases[p].lanes[s := b.phases[p].lanes[s]]
    && b.phases[p].swg == a.phases[p].swg - (if op.SwgDone? then 1 else 0)
  }

  lemma LaneStepEffect(a: Agent, p: nat, s: nat, op: LaneOp, b: Agent)
    requires LaneStep(a, p, s, op, b)
    ensures LaneEffect(a, p, s, op, b)
  {
  }

  lemma LaneKeepsLane(cfg: Config, idx: nat, a: Agent, p: nat, s: nat, op: LaneOp, b: Agent, q: nat, r: nat)
    requires ValidConfig(cfg) && LaneEffect(a, p, s, op, b) && HasLane(a, q, r) && LaneOk(cfg, idx, a, q, r)
    ensures HasLane(b, q, r) && LaneOk(cfg, idx, b, q, r)
  {
    SumAppend(a.execs, Exec(p, s, Spawned, Pending));
    if q == p && r == s {
    } else {
      assert b.phases[q].lanes[r] == a.phases[q].lanes[r];
    }
  }

  /** A lane changes, and its phase's WaitGroup changes with the number of finished lanes. */
  lemma PhaseAfter(cfg: Config, a: Agent, p: nat, s: nat, l: Lane, b: Agent)
    requires PhasesOk(cfg, a) && HasLane(a, p, s) && b.pc == a.pc && |b.phases| == |a.phases|
    requires !a.pc.Resetting? && !a.pc.Ready?
    requires forall q | 0 <= q < |a.phases| && q != p :: b.phases[q] == a.phases[q]
    requires b.phases[p].lanes == a.phases[p].lanes[s := l]
    requires b.phases[p].swg == a.phases[p].swg + IsDone(a.phases[p].lanes[s]) - IsDone(l)
    requires a.phases[p].lanes[s].pc.Done? ==> l.pc.Done?
    ensures PhasesOk(cfg, b)
  {
    SumUpdate(a.phases[p].lanes, s, l);
    forall q | 0 <= q < |a.phases| && AllDone(cfg, a.phases[q]) ensures AllDone(cfg, b.phases[q]) {}
  }

  lemma LaneKeepsPhases(cfg: Config, a: Agent, p: nat, s: nat, op: LaneOp, b: Agent)
    requires PhasesOk(cfg, a) && LaneEffect(a, p, s, op, b)
    ensures PhasesOk(cfg, b)
  {
    PhaseAfter(cfg, a, p, s, b.phases[p].lanes[s], b);
  }

  lemma LaneKeepsExecs(cfg: Config, a: Agent, p: nat, s: nat, op: LaneOp, b: Agent)
    requires ExecsOk(cfg, a) && CountersOk(cfg, a) && LaneEffect(a, p, s, op, b) && s < |cfg.http|
    ensures ExecsOk(cfg, b) && CountersOk(cfg, b)
  {
    SumAppend(a.execs, Exec(p, s, Spawned, Pending));
    forall i | 0 <= i < |b.execs| ensures ExecOk(cfg, b.execs[i]) && HasLane(b, b.execs[i].p, b.execs[i].s) {
      if i < |a.execs| { assert HasLane(a, a.execs[i].p, a.execs[i].s); }
    }
  }

  lemma LaneKeeps(cfg: Config, idx: nat, a: Agent, p: nat, s: nat, op: LaneOp, b: Agent)
    requires AgentInv(cfg, idx, a) && LaneStep(a, p, s, op, b)
    ensures AgentInv(cfg, idx, b)
  {
    assert LaneOk(cfg, idx, a, p, s);
    LaneStepEffect(a, p, s, op, b);
    LaneKeepsPhases(cfg, a, p, s, op, b);
    LaneKeepsExecs(cfg, a, p, s, op, b);
    forall q, r | 0 <= q < |b.phases| && 0 <= r < |b.phases[q].lanes| ensures LaneOk(cfg, idx, b, q, r) {
      LaneKeepsLane(cfg, idx, a, p, s, op, b, q, r);
    }
  }

  /** A step inside Execute moves the counters by exactly the change of the executor's
      contribution. */
  lemma ContributionMatches(http: bool, e: Exec, f: Exec, field: nat, delta: int, g: nat)
    requires OutcomeOk(http, e) && ExecMove(http, e, f, field, delta)
    requires g < FIELDS && g != DIAL
    ensures Contribution(g)(f) - Contribution(g)(e) == if g == field then delta else 0
  {
  }

  lemma ExecMoveKeeps(http: bool, e: Exec, f: Exec, field: nat, delta: int, p: nat, s: nat)
    requires OutcomeOk(http, e) && ExecMove(http, e, f, field, delta)
    ensures OutcomeOk(http, f) && f.p == e.p && f.s == e.s
    ensures Holding(p, s)(f) == Holding(p, s)(e) && Counted(p, s)(f) == Counted(p, s)(e)
  {
  }

  lemma ExecKeepsCounters(cfg: Config, a: Agent, i: nat, f: Exec, field: nat, delta: int, b: Agent)
    requires ExecsOk(cfg, a) && CountersOk(cfg, a) && ExecStep(cfg, a, i, f, field, delta, b)
    ensures CountersOk(cfg, b)
  {
    SumUpdate(a.execs, i, f);
    forall g | 0 <= g < FIELDS && g != DIAL
      ensures Contribution(g)(f) - Contribution(g)(a.execs[i]) == if g == field then delta else 0
    {
      ContributionMatches(cfg.http[a.execs[i].s], a.execs[i], f, field, delta, g);
    }
  }

  lemma ExecKeeps(cfg: Config, idx: nat, a: Agent, i: nat, f: Exec, field: nat, delta: int, b: Agent)
    requires AgentInv(cfg, idx, a) && ExecStep(cfg, a, i, f, field, delta, b)
    ensures AgentInv(cfg, idx, b)
  {
    ExecKeepsCounters(cfg, a, i, f, field, delta, b);
    SumUpdate(a.execs, i, f);
    forall q, r | 0 <= q < |b.phases| && 0 <= r < |b.phases[q].lanes| ensures LaneOk(cfg, idx, b, q, r) {
      assert LaneOk(cfg, idx, a, q, r);
      ExecMoveKeeps(cfg.http[a.execs[i].s], a.execs[i], f, field, delta, q, r);
    }
    ExecMoveKeeps(cfg.http[a.execs[i].s], a.execs[i], f, field, delta, 0, 0);
  }

  lemma ReleaseKeepsLane(cfg: Config, idx: nat, a: Agent, i: nat, b: Agent, q: nat, r: nat)
    requires ValidConfig(cfg) && (FreeStep(a, i, b) || FinishStep(a, i, b))
    requires HasLane(a, q, r) && LaneOk(cfg, idx, a, q, r)
    ensures HasLane(b, q, r) && LaneOk(cfg, idx, b, q, r)
  {
    SumUpdate(a.execs, i, b.execs[i]);
    var e := a.execs[i];
    if e.p == q && e.s == r {
      forall j | 0 <= j < |a.execs| ensures Counted(q, r)(a.execs[j]) >= 0 {}
      SumAtLeast(a.execs, Counted(q, r), i);
    }
  }

  lemma ReleaseKeepsPhases(cfg: Config, a: Agent, i: nat, b: Agent)
    requires PhasesOk(cfg, a) && (FreeStep(a, i, b) || FinishStep(a, i, b))
    ensures PhasesOk(cfg, b)
  {
    var e := a.execs[i];
    PhaseAfter(cfg, a, e.p, e.s, b.phases[e.p].lanes[e.s], b);
  }

  lemma ReleaseKeepsCounters(cfg: Config, a: Agent, i: nat, b: Agent)
    requires CountersOk(cfg, a) && (FreeStep(a, i, b) || FinishStep(a, i, b))
    ensures CountersOk(cfg, b)
  {
    SumUpdate(a.execs, i, b.execs[i]);
    forall g | 0 <= g < FIELDS ensures Contribution(g)(b.execs[i]) == Contribution(g)(a.execs[i]) {}
  }

  lemma ReleaseKeepsExecs(cfg: Config, a: Agent, i: nat, b: Agent)
    requires ExecsOk(cfg, a) && (FreeStep(a, i, b) || FinishStep(a, i, b))
    ensures ExecsOk(cfg, b)
  {
    forall j | 0 <= j < |b.execs| ensures ExecOk(cfg, b.execs[j]) && HasLane(b, b.execs[j].p, b.execs[j].s) {
      assert ExecOk(cfg, a.execs[j]) && HasLane(a, a.execs[j].p, a.execs[j].s);
    }
  }

  lemma ReleaseKeeps(cfg: Config, idx: nat, a: Agent, i: nat, b: Agent)
    requires AgentInv(cfg, idx, a) && (FreeStep(a, i, b) || FinishStep(a, i, b))
    ensures AgentInv(cfg, idx, b)
  {
    ReleaseKeepsPhases(cfg, a, i, b);
    ReleaseKeepsExecs(cfg, a, i, b);
    ReleaseKeepsCounters(cfg, a, i, b);
    forall q, r | 0 <= q < |b.phases| && 0 <= r < |b.phases[q].lanes| ensures LaneOk(cfg, idx, b, q, r) {
      ReleaseKeepsLane(cfg, idx, a, i, b, q, r);
    }
  }

  lemma StrayMoveMatches(x: Stray, y: Stray, field: nat, delta: int, g: nat)
    requires StrayOk(x) && StrayMove(x, y, field, delta) && g < FIELDS && g != DIAL
    ensures StrayOk(y)
    ensures StrayContribution(g)(y) - StrayContribution(g)(x) == if g == field then delta else 0
  {
    assert StrayContribution(g)(x) == Contribution(g)(x.e) && StrayContribution(g)(y) == Contribution(g)(y.e);
    if ExecMove(x.http, x.e, y.e, field, delta) {
      ContributionMatches(x.http, x.e, y.e, field, delta, g);
      ExecMoveKeeps(x.http, x.e, y.e, field, delta, 0, 0);
    } else {
      assert Contribution(g)(y.e) == Contribution(g)(x.e);
    }
  }

  lemma StrayKeepsCounters(cfg: Config, a: Agent, act: Action, b: Agent)
    requires CountersOk(cfg, a) && StraysOk(a) && StrayStep(a, act, b)
    ensures CountersOk(cfg, b) && StraysOk(b)
  {
    match act
    case OnStray(i, y, field, delta) =>
      SumUpdate(a.strays, i, y);
      assert StrayOk(a.strays[i]);
      StrayMoveMatches(a.strays[i], y, field, delta, 0);
      forall g | 0 <= g < FIELDS && g != DIAL
        ensures StrayContribution(g)(y) - StrayContribution(g)(a.strays[i]) == if g == field then delta else 0
      {
        StrayMoveMatches(a.strays[i], y, field, delta, g);
      }
    case StrayLaunch => SumAppend(a.strays, NEWCOMER);
    case _ =>
  }

  lemma StrayKeeps(cfg: Config, idx: nat, a: Agent, act: Action, b: Agent)
    requires AgentInv(cfg, idx, a) && StrayStep(a, act, b)
    ensures AgentInv(cfg, idx, b)
  {
    SameLanes(cfg, idx, a, b);
    StrayKeepsCounters(cfg, a, act, b);
  }

  lemma AgentKeeps(cfg: Config, idx: nat, a: Agent, act: Action, b: Agent)
    requires AgentInv(cfg, idx, a) && AgentStep(cfg, idx, a, act, b)
    ensures AgentInv(cfg, idx, b)
  {
    if IsStray(act) {
      StrayKeeps(cfg, idx, a, act, b);
      return;
    }
    match act
    case OnLane(p, s, op) => LaneKeeps(cfg, idx, a, p, s, op, b);
    case OnExec(i, e, field, delta) => ExecKeeps(cfg, idx, a, i, e, field, delta, b);
    case Free(i) => ReleaseKeeps(cfg, idx, a, i, b);
    case Finish(i) => ReleaseKeeps(cfg, idx, a, i, b);
    case _ => ControlKeeps(cfg, idx, a, act, b);
  }

  // ----- leftovers of earlier jobs -----

  /** An http:get executor in this state can still add to `completed`. */
  predicate CanComplete(pc: ExecPc) {
    pc in {Spawned, Entered, Requesting, GotResponse, Measured, Completing}
  }

  /** An http:get executor in this state can still add to some counter. */
  predicate CanCount(pc: ExecPc) { CanComplete(pc) || pc in {GotError, Failing} }

  /** Nothing left over from earlier jobs can still complete a request. */
  ghost predicate Settled(a: Agent) {
    !a.relaunch && forall i | 0 <= i < |a.strays| && a.strays[i].http :: !CanComplete(a.strays[i].e.pc)
  }

  /** Nothing left over from earlier jobs can still touch a counter. */
  ghost predicate Silent(a: Agent) {
    !a.relaunch && forall i | 0 <= i < |a.strays| && a.strays[i].http :: !CanCount(a.strays[i].e.pc)
  }

  /** Leftovers added nothing to these counters since they were cleared. */
  ghost predicate Undrifted(a: Agent, fields: set<nat>) {
    |a.base| == FIELDS && forall f | f in fields && Cleared(a, f) :: Drift(a, f) == 0
  }

  ghost const BUCKET_FIELDS: set<nat> := {COMPLETED, LT1000, LT10000, GTE10000}
  ghost const ALL_FIELDS: set<nat> := set f: nat | f < FIELDS

  ghost predicate BucketsSettled(a: Agent) { Settled(a) && Undrifted(a, BUCKET_FIELDS) }

  ghost predicate AllSilent(a: Agent) { Silent(a) && Undrifted(a, ALL_FIELDS) }

  /** Steps other than those of leftovers never cause a drift. */
  lemma OwnStepsUndrifted(cfg: Config, idx: nat, a: Agent, act: Action, b: Agent, fields: set<nat>)
    requires ValidConfig(cfg) && AgentStep(cfg, idx, a, act, b) && !IsStray(act) && PhasesOk(cfg, a)
    ensures b.strays == a.strays && b.relaunch == a.relaunch
    ensures Listed(cfg) && Undrifted(a, fields) ==> Undrifted(b, fields)
  {
  }

  /** A leftover that cannot count keeps every contribution, and stays unable to. */
  lemma StrayMoveCalm(x: Stray, y: Stray, field: nat, delta: int, g: nat)
    requires StrayOk(x) && StrayMove(x, y, field, delta) && g < FIELDS && g != DIAL
    ensures x.http && !CanComplete(x.e.pc) ==> !CanComplete(y.e.pc)
    ensures x.http && !CanCount(x.e.pc) ==> !CanCount(y.e.pc)
    ensures (x.http ==> !CanComplete(x.e.pc)) && g in BUCKET_FIELDS ==> StrayContribution(g)(y) == StrayContribution(g)(x)
    ensures (x.http ==> !CanCount(x.e.pc)) ==> StrayContribution(g)(y) == StrayContribution(g)(x)
  {
    StrayMoveMatches(x, y, field, delta, g);
  }

  lemma StrayStepSettled(a: Agent, act: Action, b: Agent)
    requires StraysOk(a) && |a.c| == FIELDS && StrayStep(a, act, b) && Settled(a)
    ensures Settled(b)
    ensures Undrifted(a, BUCKET_FIELDS) ==> Undrifted(b, BUCKET_FIELDS)
  {
    if act.OnStray? {
      var x := a.strays[act.i];
      SumUpdate(a.strays, act.i, act.y);
      StrayMoveCalm(x, act.y, act.field, act.delta, 0);
      forall g | g in BUCKET_FIELDS ensures StrayContribution(g)(act.y) == StrayContribution(g)(x) {
        StrayMoveCalm(x, act.y, act.field, act.delta, g);
      }
    }
  }

  lemma StrayStepSilent(a: Agent, act: Action, b: Agent)
    requires StraysOk(a) && |a.c| == FIELDS && StrayStep(a, act, b) && Silent(a)
    ensures Silent(b)
    ensures Undrifted(a, ALL_FIELDS) ==> Undrifted(b, ALL_FIELDS)
  {
    if act.OnStray? {
      var x := a.strays[act.i];
      SumUpdate(a.strays, act.i, act.y);
      StrayMoveCalm(x, act.y, act.field, act.delta, 0);
      forall g | g in ALL_FIELDS && g != DIAL ensures StrayContribution(g)(act.y) == StrayContribution(g)(x) {
        StrayMoveCalm(x, act.y, act.field, act.delta, g);
      }
    }
  }

  /** Once settled or silent, an agent stays so, and its counters take no drift. */
  lemma SettledStays(cfg: Config, idx: nat, a: Agent, act: Action, b: Agent)
    requires AgentInv(cfg, idx, a) && AgentStep(cfg, idx, a, act, b) && Listed(cfg)
    ensures BucketsSettled(a) ==> BucketsSettled(b)
    ensures AllSilent(a) ==> AllSilent(b)
  {
    if !IsStray(act) {
      if BucketsSettled(a) { OwnStepsUndrifted(cfg, idx, a, act, b, BUCKET_FIELDS); }
      if AllSilent(a) { OwnStepsUndrifted(cfg, idx, a, act, b, ALL_FIELDS); }
    } else {
      if BucketsSettled(a) { StrayStepSettled(a, act, b); }
      if AllSilent(a) { StrayStepSilent(a, act, b); }
    }
  }

  // ----- what the invariant gives -----

  /** The capacity of a launcher's channel is what getSessionUsers hands out. */
  lemma CapIsShare(cfg: Config, idx: nat, p: nat, s: nat)
    requires ValidConfig(cfg) && p < |cfg.totals| && s < |cfg.http|
    ensures Cap(cfg, idx, p, s) == CodeShare(cfg.totals[p][s], cfg.agents, idx)
  {
    CodeMeetsReference(cfg.totals[p][s], cfg.agents, idx);
  }

  /** Executors of session s in phase p that lost their slot for good. */
  function LeakedAt(p: nat, s: nat): Exec -> int {
    (e: Exec) => if e.p == p && e.s == s && e.pc.Leaked? then 1 else 0
  }

  /** Sessions in flight never exceed this agent's share, and every leaked slot lowers the bound. */
  lemma LiveWithinShare(cfg: Config, idx: nat, a: Agent, p: nat, s: nat)
    requires AgentInv(cfg, idx, a) && p < |cfg.totals| && s < |cfg.http|
    ensures SumOf(a.execs, Live(p, s)) + SumOf(a.execs, LeakedAt(p, s)) <= CodeShare(cfg.totals[p][s], cfg.agents, idx)
  {
    CapIsShare(cfg, idx, p, s);
    if HasLane(a, p, s) {
      assert LaneOk(cfg, idx, a, p, s);
      LiveAndLeakedHold(a.execs, p, s);
    } else {
      forall i | 0 <= i < |a.execs| ensures Live(p, s)(a.execs[i]) == 0 == LeakedAt(p, s)(a.execs[i]) {
        assert HasLane(a, a.execs[i].p, a.execs[i].s);
      }
      SumZero(a.execs, Live(p, s));
      SumZero(a.execs, LeakedAt(p, s));
    }
  }

  lemma {:induction false} LiveAndLeakedHold(execs: seq<Exec>, p: nat, s: nat)
    ensures SumOf(execs, Live(p, s)) + SumOf(execs, LeakedAt(p, s)) <= SumOf(execs, Holding(p, s))
  {
    if execs != [] { LiveAndLeakedHold(execs[..|execs| - 1], p, s); }
  }

  lemma UnfinishedIsCounted(cfg: Config, idx: nat, a: Agent, i: nat)
    requires AgentInv(cfg, idx, a) && i < |a.execs| && !a.execs[i].pc.Finished?
    ensures var e := a.execs[i];
            && a.phases[e.p].lanes[e.s].wg > 0
            && (!e.pc.Freed? ==> a.phases[e.p].lanes[e.s].occ > 0)
  {
    var e := a.execs[i];
    assert ExecOk(cfg, e) && HasLane(a, e.p, e.s) && LaneOk(cfg, idx, a, e.p, e.s);
    forall j | 0 <= j < |a.execs|
      ensures Counted(e.p, e.s)(a.execs[j]) >= 0 && Holding(e.p, e.s)(a.execs[j]) >= 0 {}
    SumAtLeast(a.execs, Counted(e.p, e.s), i);
    SumAtLeast(a.execs, Holding(e.p, e.s), i);
  }

  /** `<-done` never blocks, and no WaitGroup is ever driven below zero. */
  lemma ReleaseNeverBlocks(cfg: Config, idx: nat, a: Agent)
    requires AgentInv(cfg, idx, a)
    ensures forall i | 0 <= i < |a.execs| && a.execs[i].pc.Back? :: exists b :: FreeStep(a, i, b)
    ensures forall i | 0 <= i < |a.execs| && a.execs[i].pc.Freed? ::
              a.phases[a.execs[i].p].lanes[a.execs[i].s].wg > 0
    ensures forall p, s | 0 <= p < |a.phases| && 0 <= s < |a.phases[p].lanes| ::
              a.phases[p].lanes[s].pc.Drained? ==> a.phases[p].swg > 0
  {
    forall i | 0 <= i < |a.execs| && a.execs[i].pc.Back? ensures exists b :: FreeStep(a, i, b) {
      UnfinishedIsCounted(cfg, idx, a, i);
      var e := a.execs[i];
      var l := a.phases[e.p].lanes[e.s];
      var b := WithLane(a, e.p, e.s, l.(occ := l.occ - 1)).(execs := a.execs[i := e.(pc := Freed)]);
      assert FreeStep(a, i, b);
    }
    forall i | 0 <= i < |a.execs| && a.execs[i].pc.Freed?
      ensures a.phases[a.execs[i].p].lanes[a.execs[i].s].wg > 0
    {
      UnfinishedIsCounted(cfg, idx, a, i);
    }
    forall p, s | 0 <= p < |a.phases| && 0 <= s < |a.phases[p].lanes|
      ensures a.phases[p].lanes[s].pc.Drained? ==> a.phases[p].swg > 0
    {
      AllOnes(a.phases[p].lanes);
    }
  }

  /** Whatever has not finished belongs to the phase the agent is in; in particular a leaked
      executor keeps the agent in its phase for good, and after Run returned nothing is left. */
  lemma OnePhaseAtATime(cfg: Config, idx: nat, a: Agent, i: nat)
    requires AgentInv(cfg, idx, a) && i < |a.execs| && !a.execs[i].pc.Finished?
    ensures a.pc == Launching(a.execs[i].p)
  {
    UnfinishedIsCounted(cfg, idx, a, i);
    var e := a.execs[i];
    assert LaneOk(cfg, idx, a, e.p, e.s);
    assert HasLane(a, e.p, e.s);
    assert !AllDone(cfg, a.phases[e.p]);
  }

  /** The http:get counters of an agent with nothing in flight, up to what leftovers of earlier jobs
      added since they were cleared. */
  lemma QuietCounters(cfg: Config, idx: nat, a: Agent)
    requires AgentInv(cfg, idx, a) && Listed(cfg) && !a.pc.Resetting? && !a.pc.Launching?
    ensures a.c[INITIATED] == Drift(a, INITIATED)
    ensures a.c[COMPLETED] - Drift(a, COMPLETED) ==
            a.c[LT1000] - Drift(a, LT1000) + a.c[LT10000] - Drift(a, LT10000) + a.c[GTE10000] - Drift(a, GTE10000)
    ensures a.c[COMPLETED] - Drift(a, COMPLETED) + a.c[ERROR] - Drift(a, ERROR) == SumOf(a.execs, HttpStarted)
  {
    forall i | 0 <= i < |a.execs| ensures a.execs[i].pc.Finished? && ExecOk(cfg, a.execs[i]) {
      if !a.execs[i].pc.Finished? { OnePhaseAtATime(cfg, idx, a, i); }
    }
    QuietSums(cfg, a.execs);
  }

  lemma {:induction false} QuietSums(cfg: Config, execs: seq<Exec>)
    requires forall i | 0 <= i < |execs| :: execs[i].pc.Finished? && ExecOk(cfg, execs[i])
    ensures SumOf(execs, Contribution(INITIATED)) == 0
    ensures SumOf(execs, Contribution(COMPLETED)) ==
            SumOf(execs, Contribution(LT1000)) + SumOf(execs, Contribution(LT10000)) + SumOf(execs, Contribution(GTE10000))
    ensures SumOf(execs, Contribution(COMPLETED)) + SumOf(execs, Contribution(ERROR)) == SumOf(execs, HttpStarted)
  {
    if execs != [] { QuietSums(cfg, execs[..|execs| - 1]); }
  }

  // Executions that were measured, by duration in nanoseconds.
  function Under1s(e: Exec): int {
    if (e.out.Timed? || e.out.Completed?) && e.out.duration < 1_000_000_000 then 1 else 0
  }
  function Under10s(e: Exec): int {
    if (e.out.Timed? || e.out.Completed?) && 1_000_000_000 <= e.out.duration < 10_000_000_000 then 1 else 0
  }
  function Over10s(e: Exec): int {
    if (e.out.Timed? || e.out.Completed?) && 10_000_000_000 <= e.out.duration then 1 else 0
  }

  /** Every bucket counts the executions whose request took that long, up to what leftovers of earlier
      jobs added since it was cleared. */
  lemma BucketsByDuration(cfg: Config, idx: nat, a: Agent)
    requires AgentInv(cfg, idx, a) && Listed(cfg) && !a.pc.Resetting?
    ensures a.c[LT1000] == SumOf(a.execs, Under1s) + Drift(a, LT1000)
    ensures a.c[LT10000] == SumOf(a.execs, Under10s) + Drift(a, LT10000)
    ensures a.c[GTE10000] == SumOf(a.execs, Over10s) + Drift(a, GTE10000)
  {
    SumEqual(a.execs, Contribution(LT1000), a.execs, Under1s);
    SumEqual(a.execs, Contribution(LT10000), a.execs, Under10s);
    SumEqual(a.execs, Contribution(GTE10000), a.execs, Over10s);
  }

  /** At every moment: what was completed was first put into a duration bucket. */
  lemma CompletedWithinBuckets(cfg: Config, idx: nat, a: Agent)
    requires AgentInv(cfg, idx, a) && Listed(cfg) && !a.pc.Resetting? && BucketsSettled(a)
    ensures a.c[COMPLETED] <= a.c[LT1000] + a.c[LT10000] + a.c[GTE10000]
  {
    BucketSums(cfg, a.execs);
  }

  lemma {:induction false} BucketSums(cfg: Config, execs: seq<Exec>)
    requires forall i | 0 <= i < |execs| :: ExecOk(cfg, execs[i])
    ensures SumOf(execs, Contribution(COMPLETED)) <=
            SumOf(execs, Contribution(LT1000)) + SumOf(execs, Contribution(LT10000)) + SumOf(execs, Contribution(GTE10000))
  {
    if execs != [] { BucketSums(cfg, execs[..|execs| - 1]); }
  }

  /** `dial` counts the connections dialled since Setup cleared it. */
  ghost predicate DialsOk(cfg: Config, a: Agent) {
    && |a.c| == |a.base| == FIELDS
    && (Listed(cfg) && (a.pc.Resetting? ==> a.pc.k > DIAL) ==> a.c[DIAL] == a.dials - a.base[DIAL])
  }

  lemma DialsKept(cfg: Config, idx: nat, a: Agent, act: Action, b: Agent)
    requires ValidConfig(cfg) && DialsOk(cfg, a) && AgentStep(cfg, idx, a, act, b)
    ensures DialsOk(cfg, b)
    ensures b.dials == a.dials + if act.DialOut? then 1 else 0
    ensures !act.Reset? ==> b.base == a.base
  {
  }

  /** Once Run returned no step changes an executor, and unless leftovers are still counting none
      changes anything but the dial counter. */
  lemma ReturnedIsFinal(cfg: Config, idx: nat, a: Agent, act: Action, b: Agent)
    requires AgentInv(cfg, idx, a) && AgentStep(cfg, idx, a, act, b) && a.pc.Returned?
    ensures b.pc.Returned? && b.execs == a.execs
    ensures |b.c| == FIELDS
    ensures Silent(a) ==> Silent(b) && forall f | 0 <= f < FIELDS && f != DIAL :: b.c[f] == a.c[f]
  {
    if IsStray(act) {
      if Silent(a) { StrayStepSilent(a, act, b); }
      return;
    }
    OwnStepsUndrifted(cfg, idx, a, act, b, {});
    match act
    case OnExec(i, e, field, delta) => StillFinished(cfg, idx, a, i);
    case Free(i) => StillFinished(cfg, idx, a, i);
    case Finish(i) => StillFinished(cfg, idx, a, i);
    case OnLane(p, s, op) => StillDone(cfg, a, p, s);
    case _ =>
  }

  /** Setup, then waiting to be run, then Run, then having returned. */
  lemma PcOrder(cfg: Config, idx: nat, a: Agent, act: Action, b: Agent)
    requires ValidConfig(cfg) && AgentStep(cfg, idx, a, act, b)
    ensures !a.pc.Resetting? ==> !b.pc.Resetting?
    ensures (a.pc.Resetting? || a.pc.Ready?) && !act.Begin? ==> b.pc.Resetting? || b.pc.Ready?
    ensures a.pc.Returned? ==> b.pc.Returned?
  {
  }

  /** After Setup no step lowers a bucket. */
  lemma BucketsOnlyGrow(cfg: Config, idx: nat, a: Agent, act: Action, b: Agent)
    requires ValidConfig(cfg) && AgentStep(cfg, idx, a, act, b) && !a.pc.Resetting?
    ensures !b.pc.Resetting? && |b.c| == FIELDS && forall f | LT1000 <= f <= GTE10000 :: a.c[f] <= b.c[f]
  {
  }

  /** Never returns to its launcher. */
  predicate Stuck(pc: ExecPc) { pc.Leaked? || pc.Hung? }

  /** An executor never goes away, and a leaked or hung one stays so. */
  lemma StuckStays(cfg: Config, idx: nat, a: Agent, act: Action, b: Agent)
    requires ValidConfig(cfg) && AgentStep(cfg, idx, a, act, b)
    ensures |a.execs| <= |b.execs|
    ensures forall j | 0 <= j < |a.execs| && Stuck(a.execs[j].pc) :: b.execs[j] == a.execs[j]
  {
  }

  lemma StillFinished(cfg: Config, idx: nat, a: Agent, i: nat)
    requires AgentInv(cfg, idx, a) && a.pc.Returned?
    ensures i < |a.execs| ==> a.execs[i].pc.Finished?
  {
    if i < |a.execs| && !a.execs[i].pc.Finished? { OnePhaseAtATime(cfg, idx, a, i); }
  }

  lemma StillDone(cfg: Config, a: Agent, p: nat, s: nat)
    requires PhasesOk(cfg, a) && a.pc.Returned?
    ensures HasLane(a, p, s) ==> a.phases[p].lanes[s].pc.Done?
  {
  }
}
