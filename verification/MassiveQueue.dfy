/** The queue sessions of RabbitMQ and Pulsar (sessions/rabbitmq_massive_queue.go,
    sessions/pulsar_massive_queue.go): any number of concurrent doQueue runs, each a publisher and a
    subscriber goroutine that meet once on an unbuffered exit channel, over five shared counters.
    The two sessions share their shape and differ in what they do after a failure. A run begins with
    Setup, which clears the counters and overwrites the parameters of the one session object while
    doQueue runs of earlier jobs may still be under way. */
module MassiveQueue {
  import opened Arith
  import opened Sums
  import opened Runs

  datatype Broker = RabbitMQ | Pulsar

  // In the order in which Counters loads them.
  const INPROGRESS: nat := 0
  const SUCCESS: nat := 1
  const ERROR: nat := 2
  const PUBLISHED: nat := 3
  const RECEIVED: nat := 4
  const FIELDS: nat := 5

  datatype MainPc =
    | Start
    | Opening                 // channels, queue or topic, subscription
    | OpenLog                 // before error++
    | Publishing(i: int)
    | Sent(i: int)            // before published++
    | PublishLog(i: int)      // before error++
    | AwaitExit               // <-exitChan
    | Closing                 // deferred clean-up, which may fail
    | CloseLog                // before error++
    | Leaving                 // before inprogress--
    | Back                    // in Execute again
    | Accounted

  datatype SubPc =
    | Absent
    | Receiving(i: int)
    | Got(i: int)                          // acknowledged, before received++
    | Offering(ok: bool, resume: bool, i: int)  // blocked on exitChan; then goes on at i, or returns
    | Exited

  datatype Result = Unset | Nil | Err

  /** `failures`: receives or acknowledgements of this subscriber that failed; `openFails`, `publishFails`,
      `closeFails`: what went wrong in this run and is reported to the log. */
  datatype Queue = Queue(
    main: MainPc, sub: SubPc, res: Result, published: nat, received: nat, failures: nat,
    openFails: nat, publishFails: nat, closeFails: nat)

  /** `messages`: the field queueMessages, which every loop reads afresh; `target`: the value Setup gives
      it; `setup`: statements of Setup done; runs[..prior]: the leftovers; `relaunch`: an Execute of an
      earlier job may start more of them; base[f]: what they had contributed to counter f when it was
      cleared. */
  datatype State = State(
    broker: Broker, messages: int, target: int, setup: nat, prior: nat, relaunch: bool,
    runs: seq<Queue>, c: seq<int>, base: seq<int>)

  // In the order in which Setup clears them.
  const CLEARED: seq<nat> := [INPROGRESS, ERROR, SUCCESS, PUBLISHED, RECEIVED]

  /** Five counters, then queueMessages: its default and its parameter. */
  const READY: nat := 7

  function Turn(f: nat): nat {
    if f == INPROGRESS then 0 else if f == ERROR then 1 else if f == SUCCESS then 2 else if f == PUBLISHED then 3 else 4
  }

  predicate Cleared(s: State, f: nat) { f < FIELDS && Turn(f) < s.setup }

  // ----- steps -----

  ghost predicate MainMoves(b: Broker, n: int, q: Queue, r: Queue, field: nat, delta: int) {
    match q.main
    case Start => r == q.(main := Opening) && field == INPROGRESS && delta == 1
    case Opening =>
      && delta == 0
      && (|| r == q.(main := Publishing(0), sub := Receiving(0))
          || r == q.(main := Leaving, res := Err)
          || (b.RabbitMQ? && (|| r == q.(main := OpenLog, res := Err, openFails := q.openFails + 1)
                               || r == q.(main := Closing, res := Err))))
    case OpenLog =>
      && field == ERROR && delta == 1
      && (r == q.(main := Leaving) || r == q.(main := Closing))
    case Publishing(i) =>
      && delta == 0
      && if i < n then r == q.(main := Sent(i)) || r == q.(main := PublishLog(i), publishFails := q.publishFails + 1)
         else r == q.(main := AwaitExit)
    case Sent(i) =>
      r == q.(main := Publishing(i + 1), published := q.published + 1) && field == PUBLISHED && delta == 1
    case PublishLog(i) =>
      && field == ERROR && delta == 1
      && r == if b.RabbitMQ? then q.(main := Closing, res := Err) else q.(main := Publishing(i + 1))
    case AwaitExit =>
      && delta == 0 && q.sub.Offering?
      && r == q.(main := Closing, res := if q.sub.ok then Nil else Err,
                 sub := if q.sub.resume then Receiving(q.sub.i) else Exited)
    case Closing =>
      delta == 0 && (r == q.(main := Leaving) || r == q.(main := CloseLog, closeFails := q.closeFails + 1))
    case CloseLog => r == q.(main := Leaving) && field == ERROR && delta == 1
    case Leaving => r == q.(main := Back) && field == INPROGRESS && delta == -1
    case Back =>
      r == q.(main := Accounted) && field == (if q.res.Nil? then SUCCESS else ERROR) && delta == 1
    case Accounted => false
  }

  ghost predicate SubMoves(b: Broker, n: int, q: Queue, r: Queue, field: nat, delta: int) {
    match q.sub
    case Receiving(i) =>
      && delta == 0
      && if i < n then
           || r == q.(sub := Got(i))
           || r == q.(sub := Offering(false, false, i), failures := q.failures + 1)
           // Pulsar reports a failed receive and, once somebody took the report, tries the next one
           || (b.Pulsar? && r == q.(sub := Offering(false, true, i + 1), failures := q.failures + 1))
         else r == q.(sub := Offering(true, false, i))
    case Got(i) =>
      r == q.(sub := Receiving(i + 1), received := q.received + 1) && field == RECEIVED && delta == 1
    case _ => false
  }

  ghost predicate Step(s: State, i: nat, r: Queue, field: nat, delta: int, t: State) {
    && i < |s.runs| && |s.c| == FIELDS && field < FIELDS
    && (|| MainMoves(s.broker, s.messages, s.runs[i], r, field, delta)
        || SubMoves(s.broker, s.messages, s.runs[i], r, field, delta))
    && t == s.(runs := s.runs[i := r], c := s.c[field := s.c[field] + delta])
  }

  ghost const FRESH: Queue := Queue(Start, Absent, Unset, 0, 0, 0, 0, 0, 0)

  ghost predicate SetupStep(s: State, t: State) {
    && s.setup < READY && |s.c| == |s.base| == FIELDS
    && if s.setup < FIELDS then
         var f := CLEARED[s.setup];
         t == s.(setup := s.setup + 1, c := s.c[f := 0], base := s.base[f := SumOf(s.runs, Contribution(f))])
       else
         t == s.(setup := s.setup + 1, messages := if s.setup == FIELDS then 1 else s.target)
  }

  /** A doQueue run starts; one that starts before Setup is through belongs to an earlier job. */
  ghost predicate Spawns(s: State, t: State) {
    if s.setup == READY then t == s.(runs := s.runs + [FRESH])
    else s.relaunch && t == s.(runs := s.runs + [FRESH], prior := s.prior + 1)
  }

  ghost predicate Next(s: State, t: State) {
    || SetupStep(s, t)
    || Spawns(s, t)
    || exists i: nat, r, field: nat, delta :: Step(s, i, r, field, delta, t)
  }

  /** Setup begins, on a session with counters and parameters of any value and runs of earlier jobs. */
  ghost predicate Init(s: State) {
    && s.setup == 0 && s.prior == |s.runs| && |s.c| == |s.base| == FIELDS
    && forall i | 0 <= i < |s.runs| :: RunOk(s.runs[i])
  }

  ghost predicate Executing(tr: seq<State>) { Run(Init, Next, tr) }

  // ----- invariant -----

  function Bit(b: bool): int { if b then 1 else 0 }

  /** What went wrong on the way and has been logged. */
  function Logged(q: Queue): int {
    q.openFails + q.publishFails + q.closeFails - Bit(q.main.OpenLog? || q.main.PublishLog? || q.main.CloseLog?)
  }

  function Active(q: Queue): int { Bit(!q.main.Start? && !q.main.Back? && !q.main.Accounted?) }

  /** Runs that Execute has counted, by result. */
  function Delivered(q: Queue): int { Bit(q.main.Accounted? && q.res.Nil?) }
  function Erred(q: Queue): int { Bit(q.main.Accounted? && !q.res.Nil?) }

  function Contribution(f: nat): Queue -> int {
    (q: Queue) =>
      if f == INPROGRESS then Active(q)
      else if f == SUCCESS then Delivered(q)
      else if f == ERROR then Erred(q) + Logged(q)
      else if f == PUBLISHED then q.published
      else q.received
  }

  /** Before the publisher has its result the subscriber has not handed its own over. */
  ghost predicate RunOk(q: Queue) {
    && (q.res.Unset? <==> q.main in {Start, Opening, AwaitExit} || q.main.Publishing? || q.main.Sent? || q.main.PublishLog?)
    && (q.main.OpenLog? ==> q.res.Err?)
    && (q.main in {Start, Opening} ==> q.sub.Absent?)
    && (q.res.Unset? && q.main !in {Start, Opening} ==> q.sub.Receiving? || q.sub.Got? || q.sub.Offering?)
  }

  function Goal(n: int): nat { if n < 0 then 0 else n }

  ghost predicate SubOk(n: int, q: Queue) {
    && (q.sub.Absent? ==> q.received == 0 && q.failures == 0)
    && (q.failures == 0 ==>
          match q.sub
          case Absent => true
          case Receiving(i) => q.received == i <= Goal(n)
          case Got(i) => q.received == i < n
          case Offering(ok, resume, i) => ok && !resume && q.received == Goal(n)
          case Exited => q.received == Goal(n))
    // nobody has taken the report of the first failure yet
    && (q.failures > 0 && q.res.Unset? ==> q.sub.Offering? && !q.sub.ok)
  }

  ghost predicate MainOk(b: Broker, n: int, q: Queue) {
    && (q.main in {Start, Opening} ==> q.sub.Absent? && q.published == 0)
    && (q.res.Unset? <==> q.main in {Start, Opening, AwaitExit} || q.main.Publishing? || q.main.Sent? || q.main.PublishLog?)
    && (b.RabbitMQ? ==>
          && (q.main.Publishing? || q.main.Sent? || q.main.PublishLog? ==> q.published == q.main.i <= Goal(n))
          && (q.main.AwaitExit? || q.res.Nil? ==> q.published == Goal(n)))
    && (q.main.Sent? || q.main.PublishLog? ==> q.main.i < n)
    && (q.main in {Start, Opening} ==> q.publishFails == 0)
    && (q.main.Publishing? || q.main.Sent? ==> q.published + q.publishFails == q.main.i <= Goal(n))
    && (q.main.PublishLog? ==> q.published + q.publishFails == q.main.i + 1)
    && (q.main.AwaitExit? || q.res.Nil? ==> q.published + q.publishFails == Goal(n))
    && (q.res.Nil? ==> q.received == Goal(n) && q.failures == 0 && q.sub.Exited?)
  }

  ghost predicate OwnOk(b: Broker, n: int, q: Queue) { MainOk(b, n, q) && SubOk(n, q) }

  predicate Grows(f: nat) { f == SUCCESS || f == PUBLISHED || f == RECEIVED }

  ghost predicate RunsOk(s: State) {
    && (forall i | 0 <= i < |s.runs| :: RunOk(s.runs[i]))
    && (forall i | s.prior <= i < |s.runs| :: OwnOk(s.broker, s.target, s.runs[i]))
  }

  ghost predicate CountersOk(s: State) {
    && |s.c| == |s.base| == FIELDS && s.prior <= |s.runs|
    && (forall f | 0 <= f < FIELDS && Cleared(s, f) :: s.c[f] == SumOf(s.runs, Contribution(f)) - s.base[f])
    && (forall f | 0 <= f < FIELDS && Cleared(s, f) && Grows(f) :: s.base[f] <= SumOf(s.runs[..s.prior], Contribution(f)))
  }

  ghost predicate Inv(s: State) {
    && s.setup <= READY && s.prior <= |s.runs|
    && (s.setup < READY ==> |s.runs| == s.prior) && (s.setup == READY ==> s.messages == s.target)
    && RunsOk(s) && CountersOk(s)
  }

  lemma MainKeepsMain(b: Broker, n: int, q: Queue, r: Queue, field: nat, delta: int)
    requires MainOk(b, n, q) && SubOk(n, q) && MainMoves(b, n, q, r, field, delta)
    ensures MainOk(b, n, r)
  {
  }

  lemma MainKeepsSub(b: Broker, n: int, q: Queue, r: Queue, field: nat, delta: int)
    requires MainOk(b, n, q) && SubOk(n, q) && MainMoves(b, n, q, r, field, delta)
    ensures SubOk(n, r)
  {
    if !q.main.AwaitExit? && !q.main.Opening? { assert r.sub == q.sub && r.received == q.received && r.failures == q.failures; }
  }

  lemma SubKeepsQueue(b: Broker, n: int, q: Queue, r: Queue, field: nat, delta: int)
    requires MainOk(b, n, q) && SubOk(n, q) && SubMoves(b, n, q, r, field, delta)
    ensures MainOk(b, n, r) && SubOk(n, r)
  {
  }

  lemma MovesKeepRun(b: Broker, n: int, q: Queue, r: Queue, field: nat, delta: int)
    requires RunOk(q) && (MainMoves(b, n, q, r, field, delta) || SubMoves(b, n, q, r, field, delta))
    ensures RunOk(r)
  {
  }

  lemma MovesMatchCounter(b: Broker, n: int, q: Queue, r: Queue, field: nat, delta: int, g: nat)
    requires MainMoves(b, n, q, r, field, delta) || SubMoves(b, n, q, r, field, delta)
    requires g < FIELDS
    ensures Contribution(g)(r) - Contribution(g)(q) == if g == field then delta else 0
    ensures Grows(g) ==> Contribution(g)(q) <= Contribution(g)(r)
  {
  }

  lemma StepKeepsRuns(s: State, i: nat, r: Queue, field: nat, delta: int, t: State)
    requires Inv(s) && Step(s, i, r, field, delta, t)
    ensures RunsOk(t)
  {
    MovesKeepRun(s.broker, s.messages, s.runs[i], r, field, delta);
    if s.prior <= i {
      if MainMoves(s.broker, s.messages, s.runs[i], r, field, delta) {
        MainKeepsMain(s.broker, s.messages, s.runs[i], r, field, delta);
        MainKeepsSub(s.broker, s.messages, s.runs[i], r, field, delta);
      } else {
        SubKeepsQueue(s.broker, s.messages, s.runs[i], r, field, delta);
      }
    }
  }

  lemma StepKeepsCounters(s: State, i: nat, r: Queue, field: nat, delta: int, t: State)
    requires CountersOk(s) && Step(s, i, r, field, delta, t)
    ensures CountersOk(t)
  {
    SumUpdate(s.runs, i, r);
    if i < s.prior {
      SumUpdate(s.runs[..s.prior], i, r);
      assert t.runs[..s.prior] == s.runs[..s.prior][i := r];
    } else {
      assert t.runs[..s.prior] == s.runs[..s.prior];
    }
    forall g | 0 <= g < FIELDS
      ensures Contribution(g)(r) - Contribution(g)(s.runs[i]) == if g == field then delta else 0
      ensures Grows(g) ==> Contribution(g)(s.runs[i]) <= Contribution(g)(r)
    {
      MovesMatchCounter(s.broker, s.messages, s.runs[i], r, field, delta, g);
    }
  }

  lemma SetupKeeps(s: State, t: State)
    requires Inv(s) && SetupStep(s, t)
    ensures Inv(t)
  {
    assert s.runs[..s.prior] == s.runs;
  }

  lemma FreshContributesNothing(runs: seq<Queue>, f: nat)
    ensures SumOf(runs + [FRESH], Contribution(f)) == SumOf(runs, Contribution(f))
  {
    SumAppend(runs, FRESH);
    assert Contribution(f)(FRESH) == 0;
  }

  lemma SpawnKeepsCounters(s: State, t: State)
    requires CountersOk(s) && (s.setup < READY ==> |s.runs| == s.prior) && s.setup <= READY && Spawns(s, t)
    ensures CountersOk(t)
  {
    forall f | 0 <= f < FIELDS
      ensures SumOf(t.runs, Contribution(f)) == SumOf(s.runs, Contribution(f))
      ensures SumOf(t.runs[..t.prior], Contribution(f)) == SumOf(s.runs[..s.prior], Contribution(f))
    {
      FreshContributesNothing(s.runs, f);
      if s.setup == READY {
        assert t.runs[..t.prior] == s.runs[..s.prior];
      } else {
        assert t.runs[..t.prior] == t.runs && s.runs[..s.prior] == s.runs;
      }
    }
  }

  lemma SpawnKeeps(s: State, t: State)
    requires Inv(s) && Spawns(s, t)
    ensures Inv(t)
  {
    SpawnKeepsCounters(s, t);
    assert RunOk(FRESH) && OwnOk(s.broker, s.target, FRESH);
  }

  lemma NextKeeps(s: State, t: State)
    requires Inv(s) && Next(s, t)
    ensures Inv(t)
  {
    if SetupStep(s, t) {
      SetupKeeps(s, t);
    } else if i: nat, r, field: nat, delta :| Step(s, i, r, field, delta, t) {
      StepKeepsRuns(s, i, r, field, delta, t);
      StepKeepsCounters(s, i, r, field, delta, t);
    } else {
      SpawnKeeps(s, t);
    }
  }

  lemma InitOk(s: State)
    requires Init(s)
    ensures Inv(s)
  {
  }

  lemma AlwaysInv(tr: seq<State>, k: nat)
    requires Executing(tr) && k < |tr|
    ensures Inv(tr[k])
  {
    forall s | Init(s) ensures Inv(s) { InitOk(s); }
    forall s, t | Inv(s) && Next(s, t) ensures Inv(t) { NextKeeps(s, t); }
    Always(Init, Next, Inv, tr, k);
  }

  // ----- leftovers -----

  /** The run can still reach success++. */
  ghost predicate CanSucceed(b: Broker, q: Queue) {
    || (q.res.Nil? && !q.main.Accounted?)
    || (q.res.Unset? && !(q.sub.Offering? && !q.sub.ok) && !(b.RabbitMQ? && q.main.PublishLog?))
  }

  ghost predicate NoneSucceeds(s: State) {
    !s.relaunch && s.prior <= |s.runs| && forall i | 0 <= i < s.prior :: !CanSucceed(s.broker, s.runs[i])
  }

  /** No leftover can succeed, and none has since `success` was cleared. */
  ghost predicate Settled(s: State) {
    && NoneSucceeds(s) && |s.base| == FIELDS
    && (Cleared(s, SUCCESS) ==> s.base[SUCCESS] == SumOf(s.runs[..s.prior], Contribution(SUCCESS)))
  }

  lemma MovesKeepFailed(b: Broker, n: int, q: Queue, r: Queue, field: nat, delta: int)
    requires RunOk(q) && (MainMoves(b, n, q, r, field, delta) || SubMoves(b, n, q, r, field, delta))
    requires !CanSucceed(b, q)
    ensures !CanSucceed(b, r) && Contribution(SUCCESS)(r) == Contribution(SUCCESS)(q)
  {
  }

  lemma SettledStep(s: State, t: State)
    requires Inv(s) && Settled(s) && Next(s, t)
    ensures Settled(t)
  {
    if SetupStep(s, t) {
      assert s.runs[..s.prior] == s.runs;
    } else if i: nat, r, field: nat, delta :| Step(s, i, r, field, delta, t) {
      if i < s.prior {
        MovesKeepFailed(s.broker, s.messages, s.runs[i], r, field, delta);
        SumUpdate(s.runs[..s.prior], i, r);
        assert t.runs[..s.prior] == s.runs[..s.prior][i := r];
      } else {
        assert t.runs[..s.prior] == s.runs[..s.prior];
      }
    } else {
      assert t.runs[..s.prior] == s.runs[..s.prior];
    }
  }

  lemma SettledAlong(tr: seq<State>, k: nat)
    requires Executing(tr) && k < |tr| && NoneSucceeds(tr[0])
    ensures Inv(tr[k]) && Settled(tr[k])
  {
    AlwaysInv(tr, 0);
    var start := (s: State) => s == tr[0];
    var inv := (s: State) => Inv(s) && Settled(s);
    forall s, t | inv(s) && Next(s, t) ensures inv(t) { NextKeeps(s, t); SettledStep(s, t); }
    Always(start, Next, inv, tr, k);
  }

  // ----- results -----

  /** A doQueue run of this job returns nil only if its subscriber received and acknowledged every
      message without a single failure: a failure would have been the first, hence the only, value
      taken from the exit channel. Every publish was counted or reported as failed; for RabbitMQ none
      failed. */
  lemma NilMeansDelivered(tr: seq<State>, k: nat, i: nat)
    requires Executing(tr) && k < |tr| && tr[k].prior <= i < |tr[k].runs| && tr[k].runs[i].res.Nil?
    ensures var q := tr[k].runs[i];
            && q.received == Goal(tr[k].target) && q.failures == 0
            && q.published + q.publishFails == Goal(tr[k].target)
            && (tr[k].broker.RabbitMQ? ==> q.published == Goal(tr[k].target))
  {
    AlwaysInv(tr, k);
    assert OwnOk(tr[k].broker, tr[k].target, tr[k].runs[i]);
  }

  ghost predicate Pays(s: State, f: nat) { f == RECEIVED || (f == PUBLISHED && s.broker.RabbitMQ?) }

  lemma OwnPaidFor(s: State, f: nat)
    requires Inv(s) && Pays(s, f)
    ensures s.target * SumOf(s.runs[s.prior..], Contribution(SUCCESS)) <= SumOf(s.runs[s.prior..], Contribution(f))
  {
    var own := s.runs[s.prior..];
    forall i | 0 <= i < |own| ensures s.target * Contribution(SUCCESS)(own[i]) <= Contribution(f)(own[i]) {
      assert OwnOk(s.broker, s.target, s.runs[s.prior + i]);
    }
    SumScaledBound(own, Contribution(SUCCESS), s.target, own, Contribution(f));
  }

  lemma SplitSums(s: State, f: nat)
    requires s.prior <= |s.runs|
    ensures SumOf(s.runs, Contribution(f)) == SumOf(s.runs[..s.prior], Contribution(f)) + SumOf(s.runs[s.prior..], Contribution(f))
  {
    assert s.runs == s.runs[..s.prior] + s.runs[s.prior..];
    SumConcat(s.runs[..s.prior], s.runs[s.prior..], Contribution(f));
  }

  lemma GrowsFromZero(s: State, f: nat)
    requires Inv(s) && s.setup == READY && f < FIELDS && Grows(f)
    ensures SumOf(s.runs[s.prior..], Contribution(f)) <= s.c[f] && 0 <= s.c[f]
  {
    assert Cleared(s, f);
    SplitSums(s, f);
    SumNonNegative(s.runs[s.prior..], Contribution(f));
  }

  lemma SettledSuccess(s: State)
    requires Inv(s) && s.setup == READY && Settled(s)
    ensures s.c[SUCCESS] == SumOf(s.runs[s.prior..], Contribution(SUCCESS))
  {
    assert Cleared(s, SUCCESS);
    SplitSums(s, SUCCESS);
  }

  /** Once Setup is through, success * queueMessages <= msg_received (and, for RabbitMQ, msg_published),
      unless leftovers can succeed. */
  lemma SuccessPaidFor(s: State, f: nat)
    requires Inv(s) && s.setup == READY && Pays(s, f) && (s.target <= 0 || Settled(s))
    ensures s.target * s.c[SUCCESS] <= s.c[f]
  {
    GrowsFromZero(s, f);
    if Settled(s) {
      SettledSuccess(s);
      OwnPaidFor(s, f);
    } else {
      GrowsFromZero(s, SUCCESS);
      MulMono(-s.target, 0, s.c[SUCCESS]);
    }
  }

  /** What Setup wrote stays, and the message counters only grow after it. */
  ghost predicate Later(s: State, t: State) {
    && t.broker == s.broker && t.target == s.target
    && |s.c| == |t.c| == FIELDS
    && (s.setup == READY ==>
          t.setup == READY && s.c[PUBLISHED] <= t.c[PUBLISHED] && s.c[RECEIVED] <= t.c[RECEIVED])
  }

  lemma LaterStep(s: State, t: State)
    requires Inv(s) && Next(s, t)
    ensures Later(s, t)
  {
  }

  lemma LaterAlong(tr: seq<State>, t: nat, u: nat)
    requires Executing(tr) && t <= u < |tr|
    ensures Later(tr[t], tr[u])
  {
    forall k | 0 <= k < |tr| ensures Inv(tr[k]) { AlwaysInv(tr, k); }
    forall r, s, s' | Inv(s) && Later(r, s) && Next(s, s') ensures Later(r, s') { LaterStep(s, s'); }
    Ordered(Next, Inv, Later, tr, t, u);
  }

  function Fields(): State -> seq<int> { (s: State) => s.c }

  lemma CountersDominate(tr: seq<State>, from: nat, f: nat)
    requires Executing(tr) && from < |tr| && tr[from].setup == READY && Pays(tr[0], f)
    requires tr[0].target <= 0 || NoneSucceeds(tr[0])
    ensures Dominated(History(tr, Fields()), from, tr[0].target, SUCCESS, [f])
    ensures NeverDecreases(History(tr, Fields()), from, f)
  {
    var cs := History(tr, Fields());
    forall t | from <= t < |cs|
      ensures SUCCESS < |cs[t]| && tr[0].target * cs[t][SUCCESS] <= SumOf([f], Column(cs[t]))
    {
      AlwaysInv(tr, t);
      LaterAlong(tr, 0, t);
      LaterAlong(tr, from, t);
      if NoneSucceeds(tr[0]) { SettledAlong(tr, t); }
      SuccessPaidFor(tr[t], f);
      SumOfOne(f, Column(cs[t]));
    }
    forall t, u | from <= t <= u < |cs| ensures f < |cs[t]| && f < |cs[u]| && cs[t][f] <= cs[u][f] {
      LaterAlong(tr, from, t);
      LaterAlong(tr, t, u);
    }
  }

  /** A Counters call not before moment `from`, at which Setup was through. */
  ghost predicate Reads(tr: seq<State>, from: nat, at: seq<nat>) {
    && from < |tr| && tr[from].setup == READY && |at| == FIELDS && ReadTimes(at, |tr|) && from <= at[0]
    && forall t | 0 <= t < |tr| :: |tr[t].c| == FIELDS
  }

  ghost predicate Paid(b: Broker, n: int, v: seq<int>)
    requires |v| == FIELDS
  {
    n * v[SUCCESS] <= v[RECEIVED] && (b.RabbitMQ? ==> n * v[SUCCESS] <= v[PUBLISHED])
  }

  ghost function Snapshot(tr: seq<State>, from: nat, at: seq<nat>): (v: seq<int>)
    requires Reads(tr, from, at)
    ensures |v| == FIELDS && forall f | 0 <= f < FIELDS :: v[f] == tr[at[f]].c[f]
  {
    Torn(History(tr, Fields()), at)
  }

  /** Every snapshot, with its fields read at different moments of a concurrent run, has
      success * queueMessages <= msg_received, and for RabbitMQ also <= msg_published, unless
      leftovers of earlier jobs can succeed. */
  lemma TornSnapshot(tr: seq<State>, from: nat, at: seq<nat>)
    requires Executing(tr) && Reads(tr, from, at) && (tr[0].target <= 0 || NoneSucceeds(tr[0]))
    ensures Paid(tr[0].broker, tr[0].target, Snapshot(tr, from, at))
  {
    TornField(tr, from, at, RECEIVED);
    if tr[0].broker.RabbitMQ? { TornField(tr, from, at, PUBLISHED); }
  }

  lemma TornField(tr: seq<State>, from: nat, at: seq<nat>, f: nat)
    requires Executing(tr) && Reads(tr, from, at) && (tr[0].target <= 0 || NoneSucceeds(tr[0])) && Pays(tr[0], f)
    ensures tr[0].target * Snapshot(tr, from, at)[SUCCESS] <= Snapshot(tr, from, at)[f]
  {
    var cs := History(tr, Fields());
    CountersDominate(tr, from, f);
    TornBound(cs, from, at, tr[0].target, SUCCESS, [f]);
    SumOfOne(f, Column(Torn(cs, at)));
  }

  // ----- outcomes -----

  /** Leftovers that Execute has counted: their publisher side is through. */
  ghost predicate AllAccounted(s: State) {
    !s.relaunch && s.prior <= |s.runs| && forall i | 0 <= i < s.prior :: s.runs[i].main.Accounted?
  }

  ghost const OUTCOMES: set<nat> := {INPROGRESS, SUCCESS, ERROR, PUBLISHED}

  ghost predicate Undrifted(s: State) {
    && s.prior <= |s.runs| && |s.base| == FIELDS
    && forall f | f in OUTCOMES && Cleared(s, f) :: s.base[f] == SumOf(s.runs[..s.prior], Contribution(f))
  }

  lemma AccountedMoves(b: Broker, n: int, q: Queue, r: Queue, field: nat, delta: int, f: nat)
    requires q.main.Accounted? && (MainMoves(b, n, q, r, field, delta) || SubMoves(b, n, q, r, field, delta)) && f in OUTCOMES
    ensures r.main.Accounted? && Contribution(f)(r) == Contribution(f)(q)
  {
  }

  lemma AccountedMove(s: State, i: nat, r: Queue, field: nat, delta: int, t: State)
    requires AllAccounted(s) && Undrifted(s) && Step(s, i, r, field, delta, t)
    ensures AllAccounted(t) && Undrifted(t)
  {
    if i < s.prior {
      forall f | f in OUTCOMES ensures r.main.Accounted? && Contribution(f)(r) == Contribution(f)(s.runs[i]) {
        AccountedMoves(s.broker, s.messages, s.runs[i], r, field, delta, f);
      }
      AccountedMoves(s.broker, s.messages, s.runs[i], r, field, delta, SUCCESS);
      SumUpdate(s.runs[..s.prior], i, r);
      assert t.runs[..s.prior] == s.runs[..s.prior][i := r];
    } else {
      assert t.runs[..s.prior] == s.runs[..s.prior];
    }
  }

  lemma AccountedStep(s: State, t: State)
    requires Inv(s) && AllAccounted(s) && Undrifted(s) && Next(s, t)
    ensures AllAccounted(t) && Undrifted(t)
  {
    if SetupStep(s, t) {
      assert s.runs[..s.prior] == s.runs;
    } else if i: nat, r, field: nat, delta :| Step(s, i, r, field, delta, t) {
      AccountedMove(s, i, r, field, delta, t);
    } else {
      assert t.runs[..t.prior] == s.runs[..s.prior];
    }
  }

  lemma AccountedAlong(tr: seq<State>, k: nat)
    requires Executing(tr) && k < |tr| && AllAccounted(tr[0])
    ensures Inv(tr[k]) && AllAccounted(tr[k]) && Undrifted(tr[k])
  {
    AlwaysInv(tr, 0);
    var start := (s: State) => s == tr[0];
    var inv := (s: State) => Inv(s) && AllAccounted(s) && Undrifted(s);
    forall s, t | inv(s) && Next(s, t) ensures inv(t) { NextKeeps(s, t); AccountedStep(s, t); }
    Always(start, Next, inv, tr, k);
  }

  lemma OwnCounter(s: State, f: nat)
    requires Inv(s) && Undrifted(s) && s.setup == READY && f in OUTCOMES
    ensures s.c[f] == SumOf(s.runs[s.prior..], Contribution(f))
  {
    assert Cleared(s, f);
    SplitSums(s, f);
  }

  function PublishedBy(q: Queue): int { q.published }

  /** success counts this job's runs that delivered everything, error those that did not plus what was
      reported on the way while opening, publishing and closing; inprogress counts this job's runs under
      way, and msg_published its publishes that succeeded. */
  ghost predicate Balanced(s: State) {
    && |s.c| == FIELDS && s.prior <= |s.runs|
    && var own := s.runs[s.prior..];
    && s.c[SUCCESS] == SumOf(own, Delivered)
    && s.c[ERROR] == SumOf(own, Erred) + SumOf(own, Logged)
    && s.c[INPROGRESS] == SumOf(own, Active)
    && s.c[PUBLISHED] == SumOf(own, PublishedBy)
  }

  lemma {:induction false} OutcomeSums(runs: seq<Queue>)
    ensures SumOf(runs, Contribution(SUCCESS)) == SumOf(runs, Delivered)
    ensures SumOf(runs, Contribution(ERROR)) == SumOf(runs, Erred) + SumOf(runs, Logged)
    ensures SumOf(runs, Contribution(INPROGRESS)) == SumOf(runs, Active)
    ensures SumOf(runs, Contribution(PUBLISHED)) == SumOf(runs, PublishedBy)
  {
    if runs != [] { OutcomeSums(runs[..|runs| - 1]); }
  }

  /** After Setup the outcomes are balanced at every moment, unless leftovers are still to be counted. */
  lemma OutcomesBalance(tr: seq<State>, k: nat)
    requires Executing(tr) && k < |tr| && tr[k].setup == READY && AllAccounted(tr[0])
    ensures Balanced(tr[k])
  {
    AccountedAlong(tr, k);
    var s := tr[k];
    OwnCounter(s, SUCCESS);
    OwnCounter(s, ERROR);
    OwnCounter(s, INPROGRESS);
    OwnCounter(s, PUBLISHED);
    OutcomeSums(s.runs[s.prior..]);
  }
}
