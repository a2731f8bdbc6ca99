/** Exactly when the queue sessions keep their promises: which leftovers of earlier jobs break the
    snapshots, and which subscriber goroutines never exit. */
module QueueLimits {
  import opened Arith
  import opened Sums
  import opened Runs
  import opened MassiveQueue

  // ----- driving one run -----

  /** The publisher will take what the subscriber offers. */
  ghost predicate WillMeet(b: Broker, q: Queue) { q.res.Unset? && !(b.RabbitMQ? && q.main.PublishLog?) }

  function Left(n: int, i: int): nat { if i < n then n - i else 0 }

  function MainStage(q: Queue): nat {
    match q.main
    case Start => 9
    case Opening => 8
    case Publishing(_) => 7
    case Sent(_) => 7
    case PublishLog(_) => 7
    case AwaitExit => 6
    case OpenLog => 5
    case Closing => 4
    case CloseLog => 3
    case Leaving => 2
    case Back => 1
    case Accounted => 0
  }

  function PublishesLeft(n: int, q: Queue): nat {
    match q.main
    case Publishing(i) => 2 * Left(n, i) + 1
    case Sent(i) => 2 * Max(1, Left(n, i))
    case PublishLog(i) => 2 * Max(1, Left(n, i))
    case _ => 0
  }

  function ReceivesLeft(n: int, q: Queue): nat {
    match q.sub
    case Receiving(i) => 2 * Left(n, i) + 1
    case Got(i) => 2 * Max(1, Left(n, i))
    case _ => 0
  }

  ghost predicate Closer(n: int, r: Queue, q: Queue) {
    || MainStage(r) < MainStage(q)
    || (MainStage(r) == MainStage(q) && PublishesLeft(n, r) < PublishesLeft(n, q))
    || (MainStage(r) == MainStage(q) && PublishesLeft(n, r) == PublishesLeft(n, q) && ReceivesLeft(n, r) < ReceivesLeft(n, q))
  }

  /** The next step of a run in which everything works: first the subscriber gets all it waits for,
      then the publisher goes on. */
  function Onward(n: int, q: Queue): (Queue, nat, int) {
    if q.sub.Receiving? && q.res.Unset? then
      (q.(sub := if q.sub.i < n then Got(q.sub.i) else Offering(true, false, q.sub.i)), 0, 0)
    else if q.sub.Got? && q.res.Unset? then
      (q.(sub := Receiving(q.sub.i + 1), received := q.received + 1), RECEIVED, 1)
    else match q.main
      case Start => (q.(main := Opening), INPROGRESS, 1)
      case Opening => (q.(main := Publishing(0), sub := Receiving(0)), 0, 0)
      case Publishing(i) => (q.(main := if i < n then Sent(i) else AwaitExit), 0, 0)
      case Sent(i) => (q.(main := Publishing(i + 1), published := q.published + 1), PUBLISHED, 1)
      case PublishLog(i) => (q.(main := Publishing(i + 1)), ERROR, 1)
      case AwaitExit =>
        if q.sub.Offering?
        then (q.(main := Closing, res := if q.sub.ok then Nil else Err,
                 sub := if q.sub.resume then Receiving(q.sub.i) else Exited), 0, 0)
        else (q, 0, 0)
      case Closing => (q.(main := Leaving), 0, 0)
      case CloseLog => (q.(main := Leaving), ERROR, 1)
      case OpenLog => (q.(main := Leaving), ERROR, 1)
      case _ => (q.(main := Back), INPROGRESS, -1)
  }

  lemma OnwardMoves(b: Broker, n: int, q: Queue)
    requires RunOk(q) && (WillMeet(b, q) || (!q.res.Unset? && !q.main.Back? && !q.main.Accounted?))
    ensures var r := Onward(n, q);
            && (MainMoves(b, n, q, r.0, r.1, r.2) || SubMoves(b, n, q, r.0, r.1, r.2))
            && r.1 < FIELDS && Closer(n, r.0, q)
  {
  }

  /** The run reaches a state in which its result is set, the way it was going to be. */
  lemma OnwardKeeps(b: Broker, n: int, q: Queue)
    requires RunOk(q) && WillMeet(b, q)
    ensures var r := Onward(n, q).0;
            && (WillMeet(b, r) || (r.res.Nil? <==> q.sub.Offering? && q.sub.ok))
            && (WillMeet(b, r) && q.sub.Offering? ==> r.sub == q.sub)
            && (WillMeet(b, r) && r.sub.Offering? && !q.sub.Offering? ==> r.sub.ok && !r.sub.resume)
            && (!WillMeet(b, r) ==> q.sub.Offering? && (r.sub.Exited? <==> !q.sub.resume) && r.main.Closing?)
  {
  }

  lemma Takes(s: State, i: nat, r: Queue, field: nat, delta: int) returns (t: State)
    requires Inv(s) && i < |s.runs| && field < FIELDS
    requires MainMoves(s.broker, s.messages, s.runs[i], r, field, delta)
          || SubMoves(s.broker, s.messages, s.runs[i], r, field, delta)
    ensures Next(s, t) && Inv(t)
    ensures t == s.(runs := s.runs[i := r], c := s.c[field := s.c[field] + delta])
  {
    t := s.(runs := s.runs[i := r], c := s.c[field := s.c[field] + delta]);
    assert Step(s, i, r, field, delta, t);
    NextKeeps(s, t);
  }

  /** t is s after steps of run i only. */
  ghost predicate OnlyRun(s: State, i: nat, t: State) {
    && Reaches(Next, s, t) && Inv(t) && i < |s.runs| == |t.runs|
    && t == s.(runs := s.runs[i := t.runs[i]], c := t.c)
  }

  /** Publisher and subscriber can be brought to meet on the exit channel. */
  lemma {:induction false} Meet(s: State, i: nat) returns (t: State)
    requires Inv(s) && i < |s.runs| && WillMeet(s.broker, s.runs[i])
    ensures OnlyRun(s, i, t) && t.runs[i].main.Closing?
    ensures var x := s.runs[i].sub;
            && (t.runs[i].res.Nil? <==> !(x.Offering? && !x.ok))
            && (t.runs[i].sub.Exited? <==> !(x.Offering? && x.resume))
    decreases MainStage(s.runs[i]), PublishesLeft(s.messages, s.runs[i]), ReceivesLeft(s.messages, s.runs[i])
  {
    var q := s.runs[i];
    OnwardMoves(s.broker, s.messages, q);
    OnwardKeeps(s.broker, s.messages, q);
    var r := Onward(s.messages, q);
    var u := Takes(s, i, r.0, r.1, r.2);
    if WillMeet(u.broker, u.runs[i]) {
      t := Meet(u, i);
    } else {
      t := u;
      ReachSelf(Next, t);
    }
    ReachFirst(Next, s, u, t);
  }

  lemma {:induction false} ComeBack(s: State, i: nat) returns (t: State)
    requires Inv(s) && i < |s.runs| && !s.runs[i].res.Unset? && !s.runs[i].main.Accounted?
    ensures OnlyRun(s, i, t) && t.runs[i].main.Back? && t.runs[i].res == s.runs[i].res
    decreases MainStage(s.runs[i])
  {
    var q := s.runs[i];
    if q.main.Back? {
      t := s;
      ReachSelf(Next, s);
    } else {
      OnwardMoves(s.broker, s.messages, q);
      var r := Onward(s.messages, q);
      var u := Takes(s, i, r.0, r.1, r.2);
      t := ComeBack(u, i);
      ReachFirst(Next, s, u, t);
    }
  }

  /** A run that can succeed can be brought to the brink of success++. */
  lemma BringBack(s: State, i: nat) returns (t: State)
    requires Inv(s) && i < |s.runs| && CanSucceed(s.broker, s.runs[i])
    ensures OnlyRun(s, i, t) && t.runs[i].main.Back? && t.runs[i].res.Nil?
  {
    var u := s;
    ReachSelf(Next, s);
    if s.runs[i].res.Unset? { u := Meet(s, i); }
    t := ComeBack(u, i);
    ReachJoin(Next, s, u, t);
  }

  // ----- Setup while nobody moves -----

  lemma {:induction false} FinishSetup(s: State) returns (t: State)
    requires Inv(s) && forall f | 0 <= f < FIELDS && Cleared(s, f) :: s.c[f] == 0
    ensures Reaches(Next, s, t) && Inv(t) && t.setup == READY && t.runs == s.runs
    ensures t.broker == s.broker && t.target == s.target && t.prior == s.prior
    ensures forall f | 0 <= f < FIELDS :: t.c[f] == 0
    decreases READY - s.setup
  {
    if s.setup == READY {
      t := s;
      ReachSelf(Next, s);
    } else {
      var u: State;
      if s.setup < FIELDS {
        var f := CLEARED[s.setup];
        u := s.(setup := s.setup + 1, c := s.c[f := 0], base := s.base[f := SumOf(s.runs, Contribution(f))]);
      } else {
        u := s.(setup := s.setup + 1, messages := if s.setup == FIELDS then 1 else s.target);
      }
      assert SetupStep(s, u);
      NextKeeps(s, u);
      t := FinishSetup(u);
      ReachFirst(Next, s, u, t);
    }
  }

  // ----- the exact condition -----

  /** In every run from s0, every snapshot after Setup has its successes paid for. */
  ghost predicate AlwaysPaid(s0: State) {
    forall tr: seq<State>, from: nat, at | Executing(tr) && tr[0] == s0 && Reads(tr, from, at) ::
      Paid(s0.broker, s0.target, Snapshot(tr, from, at))
  }

  ghost predicate AtSetup(s: State) { Inv(s) && s.setup == 0 }

  lemma SomeoneSucceeds(s0: State) returns (s: State, i: nat)
    requires Init(s0) && !NoneSucceeds(s0)
    ensures Reaches(Next, s0, s) && AtSetup(s) && s.broker == s0.broker && s.target == s0.target
    ensures i < |s.runs| && CanSucceed(s.broker, s.runs[i])
  {
    InitOk(s0);
    ReachSelf(Next, s0);
    if s0.relaunch {
      i := |s0.runs|;
      s := s0.(runs := s0.runs + [FRESH], prior := s0.prior + 1);
      assert Spawns(s0, s);
      NextKeeps(s0, s);
      ReachStep(Next, s0, s0, s);
    } else {
      s := s0;
      i :| 0 <= i < s0.prior && CanSucceed(s0.broker, s0.runs[i]);
    }
  }

  /** A leftover comes back from doQueue before the counters are cleared and counts its success after. */
  lemma LateSuccess(s0: State, s: State, i: nat) returns (tr: seq<State>)
    requires Init(s0) && Reaches(Next, s0, s) && AtSetup(s) && i < |s.runs| && CanSucceed(s.broker, s.runs[i])
    ensures Executing(tr) && tr[0] == s0 && Last(tr).setup == READY && |Last(tr).c| == FIELDS
    ensures Last(tr).c[SUCCESS] == 1 && Last(tr).c[RECEIVED] == 0
  {
    var s1 := BringBack(s, i);
    var s2 := FinishSetup(s1);
    var s3 := Takes(s2, i, s2.runs[i].(main := Accounted), SUCCESS, 1);
    ReachJoin(Next, s0, s, s1);
    ReachJoin(Next, s0, s1, s2);
    ReachStep(Next, s0, s2, s3);
    tr := RunTo(Init, Next, s0, s3);
  }

  /** All fields may happen to be read in one state. */
  lemma InstantRead(tr: seq<State>) returns (at: seq<nat>)
    requires Executing(tr) && Last(tr).setup == READY
    ensures Reads(tr, |tr| - 1, at) && Snapshot(tr, |tr| - 1, at) == Last(tr).c
  {
    forall t | 0 <= t < |tr| ensures |tr[t].c| == FIELDS { AlwaysInv(tr, t); }
    var now: nat := |tr| - 1;
    at := seq(FIELDS, _ => now);
  }

  /** Every snapshot of a job keeps success * queueMessages within the messages received (and, for
      RabbitMQ, published) if and only if queueMessages is not positive or no earlier job left a run,
      or an Execute that starts one, that can still reach success++. */
  lemma PaidIff(s0: State)
    requires Init(s0)
    ensures AlwaysPaid(s0) <==> s0.target <= 0 || NoneSucceeds(s0)
  {
    if s0.target <= 0 || NoneSucceeds(s0) {
      forall tr: seq<State>, from: nat, at | Executing(tr) && tr[0] == s0 && Reads(tr, from, at)
        ensures Paid(s0.broker, s0.target, Snapshot(tr, from, at))
      {
        TornSnapshot(tr, from, at);
      }
    } else {
      var s, i := SomeoneSucceeds(s0);
      var tr := LateSuccess(s0, s, i);
      var at := InstantRead(tr);
    }
  }

  // ----- outcomes -----

  /** Whatever a run is doing, it can come back to Execute. */
  lemma GoBack(s: State, i: nat) returns (t: State)
    requires Inv(s) && i < |s.runs| && !s.runs[i].main.Accounted?
    ensures OnlyRun(s, i, t) && t.runs[i].main.Back?
  {
    var q := s.runs[i];
    var u := s;
    ReachSelf(Next, s);
    if q.res.Unset? {
      if WillMeet(s.broker, q) {
        u := Meet(s, i);
      } else {
        u := Takes(s, i, q.(main := Closing, res := Err), ERROR, 1);
        ReachStep(Next, s, s, u);
      }
    }
    assert RunOk(u.runs[i]);
    t := ComeBack(u, i);
    ReachJoin(Next, s, u, t);
  }

  ghost predicate AlwaysBalanced(s0: State) {
    forall tr: seq<State>, k: nat | Executing(tr) && k < |tr| && tr[0] == s0 && tr[k].setup == READY :: Balanced(tr[k])
  }

  lemma SomeoneCounts(s0: State) returns (s: State, i: nat)
    requires Init(s0) && !AllAccounted(s0)
    ensures Reaches(Next, s0, s) && AtSetup(s) && i < |s.runs| && !s.runs[i].main.Accounted?
  {
    InitOk(s0);
    ReachSelf(Next, s0);
    if s0.relaunch {
      i := |s0.runs|;
      s := s0.(runs := s0.runs + [FRESH], prior := s0.prior + 1);
      assert Spawns(s0, s);
      NextKeeps(s0, s);
      ReachStep(Next, s0, s0, s);
    } else {
      s := s0;
      i :| 0 <= i < s0.prior && !s0.runs[i].main.Accounted?;
    }
  }

  lemma OffBalance(s0: State) returns (tr: seq<State>)
    requires Init(s0) && !AllAccounted(s0)
    ensures Executing(tr) && tr[0] == s0 && Last(tr).setup == READY && !Balanced(Last(tr))
  {
    var s, i := SomeoneCounts(s0);
    var s1 := GoBack(s, i);
    var s2 := FinishSetup(s1);
    var q := s2.runs[i];
    var s3 := Takes(s2, i, q.(main := Accounted), if q.res.Nil? then SUCCESS else ERROR, 1);
    ReachJoin(Next, s0, s, s1);
    ReachJoin(Next, s0, s1, s2);
    ReachStep(Next, s0, s2, s3);
    tr := RunTo(Init, Next, s0, s3);
    assert s3.runs[s3.prior..] == [];
  }

  /** The outcomes of every run from s0 are balanced after Setup if and only if Execute has counted every
      leftover. */
  lemma BalancedIff(s0: State)
    requires Init(s0)
    ensures AlwaysBalanced(s0) <==> AllAccounted(s0)
  {
    if AllAccounted(s0) {
      forall tr: seq<State>, k: nat | Executing(tr) && k < |tr| && tr[0] == s0 && tr[k].setup == READY
        ensures Balanced(tr[k])
      {
        OutcomesBalance(tr, k);
      }
    } else {
      var tr := OffBalance(s0);
      assert Last(tr) == tr[|tr| - 1];
    }
  }

  // ----- subscribers that never exit -----

  ghost function SubExited(i: nat): State -> bool { (s: State) => i < |s.runs| && s.runs[i].sub.Exited? }

  /** The subscriber has exited, or the publisher will take a value after which it does. */
  ghost predicate CanExit(b: Broker, q: Queue) {
    q.sub.Exited? || (WillMeet(b, q) && !(q.sub.Offering? && q.sub.resume))
  }

  lemma MovesKeepStuck(b: Broker, n: int, q: Queue, r: Queue, field: nat, delta: int)
    requires RunOk(q) && (MainMoves(b, n, q, r, field, delta) || SubMoves(b, n, q, r, field, delta))
    requires !CanExit(b, q)
    ensures !CanExit(b, r)
  {
  }

  lemma StuckStep(s: State, t: State, i: nat)
    requires Inv(s) && Next(s, t) && i < |s.runs| && !CanExit(s.broker, s.runs[i])
    ensures Inv(t) && i < |t.runs| && !CanExit(t.broker, t.runs[i])
  {
    NextKeeps(s, t);
    if j: nat, r, field: nat, delta :| Step(s, j, r, field, delta, t) {
      if j == i { MovesKeepStuck(s.broker, s.messages, s.runs[i], r, field, delta); }
    }
  }

  /** At every moment of every run, a subscriber goroutine can still exit if and only if its publisher
      has yet to take a value from the exit channel and will take one after which the subscriber
      returns: not a RabbitMQ publisher that failed, not one that gave up earlier, and not one offered
      a failed Pulsar receive after which the subscriber goes on. */
  lemma SubscriberCanExitIff(tr: seq<State>, i: nat)
    requires Executing(tr) && i < |Last(tr).runs|
    ensures Possible(Init, Next, tr, SubExited(i)) <==> CanExit(Last(tr).broker, Last(tr).runs[i])
  {
    var s := Last(tr);
    AlwaysInv(tr, |tr| - 1);
    if !CanExit(s.broker, s.runs[i]) {
      forall more | Executing(tr + more) ensures !SubExited(i)(Last(tr + more)) {
        var long := tr + more;
        var start := (x: State) => x == s;
        var inv := (x: State) => Inv(x) && i < |x.runs| && !CanExit(x.broker, x.runs[i]);
        forall x, y | inv(x) && Next(x, y) ensures inv(y) { StuckStep(x, y, i); }
        assert Run(start, Next, long[|tr| - 1..]);
        Always(start, Next, inv, long[|tr| - 1..], |more|);
      }
    } else {
      var t := s;
      ReachSelf(Next, s);
      if !s.runs[i].sub.Exited? { t := Meet(s, i); }
      ReachedIsPossible(Init, Next, tr, t, SubExited(i));
    }
  }
}
