/** Exactly when the promises about the Redis counters survive users that earlier jobs left behind.
    Each failing half brings such a user to the brink of a counter, lets Setup clear everything, and
    then lets the user count. */
module RedisLimits {
  import opened Sums
  import opened Runs
  import opened RedisPubSub
  import opened RedisProgress

  // ----- Setup while nobody moves -----

  ghost predicate AtSetup(s: State) { Inv(s) && s.setup == 0 }

  lemma {:induction false} FinishSetup(s: State) returns (t: State)
    requires Inv(s) && forall f | 0 <= f < FIELDS && Cleared(s, f) :: s.c[f] == 0
    ensures Reaches(Next, s, t) && Inv(t) && Ready(t) && t.users == s.users && t.total == s.total && t.prior == s.prior
    ensures forall f | 0 <= f < FIELDS :: t.c[f] == 0
    decreases FIELDS - s.setup
  {
    if Ready(s) {
      t := s;
      ReachSelf(Next, s);
    } else {
      var f := CLEARED[s.setup];
      var u := s.(setup := s.setup + 1, c := s.c[f := 0], base := s.base[f := SumOf(s.users, Contribution(f))]);
      assert SetupStep(s, u);
      NextKeeps(s, u);
      TurnIsOrder();
      t := FinishSetup(u);
      ReachFirst(Next, s, u, t);
    }
  }

  /** From a state in which a leftover is about to count, Setup and then that step: the one counter is
      off, all others are zero. */
  lemma LateCount(s0: State, s: State, i: nat, v: User, field: nat, delta: int) returns (tr: seq<State>)
    requires Init(s0) && Reaches(Next, s0, s) && AtSetup(s) && s.total == s0.total && i < |s.users| && field < FIELDS
    requires MainMoves(s.users[i], v, field, delta) || OwnRecvMoves(s.users[i], v, field, delta)
    ensures Broadcasting(tr) && tr[0] == s0 && Ready(Last(tr)) && |Last(tr).c| == FIELDS
    ensures Last(tr).total == s0.total && Last(tr).prior == |Last(tr).users|
    ensures forall f | 0 <= f < FIELDS :: Last(tr).c[f] == if f == field then delta else 0
  {
    var u := FinishSetup(s);
    var t := Takes(u, i, v, field, delta);
    ReachJoin(Next, s0, s, u);
    ReachStep(Next, s0, u, t);
    tr := RunTo(Init, Next, s0, t);
  }

  /** The steps by which a receiver logs an error; they do not depend on the rest of the state. */
  ghost predicate OwnRecvMoves(u: User, v: User, field: nat, delta: int) {
    && (u.recv.SubscribeLog? || u.recv.GarbledLog? || u.recv.ReceiveLog?)
    && v == u.(recv := if u.recv.GarbledLog? then Looping else Exited)
    && field == ERROR && delta == 1
  }

  // ----- a leftover of a given kind -----

  lemma {:induction false} UnusedIdExists(users: seq<User>) returns (uid: nat)
    ensures forall i | 0 <= i < |users| :: users[i].uid < uid
  {
    if users == [] {
      uid := 0;
    } else {
      var x := UnusedIdExists(users[..|users| - 1]);
      uid := x + users[|users| - 1].uid + 1;
    }
  }

  /** If not all leftovers are of a kind, one that is not can be had before Setup begins, provided that
      a user that has just started is not. */
  lemma SomeOther(s0: State, kind: User -> bool) returns (s: State, i: nat)
    requires Init(s0) && !AllLeftovers(s0, kind) && forall uid: nat :: !kind(Fresh(uid, 0))
    ensures Reaches(Next, s0, s) && AtSetup(s) && s.total == s0.total && i < |s.users| && !kind(s.users[i])
  {
    InitOk(s0);
    ReachSelf(Next, s0);
    if s0.relaunch {
      i := |s0.users|;
      var uid := UnusedIdExists(s0.users);
      s := s0.(users := s0.users + [Fresh(uid, 0)], prior := s0.prior + 1);
      assert Spawns(s0, uid, 0, s);
      NextKeeps(s0, s);
      ReachStep(Next, s0, s0, s);
    } else {
      s := s0;
      i :| 0 <= i < s0.prior && !kind(s0.users[i]);
    }
  }

  // ----- connected <= inprogress -----

  ghost predicate AlwaysConnectedWithin(s0: State) {
    forall tr: seq<State>, k: nat | Broadcasting(tr) && k < |tr| && tr[0] == s0 && Ready(tr[k]) && |tr[k].c| == FIELDS ::
      tr[k].c[CONNECTED] <= tr[k].c[INPROGRESS]
  }

  /** connected <= inprogress in every state of every run from s0 after Setup, if and only if every
      leftover's Execute has returned or never will. */
  lemma ConnectedIff(s0: State)
    requires Init(s0)
    ensures AlwaysConnectedWithin(s0) <==> AllLeftovers(s0, IsParked)
  {
    if AllLeftovers(s0, IsParked) {
      forall tr: seq<State>, k: nat | Broadcasting(tr) && k < |tr| && tr[0] == s0 && Ready(tr[k]) && |tr[k].c| == FIELDS
        ensures tr[k].c[CONNECTED] <= tr[k].c[INPROGRESS]
      {
        ConnectedWithinInProgress(tr, k);
      }
    } else {
      var s, i := SomeOther(s0, IsParked);
      var u := GoToLeaving(s, i);
      ReachJoin(Next, s0, s, u);
      var tr := LateCount(s0, u, i, u.users[i].(main := Left), INPROGRESS, -1);
      assert Last(tr) == tr[|tr| - 1];
    }
  }

  // ----- outcomes -----

  ghost predicate AlwaysBalanced(s0: State) {
    forall tr: seq<State>, k: nat | Broadcasting(tr) && k < |tr| && tr[0] == s0 && Ready(tr[k]) :: Balanced(tr[k])
  }

  predicate OnTheBrink(u: User) {
    || u.main.ParamLog? || u.main.PublishLog? || u.main.TimedOut? || u.main.Succeeding?
    || u.recv.SubscribeLog? || u.recv.GarbledLog? || u.recv.ReceiveLog?
  }

  /** An undecided user on its way out comes to record an outcome. */
  lemma {:induction false} GoToOutcome(s: State, i: nat) returns (t: State)
    requires Inv(s) && i < |s.users| && !Stranded(s.users[i]) && s.users[i].out.Undecided?
    ensures OnlyUser(s, i, t) && OnTheBrink(t.users[i])
    decreases StepsToLeave(s.users[i])
  {
    assert UserOk(i, s.users[i]);
    if OnTheBrink(s.users[i]) {
      t := s;
      ReachSelf(Next, s);
    } else {
      var u := StepOut(s, i);
      t := GoToOutcome(u, i);
      OnlyUserFirst(s, i, u, t);
    }
  }

  function StepsToLog(u: User): nat {
    match u.recv
    case Arrived(m) => if m.uid == u.uid then 4 else 3
    case Foreign => 3
    case Pushing => 3
    case Looping => 2
    case Subscribing => 1
    case Receiving => 1
    case Garbled => 1
    case _ => 0
  }

  function TowardsLog(u: User): (User, nat, int) {
    match u.recv
    case Arrived(m) => (u.(recv := if m.uid == u.uid then Pushing else Looping), RECV, 1)
    case Foreign => (u.(recv := Looping), RECV, 1)
    case Pushing => (u.(recv := Looping, queue := u.queue + [0]), 0, 0)
    case Looping => (u.(recv := Receiving), 0, 0)
    case Subscribing => (u.(recv := SubscribeLog, faults := u.faults + 1), 0, 0)
    case Receiving => (u.(recv := ReceiveLog, faults := u.faults + 1), 0, 0)
    case _ => (u.(recv := GarbledLog), RECV, 1)
  }

  lemma TowardsLogMoves(s: State, me: nat, u: User)
    requires UserOk(me, u) && CanLog(u) && !OnTheBrink(u)
    ensures var r := TowardsLog(u);
            && r.1 < FIELDS && CanLog(r.0) && StepsToLog(r.0) < StepsToLog(u)
            && RecvMoves(s, u, r.0, r.1, r.2)
  {
    if u.recv.Pushing? { RoomToPush(me, u); }
  }

  lemma {:induction false} GoToLog(s: State, i: nat) returns (t: State)
    requires Inv(s) && i < |s.users| && CanLog(s.users[i])
    ensures OnlyUser(s, i, t) && OnTheBrink(t.users[i])
    decreases StepsToLog(s.users[i])
  {
    if OnTheBrink(s.users[i]) {
      t := s;
      ReachSelf(Next, s);
    } else {
      assert UserOk(i, s.users[i]);
      TowardsLogMoves(s, i, s.users[i]);
      var r := TowardsLog(s.users[i]);
      var u := Takes(s, i, r.0, r.1, r.2);
      t := GoToLog(u, i);
      OnlyUserFirst(s, i, u, t);
    }
  }

  function Strike(u: User): (User, nat, int) {
    match u.main
    case ParamLog => (u.(main := Leaving, out := Failed), ERROR, 1)
    case PublishLog => (u.(main := Parting, out := Failed), ERROR, 1)
    case TimedOut => (u.(main := SetExit, out := Late), NOTRECVALL, 1)
    case Succeeding => (u.(main := SetExit, out := Ok), SUCCESS, 1)
    case _ => (u.(recv := if u.recv.GarbledLog? then Looping else Exited), ERROR, 1)
  }

  lemma StrikeMoves(u: User)
    requires OnTheBrink(u)
    ensures var r := Strike(u);
            && (MainMoves(u, r.0, r.1, r.2) || OwnRecvMoves(u, r.0, r.1, r.2))
            && r.1 in OUTCOMES && r.2 == 1
  {
  }

  /** success + notrecvall + error counts exactly this job's outcomes and receiver errors, in every state
      of every run from s0 after Setup, if and only if no leftover can still count. */
  lemma BalancedIff(s0: State)
    requires Init(s0)
    ensures AlwaysBalanced(s0) <==> AllLeftovers(s0, IsQuiet)
  {
    if AllLeftovers(s0, IsQuiet) {
      forall tr: seq<State>, k: nat | Broadcasting(tr) && k < |tr| && tr[0] == s0 && Ready(tr[k])
        ensures Balanced(tr[k])
      {
        OutcomesBalance(tr, k);
      }
    } else {
      var tr := OffBalance(s0);
      assert Last(tr) == tr[|tr| - 1];
    }
  }

  lemma OffBalance(s0: State) returns (tr: seq<State>)
    requires Init(s0) && !AllLeftovers(s0, IsQuiet)
    ensures Broadcasting(tr) && tr[0] == s0 && Ready(Last(tr)) && !Balanced(Last(tr))
  {
    var s, i := SomeOther(s0, IsQuiet);
    var u: State;
    if CanLog(s.users[i]) { u := GoToLog(s, i); } else { u := GoToOutcome(s, i); }
    ReachJoin(Next, s0, s, u);
    var r := Strike(u.users[i]);
    StrikeMoves(u.users[i]);
    tr := LateCount(s0, u, i, r.0, r.1, r.2);
    assert Last(tr).users[Last(tr).prior..] == [];
  }

  // ----- successes -----

  ghost predicate AlwaysPaid(s0: State) {
    forall tr: seq<State>, from: nat, at | Broadcasting(tr) && tr[0] == s0 && Reads(tr, from, at) ::
      Paid(s0.total, Snapshot(tr, from, at))
  }

  function Stage(u: User): nat {
    match u.main
    case Start => 7
    case Parsing => 6
    case WaitStart => if u.started then 4 else 5
    case Joining => 3
    case Publishing(_) => 2
    case Published(_) => 2
    case Draining(_) => 1
    case Logging(_, _) => 1
    case _ => 0
  }

  function Sub(n: nat, i: nat): nat { if i < n then n - i else 0 }

  function MessagesLeft(u: User): nat {
    match u.main
    case Publishing(i) => 2 * Sub(u.total, i) + 1
    case Published(i) => 2 * Sub(u.total, i)
    case Draining(i) => 2 * Sub(u.total, i) + 1
    case Logging(i, _) => 2 * Sub(u.total, i)
    case _ => 0
  }

  /** Steps of the receiver until recvChan holds something. */
  function StepsToPush(u: User): nat {
    if |u.queue| > 0 then 0 else
    match u.recv
    case Subscribing => 8
    case Garbled => 7
    case GarbledLog => 6
    case Foreign => 6
    case Looping => 5
    case Receiving => 4
    case Arrived(m) => if m.uid == u.uid then 3 else 6
    case Pushing => 2
    case _ => 0
  }

  ghost predicate Closer(v: User, u: User) {
    || Stage(v) < Stage(u)
    || (Stage(v) == Stage(u) && MessagesLeft(v) < MessagesLeft(u))
    || (Stage(v) == Stage(u) && MessagesLeft(v) == MessagesLeft(u) && StepsToPush(v) < StepsToPush(u))
  }

  function MainOnward(u: User): (User, nat, int) {
    match u.main
    case Start => (u.(main := Parsing), INPROGRESS, 1)
    case Parsing => (u.(main := WaitStart, recv := Subscribing), 0, 0)
    case WaitStart => if u.started then (u.(main := Joining), 0, 0) else (u.(recv := Looping, started := true), 0, 0)
    case Joining => (u.(main := Publishing(0)), CONNECTED, 1)
    case Publishing(i) =>
      if i < u.total then (u.(main := Published(i), attempts := u.attempts + 1), 0, 0) else (u.(main := Draining(0)), 0, 0)
    case Published(i) => (u.(main := Publishing(i + 1), sent := u.sent + 1), SEND, 1)
    case Draining(i) =>
      if i < u.total && |u.queue| > 0 then (u.(main := Logging(i, u.queue[0]), queue := u.queue[1..]), 0, 0)
      else (u.(main := Succeeding, fate := GotAll), 0, 0)
    case Logging(i, latency) => (u.(main := Draining(i + 1), logged := u.logged + [latency]), LatencyField(latency), 1)
    case _ => (u, 0, 0)
  }

  ghost predicate Starving(u: User) { u.main.Draining? && u.main.i < u.total && |u.queue| == 0 }

  lemma MainOnwardMoves(s: State, me: nat, u: User)
    requires UserOk(me, u) && CanSucceed(u) && !u.main.Succeeding? && !Starving(u)
    ensures var r := MainOnward(u);
            && r.1 < FIELDS && UserMoves(s, u, r.0, r.1, r.2) && CanSucceed(r.0) && Closer(r.0, u)
  {
    var r := MainOnward(u);
    if u.main.WaitStart? && !u.started { assert RecvMoves(s, u, r.0, r.1, r.2); } else { assert MainMoves(u, r.0, r.1, r.2); }
  }

  /** Some message of the user's own has not been delivered to it. */
  lemma {:induction false} Undelivered(got: set<Msg>, uid: nat, me: nat, n: nat) returns (no: nat)
    requires |Own(got, me)| < n
    ensures no < n && Msg(uid, me, no) !in got
  {
    var top := Msg(uid, me, n - 1);
    if top !in got {
      no := n - 1;
    } else {
      var rest := got - {top};
      assert Own(got, me) == Own(rest, me) + {top};
      no := Undelivered(rest, uid, me, n - 1);
    }
  }

  lemma TakesDelivery(s: State, i: nat) returns (v: User)
    requires UsersOk(s) && i < |s.users| && CanSucceed(s.users[i]) && Starving(s.users[i]) && s.users[i].recv.Receiving?
    ensures RecvMoves(s, s.users[i], v, 0, 0) && CanSucceed(v) && Closer(v, s.users[i])
  {
    var u := s.users[i];
    assert UserOk(i, u);
    var no := Undelivered(u.got, u.uid, i, u.total);
    var m := Msg(u.uid, i, no);
    assert AtBroker(s, m);
    v := u.(recv := Arrived(m), got := u.got + {m});
  }

  function RecvStep(u: User): (User, nat, int) {
    match u.recv
    case Subscribing => (u.(recv := Looping, started := true), 0, 0)
    case Looping => (u.(recv := Receiving), 0, 0)
    case Arrived(m) => (u.(recv := if m.uid == u.uid then Pushing else Looping), RECV, 1)
    case Foreign => (u.(recv := Looping), RECV, 1)
    case Garbled => (u.(recv := GarbledLog), RECV, 1)
    case GarbledLog => (u.(recv := Looping), ERROR, 1)
    case _ => (u.(recv := Looping, queue := u.queue + [0]), 0, 0)
  }

  lemma RecvStepMoves(s: State, me: nat, u: User)
    requires UserOk(me, u) && CanSucceed(u) && Starving(u) && !u.recv.Receiving?
    ensures var r := RecvStep(u);
            r.1 < FIELDS && RecvMoves(s, u, r.0, r.1, r.2) && CanSucceed(r.0) && Closer(r.0, u)
  {
    assert Listening(u.recv) && !u.exit;
  }

  /** One step of publisher or receiver towards success. */
  lemma Onward(s: State, i: nat) returns (v: User, field: nat, delta: int)
    requires UsersOk(s) && i < |s.users| && CanSucceed(s.users[i]) && !s.users[i].main.Succeeding?
    ensures field < FIELDS && UserMoves(s, s.users[i], v, field, delta) && CanSucceed(v) && Closer(v, s.users[i])
  {
    var u := s.users[i];
    assert UserOk(i, u);
    if !Starving(u) {
      MainOnwardMoves(s, i, u);
      var r := MainOnward(u);
      v, field, delta := r.0, r.1, r.2;
    } else if u.recv.Receiving? {
      v := TakesDelivery(s, i);
      field, delta := 0, 0;
    } else {
      RecvStepMoves(s, i, u);
      var r := RecvStep(u);
      v, field, delta := r.0, r.1, r.2;
    }
  }

  lemma {:induction false} GoToSuccess(s: State, i: nat) returns (t: State)
    requires Inv(s) && i < |s.users| && CanSucceed(s.users[i])
    ensures OnlyUser(s, i, t) && t.users[i].main.Succeeding?
    decreases Stage(s.users[i]), MessagesLeft(s.users[i]), StepsToPush(s.users[i])
  {
    if s.users[i].main.Succeeding? {
      t := s;
      ReachSelf(Next, s);
    } else {
      var v, field, delta := Onward(s, i);
      var next := Takes(s, i, v, field, delta);
      t := GoToSuccess(next, i);
      OnlyUserFirst(s, i, next, t);
    }
  }

  /** All fields may happen to be read in one state. */
  lemma InstantRead(tr: seq<State>) returns (at: seq<nat>)
    requires Broadcasting(tr) && Ready(Last(tr))
    ensures Reads(tr, |tr| - 1, at) && Snapshot(tr, |tr| - 1, at) == Last(tr).c
  {
    forall t | 0 <= t < |tr| ensures |tr[t].c| == FIELDS { AlwaysInv(tr, t); }
    var now: nat := |tr| - 1;
    at := seq(FIELDS, _ => now);
  }

  /** Every snapshot keeps totalMsgCnt * success within the messages sent and within the latency buckets if
      and only if totalMsgCnt is zero or no leftover can still reach success++. */
  lemma PaidIff(s0: State)
    requires Init(s0)
    ensures AlwaysPaid(s0) <==> Payable(s0)
  {
    if Payable(s0) {
      forall tr: seq<State>, from: nat, at | Broadcasting(tr) && tr[0] == s0 && Reads(tr, from, at)
        ensures Paid(s0.total, Snapshot(tr, from, at))
      {
        TornSnapshot(tr, from, at);
      }
    } else {
      var s, i := SomeOther(s0, NoSuccess);
      var u := GoToSuccess(s, i);
      ReachJoin(Next, s0, s, u);
      var tr := LateCount(s0, u, i, u.users[i].(main := SetExit, out := Ok), SUCCESS, 1);
      var at := InstantRead(tr);
    }
  }
}
