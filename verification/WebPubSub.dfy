/** The Web PubSub echo session (sessions/webpubsub_echo.go): any number of concurrent executions,
    each a main goroutine and a reader goroutine that meet on unbuffered channels, over three shared
    counters that Setup clears while executions of earlier jobs may still be under way. */
module WebPubSub {
  import opened Sums
  import opened Runs

  // In the order in which Counters loads them.
  const INPROGRESS: nat := 0
  const SUCCESS: nat := 1
  const ERROR: nat := 2
  const FIELDS: nat := 3

  /** An incoming message, as far as the reader looks at it. */
  datatype Message = Message(kind: string, event: string, from: string, ackId: int, data: string)

  /** What the reader has for the main goroutine: a decoded message, or that the connection is gone. */
  datatype Item = Said(m: Message) | Gone

  /** The channel on which it offers that, and the value it sends there. */
  datatype Offer = Connected | Ack(id: int) | Group(data: string) | Unexpected | Close

  /** The reader's classification, first match first. */
  function Classify(m: Message): Offer {
    if m.kind == "system" && m.event == "connected" then Connected
    else if m.kind == "ack" then Ack(m.ackId)
    else if m.kind == "message" && m.from == "group" then Group(m.data)
    else Unexpected
  }

  function OfferOf(x: Item): Offer { if x.Gone? then Close else Classify(x.m) }

  datatype MainPc =
    | Start | Dialing
    | WaitConn                 // select: connected, error, close, timeout
    | Joining                  // about to send joinGroup with ack id 1
    | WaitAck                  // select: ack, error, close, timeout
    | Sending                  // about to send "foobar" with ack id 2
    | WaitEcho                 // select: ack, message, error, close, timeout
    | Logging                  // before error++
    | Succeeding               // before success++
    | Leaving                  // before inprogress--
    | Left

  datatype ReaderPc =
    | Absent | Reading
    | LoggingRead(close: bool) // before error++; then offers Gone, or returns
    | Offering(x: Item)
    | Exited

  datatype Outcome = Undecided | Ok | Failed

  /** `taken` is the history of what the main goroutine received from the reader, `faults` the failures the
      reader has met: a connection that broke, a message that does not decode. */
  datatype Exec = Exec(main: MainPc, reader: ReaderPc, out: Outcome, taken: seq<Item>, faults: nat)

  /** `setup`: counters Setup has cleared; execs[..prior]: executions left over from earlier jobs;
      `relaunch`: an earlier Run may start more of them; base[f]: what they had contributed to counter f
      when it was cleared. */
  datatype State = State(
    setup: nat, prior: nat, relaunch: bool, execs: seq<Exec>, c: seq<int>, base: seq<int>)

  // In the order in which Setup clears them.
  const CLEARED: seq<nat> := [INPROGRESS, ERROR, SUCCESS]

  function Turn(f: nat): nat { if f == INPROGRESS then 0 else if f == ERROR then 1 else 2 }

  predicate Cleared(s: State, f: nat) { f < FIELDS && Turn(f) < s.setup }

  predicate Ready(s: State) { s.setup == FIELDS }

  // ----- steps -----

  /** Where a select sends the main goroutine when it receives `o`; None when it does not listen on
      that channel, so that the reader stays blocked. */
  datatype Choice = Blocked | Goto(pc: MainPc)

  function Receive(pc: MainPc, o: Offer): Choice {
    match pc
    case WaitConn =>
      (match o case Connected => Goto(Joining) case Unexpected => Goto(Logging) case Close => Goto(Logging)
               case _ => Blocked)
    case WaitAck =>
      (match o case Ack(id) => Goto(if id != 1 then Logging else Sending)
               case Unexpected => Goto(Logging) case Close => Goto(Logging)
               case _ => Blocked)
    case WaitEcho =>
      (match o case Ack(id) => Goto(if id != 2 then Logging else WaitEcho)
               case Group(data) => Goto(if data != "foobar" then Logging else Succeeding)
               case Unexpected => Goto(Logging) case Close => Goto(Logging)
               case _ => Blocked)
    case _ => Blocked
  }

  /** A step of one execution and its effect on a counter. */
  ghost predicate Moves(e: Exec, f: Exec, field: nat, delta: int) {
    || MainMoves(e, f, field, delta)
    || ReaderMoves(e, f, field, delta)
    || (delta == 0 && e.reader.Offering?
        && var x := e.reader.x;
        var choice := Receive(e.main, OfferOf(x));
        && choice.Goto?
        && f == e.(main := choice.pc, taken := e.taken + [x], reader := if x.Gone? then Exited else Reading))
  }

  ghost predicate MainMoves(e: Exec, f: Exec, field: nat, delta: int) {
    match e.main
    case Start => f == e.(main := Dialing) && field == INPROGRESS && delta == 1
    case Dialing => delta == 0 && (f == e.(main := Logging) || f == e.(main := WaitConn, reader := Reading))
    case Joining => delta == 0 && (f == e.(main := Logging) || f == e.(main := WaitAck))
    case Sending => delta == 0 && (f == e.(main := Logging) || f == e.(main := WaitEcho))
    case Logging => f == e.(main := Leaving, out := Failed) && field == ERROR && delta == 1
    case Succeeding => f == e.(main := Leaving, out := Ok) && field == SUCCESS && delta == 1
    case Leaving => f == e.(main := Left) && field == INPROGRESS && delta == -1
    case Left => false
    case _ => delta == 0 && f == e.(main := Logging)   // the select's timeout
  }

  ghost predicate ReaderMoves(e: Exec, f: Exec, field: nat, delta: int) {
    match e.reader
    case Reading =>
      && delta == 0
      && (|| f == e.(reader := LoggingRead(true), faults := e.faults + 1)    // unexpected close
          || f == e.(reader := Offering(Gone))                               // normal close or local close
          || f == e.(reader := LoggingRead(false), faults := e.faults + 1)   // undecodable message
          || exists m :: f == e.(reader := Offering(Said(m))))
    case LoggingRead(close) =>
      && f == e.(reader := if close then Offering(Gone) else Exited) && field == ERROR && delta == 1
    case _ => false
  }

  ghost predicate Step(s: State, i: nat, f: Exec, field: nat, delta: int, t: State) {
    && i < |s.execs| && |s.c| == FIELDS && field < FIELDS
    && Moves(s.execs[i], f, field, delta)
    && t == s.(execs := s.execs[i := f], c := s.c[field := s.c[field] + delta])
  }

  const FRESH: Exec := Exec(Start, Absent, Undecided, [], 0)

  ghost predicate SetupStep(s: State, t: State) {
    && s.setup < FIELDS && |s.c| == |s.base| == FIELDS
    && var f := CLEARED[s.setup];
    t == s.(setup := s.setup + 1, c := s.c[f := 0], base := s.base[f := SumOf(s.execs, Contribution(f))])
  }

  /** An execution starts; one that starts before Setup is through belongs to an earlier job. */
  ghost predicate Spawns(s: State, t: State) {
    if Ready(s) then t == s.(execs := s.execs + [FRESH])
    else s.relaunch && t == s.(execs := s.execs + [FRESH], prior := s.prior + 1)
  }

  ghost predicate Next(s: State, t: State) {
    || SetupStep(s, t) || Spawns(s, t)
    || exists i: nat, f, field: nat, delta :: Step(s, i, f, field, delta, t)
  }

  /** Setup begins, on a session with counters of any value and executions of earlier jobs. */
  ghost predicate Init(s: State) {
    && s.setup == 0 && s.prior == |s.execs| && |s.c| == |s.base| == FIELDS
    && forall i | 0 <= i < |s.execs| :: ExecOk(s.execs[i])
  }

  ghost predicate Echoing(tr: seq<State>) { Run(Init, Next, tr) }

  // ----- what is counted -----

  /** Failures of the reader that are logged. */
  function ReaderLogs(e: Exec): int { e.faults - if e.reader.LoggingRead? then 1 else 0 }

  function Contribution(f: nat): Exec -> int {
    (e: Exec) =>
      if f == INPROGRESS then (if e.main.Start? || e.main.Left? then 0 else 1)
      else if f == SUCCESS then (if e.out.Ok? then 1 else 0)
      else (if e.out.Failed? then 1 else 0) + ReaderLogs(e)
  }

  // What the messages of an echo look like.
  predicate SaysConnected(x: Item) { x.Said? && x.m.kind == "system" && x.m.event == "connected" }
  predicate SaysAck(x: Item, id: int) { x.Said? && x.m.kind == "ack" && x.m.ackId == id }
  predicate SaysFoobar(x: Item) { x.Said? && x.m.kind == "message" && x.m.from == "group" && x.m.data == "foobar" }

  /** The exchange a successful echo consists of. */
  ghost predicate Script(h: seq<Item>) {
    && |h| >= 3 && SaysConnected(h[0]) && SaysAck(h[1], 1) && SaysFoobar(h[|h| - 1])
    && forall j | 2 <= j < |h| - 1 :: SaysAck(h[j], 2)
  }

  /** The exchange so far when the main goroutine waits for its echo. */
  ghost predicate Acked(h: seq<Item>) {
    |h| >= 2 && SaysConnected(h[0]) && SaysAck(h[1], 1) && forall j | 2 <= j < |h| :: SaysAck(h[j], 2)
  }

  lemma OfferMeans(x: Item)
    ensures OfferOf(x).Connected? <==> SaysConnected(x)
    ensures forall id :: OfferOf(x) == Ack(id) <==> SaysAck(x, id)
    ensures OfferOf(x) == Group("foobar") <==> SaysFoobar(x)
  {
  }

  ghost predicate ExecOk(e: Exec) {
    && e.faults <= 1
    && (e.faults == 1 ==> e.reader.LoggingRead? || e.reader == Offering(Gone) || e.reader.Exited?)
    && (e.reader.LoggingRead? ==> e.faults == 1)
    && (e.main in {Start, Dialing} ==> e.reader.Absent?)
    && (match e.main
        case Start => e.taken == []
        case Dialing => e.taken == []
        case WaitConn => e.taken == []
        case Joining => |e.taken| == 1 && SaysConnected(e.taken[0])
        case WaitAck => |e.taken| == 1 && SaysConnected(e.taken[0])
        case Sending => |e.taken| == 2 && SaysConnected(e.taken[0]) && SaysAck(e.taken[1], 1)
        case WaitEcho => Acked(e.taken)
        case Logging => !Script(e.taken)
        case Succeeding => Script(e.taken)
        case _ => Script(e.taken) == e.out.Ok?)
    && (e.out.Undecided? <==> !(e.main.Leaving? || e.main.Left?))
  }

  ghost predicate Inv(s: State) {
    && |s.c| == |s.base| == FIELDS && s.setup <= FIELDS && s.prior <= |s.execs|
    && (s.setup < FIELDS ==> |s.execs| == s.prior)
    && (forall i | 0 <= i < |s.execs| :: ExecOk(s.execs[i]))
    && (forall f | 0 <= f < FIELDS && Cleared(s, f) :: s.c[f] == SumOf(s.execs, Contribution(f)) - s.base[f])
  }

  lemma MovesKeepExec(e: Exec, f: Exec, field: nat, delta: int)
    requires ExecOk(e) && Moves(e, f, field, delta)
    ensures ExecOk(f)
  {
    if e.reader.Offering? { OfferMeans(e.reader.x); }
  }

  lemma MovesMatchCounter(e: Exec, f: Exec, field: nat, delta: int, g: nat)
    requires ExecOk(e) && Moves(e, f, field, delta) && g < FIELDS
    ensures Contribution(g)(f) - Contribution(g)(e) == if g == field then delta else 0
  {
  }

  lemma StepKeeps(s: State, i: nat, f: Exec, field: nat, delta: int, t: State)
    requires Inv(s) && Step(s, i, f, field, delta, t)
    ensures Inv(t)
  {
    MovesKeepExec(s.execs[i], f, field, delta);
    SumUpdate(s.execs, i, f);
    forall g | 0 <= g < FIELDS
      ensures Contribution(g)(f) - Contribution(g)(s.execs[i]) == if g == field then delta else 0
    {
      MovesMatchCounter(s.execs[i], f, field, delta, g);
    }
  }

  lemma NextKeeps(s: State, t: State)
    requires Inv(s) && Next(s, t)
    ensures Inv(t)
  {
    if i: nat, f, field: nat, delta :| Step(s, i, f, field, delta, t) {
      StepKeeps(s, i, f, field, delta, t);
    } else if Spawns(s, t) {
      SpawnKeeps(s, t);
    } else {
      SetupKeeps(s, t);
    }
  }

  lemma SpawnKeeps(s: State, t: State)
    requires Inv(s) && Spawns(s, t)
    ensures Inv(t)
  {
    SumAppend(s.execs, FRESH);
    forall f ensures Contribution(f)(FRESH) == 0 {}
  }

  lemma SetupKeeps(s: State, t: State)
    requires Inv(s) && SetupStep(s, t)
    ensures Inv(t)
  {
  }

  lemma AlwaysInv(tr: seq<State>, k: nat)
    requires Echoing(tr) && k < |tr|
    ensures Inv(tr[k])
  {
    forall s, t | Inv(s) && Next(s, t) ensures Inv(t) { NextKeeps(s, t); }
    Always(Init, Next, Inv, tr, k);
  }

  // ----- leftovers -----

  /** The execution has left and its reader can log nothing any more. */
  ghost predicate Silent(e: Exec) { e.main.Left? && !e.reader.Reading? && !e.reader.LoggingRead? }

  ghost predicate AllSilent(s: State) {
    !s.relaunch && s.prior <= |s.execs| && forall i | 0 <= i < s.prior :: Silent(s.execs[i])
  }

  /** No counter took anything from leftovers since it was cleared. */
  ghost predicate Undrifted(s: State) {
    && s.prior <= |s.execs| && |s.base| == FIELDS
    && forall f | 0 <= f < FIELDS && Cleared(s, f) :: s.base[f] == SumOf(s.execs[..s.prior], Contribution(f))
  }

  lemma SilentRests(e: Exec, f: Exec, field: nat, delta: int)
    ensures Silent(e) ==> !Moves(e, f, field, delta)
  {
  }

  lemma SilentStep(s: State, t: State)
    requires Inv(s) && AllSilent(s) && Undrifted(s) && Next(s, t)
    ensures AllSilent(t) && Undrifted(t)
  {
    if i: nat, f, field: nat, delta :| Step(s, i, f, field, delta, t) {
      SilentRests(s.execs[i], f, field, delta);
      assert s.prior <= i;
      assert t.execs[..t.prior] == s.execs[..s.prior];
    } else if SetupStep(s, t) {
      assert s.execs[..s.prior] == s.execs;
    } else {
      assert t.execs[..t.prior] == s.execs[..s.prior];
    }
  }

  lemma SilentAlong(tr: seq<State>, k: nat)
    requires Echoing(tr) && k < |tr| && AllSilent(tr[0])
    ensures Inv(tr[k]) && AllSilent(tr[k]) && Undrifted(tr[k])
  {
    AlwaysInv(tr, 0);
    var start := (s: State) => s == tr[0];
    var inv := (s: State) => Inv(s) && AllSilent(s) && Undrifted(s);
    forall s, t | inv(s) && Next(s, t) ensures inv(t) { NextKeeps(s, t); SilentStep(s, t); }
    Always(start, Next, inv, tr, k);
  }

  lemma OwnCounter(s: State, f: nat)
    requires Inv(s) && Undrifted(s) && Ready(s) && f < FIELDS
    ensures s.c[f] == SumOf(s.execs[s.prior..], Contribution(f))
  {
    assert Cleared(s, f);
    assert s.execs == s.execs[..s.prior] + s.execs[s.prior..];
    SumConcat(s.execs[..s.prior], s.execs[s.prior..], Contribution(f));
  }

  // ----- results -----

  /** An execution counts as a success exactly when the messages delivered to its main goroutine are a
      system message "connected", ack 1, any number of ack 2, and then a group message with data
      "foobar". */
  lemma SuccessIffScript(tr: seq<State>, k: nat, i: nat)
    requires Echoing(tr) && k < |tr| && i < |tr[k].execs|
    requires !tr[k].execs[i].out.Undecided?
    ensures tr[k].execs[i].out.Ok? <==> Script(tr[k].execs[i].taken)
  {
    AlwaysInv(tr, k);
    assert ExecOk(tr[k].execs[i]);
  }

  function Active(e: Exec): int { if e.main.Start? || e.main.Left? then 0 else 1 }

  /** An execution that has recorded its outcome, with the exchange of a successful echo or another. */
  ghost function Echoed(e: Exec): int { if !e.out.Undecided? && Script(e.taken) then 1 else 0 }
  ghost function Missed(e: Exec): int { if !e.out.Undecided? && !Script(e.taken) then 1 else 0 }

  /** success counts this job's executions that ended after the exchange of a successful echo, error all
      others that ended plus the failures logged by this job's readers, and inprogress this job's
      executions under way. */
  ghost predicate Balanced(s: State) {
    && |s.c| == FIELDS && s.prior <= |s.execs|
    && var own := s.execs[s.prior..];
    && s.c[SUCCESS] == SumOf(own, Echoed)
    && s.c[ERROR] == SumOf(own, Missed) + SumOf(own, ReaderLogs)
    && s.c[INPROGRESS] == SumOf(own, Active)
  }

  lemma {:induction false} OutcomeSums(execs: seq<Exec>)
    requires forall i | 0 <= i < |execs| :: ExecOk(execs[i])
    ensures SumOf(execs, Contribution(SUCCESS)) == SumOf(execs, Echoed)
    ensures SumOf(execs, Contribution(ERROR)) == SumOf(execs, Missed) + SumOf(execs, ReaderLogs)
    ensures SumOf(execs, Contribution(INPROGRESS)) == SumOf(execs, Active)
  {
    if execs != [] {
      assert ExecOk(execs[|execs| - 1]);
      OutcomeSums(execs[..|execs| - 1]);
    }
  }

  /** After Setup the books are balanced at every moment, unless leftovers can still count; and no reader
      ever logs more than one error. */
  lemma OutcomesBalance(tr: seq<State>, k: nat)
    requires Echoing(tr) && k < |tr|
    ensures Ready(tr[k]) && AllSilent(tr[0]) ==> Balanced(tr[k])
    ensures forall i | 0 <= i < |tr[k].execs| :: ReaderLogs(tr[k].execs[i]) <= 1
  {
    AlwaysInv(tr, k);
    var s := tr[k];
    if Ready(s) && AllSilent(tr[0]) {
      SilentAlong(tr, k);
      OwnCounter(s, SUCCESS);
      OwnCounter(s, ERROR);
      OwnCounter(s, INPROGRESS);
      OutcomeSums(s.execs[s.prior..]);
    }
    forall i | 0 <= i < |s.execs| ensures ReaderLogs(s.execs[i]) <= 1 { assert ExecOk(s.execs[i]); }
  }

  // ----- the exact condition -----

  ghost predicate AlwaysBalanced(s0: State) {
    forall tr: seq<State>, k: nat | Echoing(tr) && k < |tr| && tr[0] == s0 && Ready(tr[k]) :: Balanced(tr[k])
  }

  function StepsToLeave(e: Exec): nat {
    match e.main
    case Start => 4
    case Logging => 2
    case Succeeding => 2
    case Leaving => 1
    case Left => 0
    case _ => 3
  }

  lemma Takes(s: State, i: nat, f: Exec, field: nat, delta: int) returns (t: State)
    requires Inv(s) && i < |s.execs| && field < FIELDS && Moves(s.execs[i], f, field, delta)
    ensures Next(s, t) && Inv(t)
    ensures t == s.(execs := s.execs[i := f], c := s.c[field := s.c[field] + delta])
  {
    t := s.(execs := s.execs[i := f], c := s.c[field := s.c[field] + delta]);
    assert Step(s, i, f, field, delta, t);
    NextKeeps(s, t);
  }

  function TowardsExit(e: Exec): (Exec, nat, int) {
    match e.main
    case Start => (e.(main := Dialing), INPROGRESS, 1)
    case Logging => (e.(main := Leaving, out := Failed), ERROR, 1)
    case Succeeding => (e.(main := Leaving, out := Ok), SUCCESS, 1)
    case _ => (e.(main := Logging), 0, 0)
  }

  lemma TowardsExitMoves(e: Exec)
    requires !e.main.Leaving? && !e.main.Left?
    ensures var r := TowardsExit(e);
            && r.1 < FIELDS && Moves(e, r.0, r.1, r.2) && !r.0.main.Left?
            && StepsToLeave(r.0) < StepsToLeave(e)
  {
  }

  /** Whatever an execution waits for can time out. */
  lemma {:induction false} GoToLeaving(s: State, i: nat) returns (t: State)
    requires Inv(s) && s.setup == 0 && i < |s.execs| && !s.execs[i].main.Left?
    ensures Reaches(Next, s, t) && Inv(t) && t.setup == 0 && i < |t.execs| && t.execs[i].main.Leaving?
    decreases StepsToLeave(s.execs[i])
  {
    var e := s.execs[i];
    if e.main.Leaving? {
      t := s;
      ReachSelf(Next, s);
    } else {
      TowardsExitMoves(e);
      var r := TowardsExit(e);
      var u := Takes(s, i, r.0, r.1, r.2);
      t := GoToLeaving(u, i);
      ReachFirst(Next, s, u, t);
    }
  }

  lemma {:induction false} FinishSetup(s: State) returns (t: State)
    requires Inv(s) && forall f | 0 <= f < FIELDS && Cleared(s, f) :: s.c[f] == 0
    ensures Reaches(Next, s, t) && Inv(t) && Ready(t) && t.execs == s.execs && t.prior == s.prior
    ensures forall f | 0 <= f < FIELDS :: t.c[f] == 0
    decreases FIELDS - s.setup
  {
    if Ready(s) {
      t := s;
      ReachSelf(Next, s);
    } else {
      var f := CLEARED[s.setup];
      var u := s.(setup := s.setup + 1, c := s.c[f := 0], base := s.base[f := SumOf(s.execs, Contribution(f))]);
      assert SetupStep(s, u);
      NextKeeps(s, u);
      t := FinishSetup(u);
      ReachFirst(Next, s, u, t);
    }
  }

  /** A leftover that can still count is brought to where it does. */
  lemma BringToCount(s0: State) returns (s: State, i: nat, f: Exec, field: nat, delta: int)
    requires Init(s0) && !AllSilent(s0)
    ensures Reaches(Next, s0, s) && Inv(s) && s.setup == 0 && i < |s.execs| && field < FIELDS
    ensures Moves(s.execs[i], f, field, delta) && delta != 0
  {
    AlwaysInv([s0], 0);
    ReachSelf(Next, s0);
    var u := s0;
    if s0.relaunch {
      i := |s0.execs|;
      u := s0.(execs := s0.execs + [FRESH], prior := s0.prior + 1);
      assert Spawns(s0, u);
      NextKeeps(s0, u);
      ReachStep(Next, s0, s0, u);
    } else {
      i :| 0 <= i < s0.prior && !Silent(s0.execs[i]);
    }
    if !u.execs[i].main.Left? {
      s := GoToLeaving(u, i);
      ReachJoin(Next, s0, u, s);
      f, field, delta := s.execs[i].(main := Left), INPROGRESS, -1;
    } else {
      s := u;
      if u.execs[i].reader.Reading? {
        s := Takes(u, i, u.execs[i].(reader := LoggingRead(false), faults := u.execs[i].faults + 1), 0, 0);
        ReachStep(Next, s0, u, s);
      }
      var e := s.execs[i];
      f := e.(reader := if e.reader.close then Offering(Gone) else Exited);
      field, delta := ERROR, 1;
    }
  }

  lemma OffBalance(s0: State) returns (tr: seq<State>)
    requires Init(s0) && !AllSilent(s0)
    ensures Echoing(tr) && tr[0] == s0 && Ready(Last(tr)) && !Balanced(Last(tr))
  {
    var s, i, f, field, delta := BringToCount(s0);
    var u := FinishSetup(s);
    var t := Takes(u, i, f, field, delta);
    ReachJoin(Next, s0, s, u);
    ReachStep(Next, s0, u, t);
    tr := RunTo(Init, Next, s0, t);
    assert t.execs[t.prior..] == [];
  }

  /** The books of every run from s0 are balanced after Setup if and only if every leftover has left and
      its reader can log nothing any more. */
  lemma BalancedIff(s0: State)
    requires Init(s0)
    ensures AlwaysBalanced(s0) <==> AllSilent(s0)
  {
    if AllSilent(s0) {
      forall tr: seq<State>, k: nat | Echoing(tr) && k < |tr| && tr[0] == s0 && Ready(tr[k]) ensures Balanced(tr[k]) {
        OutcomesBalance(tr, k);
      }
    } else {
      var tr := OffBalance(s0);
      assert Last(tr) == tr[|tr| - 1];
    }
  }
}
