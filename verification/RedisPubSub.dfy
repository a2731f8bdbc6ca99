/** The Redis pub/sub session (sessions/redis_pubsub.go): concurrent users, each a publisher and a
    receiver goroutine that share a buffered channel and an exit flag, a broker that delivers every
    published message to every subscriber at most once, other agents that publish to the same channel,
    and eleven shared counters. */
module RedisPubSub {
  import opened Sums
  import opened Runs

  // In the order in which Counters loads them.
  const INPROGRESS: nat := 0
  const CONNECTED: nat := 1
  const SUCCESS: nat := 2
  const ERROR: nat := 3
  const NOTRECVALL: nat := 4
  const RECV: nat := 5
  const SEND: nat := 6
  const LAT100: nat := 7
  const LAT500: nat := 8
  const LAT1000: nat := 9
  const LATMORE: nat := 10
  const FIELDS: nat := 11

  function LatencyField(latency: int): (f: nat)
    ensures LAT100 <= f <= LATMORE
  {
    if latency < 100 then LAT100 else if latency < 500 then LAT500
    else if latency < 1000 then LAT1000 else LATMORE
  }

  /** The no-th message published by the from-th user, carrying that user's id. */
  datatype Msg = Msg(uid: nat, from: nat, no: nat)

  datatype MainPc =
    | Start | Parsing | ParamLog
    | WaitStart                 // <-startChan
    | Joining                   // before connected++
    | Publishing(i: nat)
    | Published(i: nat)         // before messages:send++
    | PublishLog                // before error++
    | Draining(i: nat)          // select: recvChan or the one-minute timeout
    | Logging(i: nat, latency: int)
    | TimedOut                  // before notrecvall++
    | Succeeding                // before success++
    | SetExit                   // deferred store of the exit flag
    | Parting                   // before connected--
    | Leaving                   // before inprogress--
    | Left

  datatype RecvPc =
    | Absent | Subscribing | SubscribeLog
    | Looping                   // tests the exit flag
    | Receiving
    | Arrived(m: Msg)           // before messages:recv++
    | Foreign                   // a message of another agent's user, before messages:recv++
    | Garbled | GarbledLog      // a message that does not decode
    | Pushing                   // recvChan <- latency
    | ReceiveLog                // before error++
    | Exited

  datatype Outcome = Undecided | Ok | Late | Failed

  datatype Fate = Open | BadParams | PublishFailed | TimeUp | GotAll

  /** `total`: totalMsgCnt, computed once from the job's parameters; `attempts`: publish calls made; `started`: startChan closed; `got`: messages the broker has
      delivered to this user; `queue`: recvChan; `logged`: latencies taken from it and recorded;
      `others`: messages received that no user of this process sent, undecodable ones included; `faults`:
      failures the receiver has met (to subscribe, to decode, to receive); `fate`: what ended the
      publisher's work. */
  datatype User = User(
    uid: nat, total: nat, main: MainPc, recv: RecvPc, exit: bool, started: bool, out: Outcome, attempts: nat, sent: nat,
    got: set<Msg>, queue: seq<int>, logged: seq<int>, others: nat, faults: nat, fate: Fate)

  /** `total`: totalMsgCnt of this job's users; `setup`: counters Setup has cleared; users[..prior]: users
      left over from earlier jobs; `relaunch`: an earlier Run may start more of them; base[f]: what they
      had contributed to counter f when it was cleared. */
  datatype State = State(
    total: nat, setup: nat, prior: nat, relaunch: bool, users: seq<User>, c: seq<int>, base: seq<int>)

  // In the order in which Setup clears them.
  const CLEARED: seq<nat> :=
    [INPROGRESS, CONNECTED, ERROR, NOTRECVALL, SUCCESS, RECV, SEND, LAT100, LAT500, LAT1000, LATMORE]

  function Turn(f: nat): nat {
    if f == ERROR then 2 else if f == NOTRECVALL then 3 else if f == SUCCESS then 4 else f
  }

  predicate Cleared(s: State, f: nat) { f < FIELDS && Turn(f) < s.setup }

  predicate Ready(s: State) { s.setup == FIELDS }

  // ----- steps -----

  ghost predicate EntryMoves(u: User, v: User, field: nat, delta: int) {
    match u.main
    case Start => v == u.(main := Parsing) && field == INPROGRESS && delta == 1
    case Parsing => delta == 0 && (v == u.(main := ParamLog, fate := BadParams) || v == u.(main := WaitStart, recv := Subscribing))
    case ParamLog => v == u.(main := Leaving, out := Failed) && field == ERROR && delta == 1
    case WaitStart => delta == 0 && u.started && v == u.(main := Joining)
    case Joining => v == u.(main := Publishing(0)) && field == CONNECTED && delta == 1
    case _ => false
  }

  ghost predicate PublisherMoves(u: User, v: User, field: nat, delta: int) {
    match u.main
    case Publishing(i) =>
      && delta == 0
      && if i < u.total
         then // a publish that reports an error may still have reached the broker
              || v == u.(main := Published(i), attempts := u.attempts + 1)
              || v == u.(main := PublishLog, attempts := u.attempts + 1, fate := PublishFailed)
              || v == u.(main := PublishLog, fate := PublishFailed)
         else v == u.(main := Draining(0))
    case Published(i) => v == u.(main := Publishing(i + 1), sent := u.sent + 1) && field == SEND && delta == 1
    case PublishLog => v == u.(main := Parting, out := Failed) && field == ERROR && delta == 1
    case _ => false
  }

  ghost predicate CollectorMoves(u: User, v: User, field: nat, delta: int) {
    match u.main
    case Draining(i) =>
      && delta == 0
      && if i < u.total
         then || (|u.queue| > 0 && v == u.(main := Logging(i, u.queue[0]), queue := u.queue[1..]))
              || v == u.(main := TimedOut, fate := TimeUp)
         else v == u.(main := Succeeding, fate := GotAll)
    case Logging(i, latency) =>
      && v == u.(main := Draining(i + 1), logged := u.logged + [latency])
      && field == LatencyField(latency) && delta == 1
    case TimedOut => v == u.(main := SetExit, out := Late) && field == NOTRECVALL && delta == 1
    case Succeeding => v == u.(main := SetExit, out := Ok) && field == SUCCESS && delta == 1
    case SetExit => delta == 0 && v == u.(main := Parting, exit := true)
    case Parting => v == u.(main := Leaving) && field == CONNECTED && delta == -1
    case Leaving => v == u.(main := Left) && field == INPROGRESS && delta == -1
    case _ => false
  }

  ghost predicate MainMoves(u: User, v: User, field: nat, delta: int) {
    || EntryMoves(u, v, field, delta)
    || PublisherMoves(u, v, field, delta)
    || CollectorMoves(u, v, field, delta)
  }

  ghost predicate AtBroker(s: State, m: Msg) {
    m.from < |s.users| && m.uid == s.users[m.from].uid && m.no < s.users[m.from].attempts
  }

  /** The receiver keeps a message exactly when it carries its own user id. */
  ghost predicate RecvMoves(s: State, u: User, v: User, field: nat, delta: int) {
    match u.recv
    case Subscribing => delta == 0 && (v == u.(recv := SubscribeLog, faults := u.faults + 1) || v == u.(recv := Looping, started := true))
    case SubscribeLog => v == u.(recv := Exited) && field == ERROR && delta == 1
    case Looping => delta == 0 && v == u.(recv := if u.exit then Exited else Receiving)
    case Receiving =>
      && delta == 0
      && (|| (exists m: Msg :: AtBroker(s, m) && m !in u.got
                            && v == u.(recv := Arrived(m), got := u.got + {m}))
          || v == u.(recv := Foreign, others := u.others + 1)
          || v == u.(recv := Garbled, others := u.others + 1, faults := u.faults + 1)
          || v == u.(recv := ReceiveLog, faults := u.faults + 1) || v == u.(recv := Exited))
    case Arrived(m) =>
      && v == u.(recv := if m.uid == u.uid then Pushing else Looping)
      && field == RECV && delta == 1
    case Foreign => v == u.(recv := Looping) && field == RECV && delta == 1
    case Garbled => v == u.(recv := GarbledLog) && field == RECV && delta == 1
    case GarbledLog => v == u.(recv := Looping) && field == ERROR && delta == 1
    case Pushing =>
      delta == 0 && |u.queue| < u.total && exists latency :: v == u.(recv := Looping, queue := u.queue + [latency])
    case ReceiveLog => v == u.(recv := Exited) && field == ERROR && delta == 1
    case _ => false
  }

  ghost predicate Step(s: State, i: nat, v: User, field: nat, delta: int, t: State) {
    && i < |s.users| && |s.c| == FIELDS && field < FIELDS
    && (|| MainMoves(s.users[i], v, field, delta)
        || RecvMoves(s, s.users[i], v, field, delta))
    && t == s.(users := s.users[i := v], c := s.c[field := s.c[field] + delta])
  }

  function Fresh(uid: nat, total: nat): User {
    User(uid, total, Start, Absent, false, false, Undecided, 0, 0, {}, [], [], 0, 0, Open)
  }

  /** User ids are generated unique. */
  ghost predicate UnusedId(s: State, uid: nat) { forall i | 0 <= i < |s.users| :: s.users[i].uid != uid }

  ghost predicate SetupStep(s: State, t: State) {
    && s.setup < FIELDS && |s.c| == |s.base| == FIELDS
    && var f := CLEARED[s.setup];
    t == s.(setup := s.setup + 1, c := s.c[f := 0], base := s.base[f := SumOf(s.users, Contribution(f))])
  }

  /** A user starts; one that starts before Setup is through belongs to an earlier job. */
  ghost predicate Spawns(s: State, uid: nat, total: nat, t: State) {
    && UnusedId(s, uid)
    && if Ready(s) then total == s.total && t == s.(users := s.users + [Fresh(uid, total)])
       else s.relaunch && t == s.(users := s.users + [Fresh(uid, total)], prior := s.prior + 1)
  }

  ghost predicate Next(s: State, t: State) {
    || SetupStep(s, t)
    || (exists uid: nat, total: nat :: Spawns(s, uid, total, t))
    || exists i: nat, v, field: nat, delta :: Step(s, i, v, field, delta, t)
  }

  /** Setup begins, on a session with counters of any value and users of earlier jobs. */
  ghost predicate Init(s: State) {
    s.setup == 0 && s.prior == |s.users| && |s.c| == |s.base| == FIELDS && UsersOk(s)
  }

  ghost predicate Broadcasting(tr: seq<State>) { Run(Init, Next, tr) }

  // ----- invariant -----

  function Bit(b: bool): int { if b then 1 else 0 }

  predicate IsConnected(pc: MainPc) {
    || pc.Publishing? || pc.Published? || pc.PublishLog? || pc.Draining? || pc.Logging?
    || pc.TimedOut? || pc.Succeeding? || pc.SetExit? || pc.Parting?
  }

  predicate IsUnderWay(pc: MainPc) { !pc.Start? && !pc.Left? }

  function InField(f: nat): int -> int { (latency: int) => Bit(LatencyField(latency) == f) }

  /** Failures of the receiver that have been logged. */
  function ReceiverLogs(u: User): int {
    u.faults - Bit(u.recv.SubscribeLog? || u.recv.Garbled? || u.recv.GarbledLog? || u.recv.ReceiveLog?)
  }

  /** Messages the receiver has received and counted. */
  function Heard(u: User): int { |u.got| + u.others - Bit(u.recv.Arrived? || u.recv.Foreign? || u.recv.Garbled?) }

  function Contribution(f: nat): User -> int {
    (u: User) =>
      if f == INPROGRESS then Bit(IsUnderWay(u.main))
      else if f == CONNECTED then Bit(IsConnected(u.main))
      else if f == SUCCESS then Bit(u.out.Ok?)
      else if f == ERROR then Bit(u.out.Failed?) + ReceiverLogs(u)
      else if f == NOTRECVALL then Bit(u.out.Late?)
      else if f == RECV then Heard(u)
      else if f == SEND then u.sent
      else SumOf(u.logged, InField(f))
  }

  ghost function Own(got: set<Msg>, me: nat): set<Msg> { set m | m in got && m.from == me }

  /** Latencies that have been put into recvChan so far, and one more while the receiver is on the way
      to put it there. */
  function Pushed(u: User): int {
    |u.queue| + |u.logged| + Bit(u.main.Logging?)
  }

  ghost predicate ProgressOk(u: User) {
    var total := u.total;
    && u.attempts <= total && u.sent <= u.attempts
    && (match u.main
        case Publishing(i) => i <= total && u.sent == i == u.attempts && u.logged == []
        case Published(i) => i < total && u.sent == i && u.attempts == i + 1 && u.logged == []
        case PublishLog => u.logged == []
        case Draining(i) => i <= total && u.sent == total && |u.logged| == i
        case Logging(i, _) => i < total && u.sent == total && |u.logged| == i
        case Succeeding => u.sent == total && |u.logged| == total
        case _ => u.main.TimedOut? || HasDecided(u.main) || (u.sent == u.attempts == 0 && u.logged == []))
    && (u.main.Start? || u.main.Parsing? || u.main.ParamLog? ==> u.recv.Absent?)
    && (u.recv.Absent? || u.recv.Subscribing? ==> !u.started)
    && (u.exit ==> u.main.Parting? || u.main.Leaving? || u.main.Left?)
    && (u.out.Ok? ==> u.sent == total && |u.logged| == total)
    && (u.out.Undecided? <==> !HasDecided(u.main))
    && FateOk(u)
  }

  ghost predicate FateOk(u: User) {
    && (u.main.ParamLog? ==> u.fate.BadParams?) && (u.main.PublishLog? ==> u.fate.PublishFailed?)
    && (u.main.TimedOut? ==> u.fate.TimeUp?) && (u.main.Succeeding? ==> u.fate.GotAll?)
    && (u.out.Ok? ==> u.fate.GotAll?) && (u.out.Late? ==> u.fate.TimeUp?)
    && (u.out.Failed? ==> u.fate.BadParams? || u.fate.PublishFailed?)
  }

  predicate HasDecided(pc: MainPc) { pc.SetExit? || pc.Parting? || pc.Leaving? || pc.Left? }

  /** What the broker delivered to user `me` of its own messages is what went through recvChan. */
  ghost predicate DeliveryOk(me: nat, u: User) {
    && (forall m | m in Own(u.got, me) :: m.uid == u.uid && m.no < u.attempts)
    && |Own(u.got, me)| == Pushed(u) + Bit(u.recv.Pushing? || (u.recv.Arrived? && u.recv.m.from == me))
  }

  ghost predicate UserOk(me: nat, u: User) { ProgressOk(u) && DeliveryOk(me, u) }

  ghost predicate IdsOk(s: State) {
    && (forall i, j | 0 <= i < j < |s.users| :: s.users[i].uid != s.users[j].uid)
    && (forall i | 0 <= i < |s.users| && s.users[i].recv.Arrived? :: AtBroker(s, s.users[i].recv.m))
  }

  ghost predicate UsersOk(s: State) { IdsOk(s) && forall i | 0 <= i < |s.users| :: UserOk(i, s.users[i]) }

  predicate Grows(f: nat) { f == SUCCESS || f == SEND || LAT100 <= f <= LATMORE }

  ghost predicate CountersOk(s: State) {
    && |s.c| == |s.base| == FIELDS && s.prior <= |s.users|
    && (forall f | 0 <= f < FIELDS && Cleared(s, f) :: s.c[f] == SumOf(s.users, Contribution(f)) - s.base[f])
    && (forall f | 0 <= f < FIELDS && Cleared(s, f) && Grows(f) :: s.base[f] <= SumOf(s.users[..s.prior], Contribution(f)))
  }

  ghost predicate Inv(s: State) {
    && s.setup <= FIELDS && s.prior <= |s.users| && (s.setup < FIELDS ==> |s.users| == s.prior)
    && UsersOk(s) && CountersOk(s)
    && (forall i | s.prior <= i < |s.users| :: s.users[i].total == s.total)
  }

  // ----- every step keeps it -----

  lemma EntryKeeps(me: nat, u: User, v: User, field: nat, delta: int)
    requires UserOk(me, u) && EntryMoves(u, v, field, delta)
    ensures UserOk(me, v)
  {
  }

  lemma PublisherKeeps(me: nat, u: User, v: User, field: nat, delta: int)
    requires UserOk(me, u) && PublisherMoves(u, v, field, delta)
    ensures UserOk(me, v)
  {
  }

  lemma CollectorKeeps(me: nat, u: User, v: User, field: nat, delta: int)
    requires UserOk(me, u) && CollectorMoves(u, v, field, delta)
    ensures UserOk(me, v)
  {
    CollectorKeepsProgress(u, v, field, delta);
    assert v.got == u.got && v.recv == u.recv && v.attempts == u.attempts;
  }

  lemma CollectorKeepsProgress(u: User, v: User, field: nat, delta: int)
    requires ProgressOk(u) && CollectorMoves(u, v, field, delta)
    ensures ProgressOk(v)
  {
  }

  lemma RecvKeepsProgress(s: State, u: User, v: User, field: nat, delta: int)
    requires ProgressOk(u) && RecvMoves(s, u, v, field, delta)
    ensures ProgressOk(v)
  {
    assert v == u.(recv := v.recv, started := v.started, got := v.got, queue := v.queue, others := v.others, faults := v.faults) && !u.recv.Absent?;
  }

  lemma RecvKeepsDelivery(s: State, me: nat, u: User, v: User, field: nat, delta: int)
    requires IdsOk(s) && me < |s.users| && u == s.users[me]
    requires DeliveryOk(me, u) && RecvMoves(s, u, v, field, delta)
    ensures DeliveryOk(me, v)
  {
    if u.recv.Receiving? && v.recv.Arrived? {
      ReceiveKeepsDelivery(s, me, u, v, v.recv.m);
    } else {
      assert v.got == u.got;
      if u.recv.Arrived? { assert AtBroker(s, u.recv.m); }
    }
  }

  lemma ReceiveKeepsDelivery(s: State, me: nat, u: User, v: User, m: Msg)
    requires me < |s.users| && u == s.users[me] && DeliveryOk(me, u) && u.recv.Receiving?
    requires AtBroker(s, m) && m !in u.got
    requires v == u.(recv := Arrived(m), got := u.got + {m})
    ensures DeliveryOk(me, v)
  {
    assert Own(v.got, me) == if m.from == me then Own(u.got, me) + {m} else Own(u.got, me);
  }

  lemma EntryMatchesCounter(u: User, v: User, field: nat, delta: int, g: nat)
    requires ProgressOk(u) && g < FIELDS && EntryMoves(u, v, field, delta)
    ensures Contribution(g)(v) - Contribution(g)(u) == if g == field then delta else 0
  {
  }

  lemma PublisherMatchesCounter(u: User, v: User, field: nat, delta: int, g: nat)
    requires ProgressOk(u) && g < FIELDS && PublisherMoves(u, v, field, delta)
    ensures Contribution(g)(v) - Contribution(g)(u) == if g == field then delta else 0
  {
  }

  lemma CollectorMatchesCounter(u: User, v: User, field: nat, delta: int, g: nat)
    requires ProgressOk(u) && g < FIELDS && CollectorMoves(u, v, field, delta)
    ensures Contribution(g)(v) - Contribution(g)(u) == if g == field then delta else 0
  {
    if u.main.Logging? {
      LoggingMatchesCounter(u, v, field, delta, g);
    } else {
      assert v.logged == u.logged && v.sent == u.sent;
    }
  }

  lemma LoggingMatchesCounter(u: User, v: User, field: nat, delta: int, g: nat)
    requires u.main.Logging? && v.main.Draining?
    requires v == u.(main := v.main, logged := u.logged + [u.main.latency])
    requires field == LatencyField(u.main.latency) && delta == 1
    ensures Contribution(g)(v) - Contribution(g)(u) == if g == field then delta else 0
  {
  }

  lemma RecvMatchesCounter(s: State, u: User, v: User, field: nat, delta: int, g: nat)
    requires g < FIELDS && RecvMoves(s, u, v, field, delta)
    ensures Contribution(g)(v) - Contribution(g)(u) == if g == field then delta else 0
  {
    if g == RECV {
      RecvMatchesHeard(s, u, v, field, delta);
    } else if g == ERROR {
      RecvMatchesLogs(s, u, v, field, delta);
    } else {
      assert v.main == u.main && v.out == u.out && v.sent == u.sent && v.logged == u.logged;
    }
  }

  lemma RecvMatchesHeard(s: State, u: User, v: User, field: nat, delta: int)
    requires RecvMoves(s, u, v, field, delta)
    ensures Heard(v) - Heard(u) == if field == RECV then delta else 0
  {
  }

  lemma RecvMatchesLogs(s: State, u: User, v: User, field: nat, delta: int)
    requires RecvMoves(s, u, v, field, delta)
    ensures ReceiverLogs(v) - ReceiverLogs(u) == (if field == ERROR then delta else 0) && v.out == u.out
  {
  }

  /** A step of one user. */
  ghost predicate UserMoves(s: State, u: User, v: User, field: nat, delta: int) {
    MainMoves(u, v, field, delta) || RecvMoves(s, u, v, field, delta)
  }

  lemma StepKeepsUser(s: State, i: nat, v: User, field: nat, delta: int)
    requires UsersOk(s) && i < |s.users| && UserMoves(s, s.users[i], v, field, delta)
    ensures UserOk(i, v)
  {
    var u := s.users[i];
    assert UserOk(i, u);
    if EntryMoves(u, v, field, delta) {
      EntryKeeps(i, u, v, field, delta);
    } else if PublisherMoves(u, v, field, delta) {
      PublisherKeeps(i, u, v, field, delta);
    } else if CollectorMoves(u, v, field, delta) {
      CollectorKeeps(i, u, v, field, delta);
    } else {
      RecvKeepsProgress(s, u, v, field, delta);
      RecvKeepsDelivery(s, i, u, v, field, delta);
    }
  }

  lemma MovesMatchCounter(s: State, u: User, v: User, field: nat, delta: int, g: nat)
    requires ProgressOk(u) && UserMoves(s, u, v, field, delta) && g < FIELDS
    ensures Contribution(g)(v) - Contribution(g)(u) == if g == field then delta else 0
  {
    if EntryMoves(u, v, field, delta) {
      EntryMatchesCounter(u, v, field, delta, g);
    } else if PublisherMoves(u, v, field, delta) {
      PublisherMatchesCounter(u, v, field, delta, g);
    } else if CollectorMoves(u, v, field, delta) {
      CollectorMatchesCounter(u, v, field, delta, g);
    } else {
      RecvMatchesCounter(s, u, v, field, delta, g);
    }
  }

  lemma MovesAddToGrowing(s: State, u: User, v: User, field: nat, delta: int)
    requires UserMoves(s, u, v, field, delta)
    ensures Grows(field) ==> delta >= 0
  {
  }

  lemma StepKeepsCounters(s: State, i: nat, v: User, field: nat, delta: int, t: State)
    requires CountersOk(s) && UsersOk(s) && Step(s, i, v, field, delta, t)
    ensures CountersOk(t)
  {
    var u := s.users[i];
    assert UserOk(i, u);
    SumUpdate(s.users, i, v);
    PriorAfter(s, i, v, t);
    MovesAddToGrowing(s, u, v, field, delta);
    forall g | 0 <= g < FIELDS
      ensures Contribution(g)(v) - Contribution(g)(u) == if g == field then delta else 0
    {
      MovesMatchCounter(s, u, v, field, delta, g);
    }
  }

  /** What the step of user i does to the sums over the leftovers. */
  lemma PriorAfter(s: State, i: nat, v: User, t: State)
    requires s.prior <= |s.users| && i < |s.users| && t.users == s.users[i := v] && t.prior == s.prior
    ensures forall f: User -> int ::
              SumOf(t.users[..t.prior], f) == SumOf(s.users[..s.prior], f) + if i < s.prior then f(v) - f(s.users[i]) else 0
  {
    if i < s.prior {
      SumUpdate(s.users[..s.prior], i, v);
      assert t.users[..s.prior] == s.users[..s.prior][i := v];
    } else {
      assert t.users[..s.prior] == s.users[..s.prior];
    }
  }

  lemma MainKeepsIds(u: User, v: User, field: nat, delta: int)
    requires ProgressOk(u) && MainMoves(u, v, field, delta)
    ensures v.uid == u.uid && v.attempts >= u.attempts && (v.recv == u.recv || v.recv.Subscribing?)
  {
  }

  lemma RecvKeepsIds(s: State, u: User, v: User, field: nat, delta: int)
    requires RecvMoves(s, u, v, field, delta)
    ensures v.uid == u.uid && v.attempts == u.attempts && (v.recv.Arrived? ==> AtBroker(s, v.recv.m))
  {
  }

  lemma StepKeepsIds(s: State, i: nat, v: User, field: nat, delta: int, t: State)
    requires UsersOk(s) && Step(s, i, v, field, delta, t)
    ensures IdsOk(t)
  {
    var u := s.users[i];
    assert UserOk(i, u);
    if MainMoves(u, v, field, delta) {
      MainKeepsIds(u, v, field, delta);
    } else {
      RecvKeepsIds(s, u, v, field, delta);
    }
    IdsAfter(s, i, v, t);
  }

  lemma IdsAfter(s: State, i: nat, v: User, t: State)
    requires IdsOk(s) && i < |s.users| && t.users == s.users[i := v]
    requires v.uid == s.users[i].uid && v.attempts >= s.users[i].attempts
    requires v.recv.Arrived? ==> v.recv == s.users[i].recv || AtBroker(s, v.recv.m)
    ensures IdsOk(t)
  {
  }

  lemma StepKeeps(s: State, i: nat, v: User, field: nat, delta: int, t: State)
    requires Inv(s) && Step(s, i, v, field, delta, t)
    ensures Inv(t)
  {
    StepKeepsUser(s, i, v, field, delta);
    StepKeepsIds(s, i, v, field, delta, t);
    StepKeepsCounters(s, i, v, field, delta, t);
    forall j | 0 <= j < |t.users| ensures UserOk(j, t.users[j]) { assert UserOk(j, s.users[j]); }
    StepKeepsTotal(s, i, v, field, delta);
  }

  lemma StepKeepsTotal(s: State, i: nat, v: User, field: nat, delta: int)
    requires i < |s.users| && UserMoves(s, s.users[i], v, field, delta)
    ensures v.total == s.users[i].total
  {
  }

  lemma SetupKeeps(s: State, t: State)
    requires Inv(s) && SetupStep(s, t)
    ensures Inv(t)
  {
    assert s.users[..s.prior] == s.users;
    forall j | 0 <= j < |t.users| ensures UserOk(j, t.users[j]) { assert UserOk(j, s.users[j]); }
    TurnIsOrder();
  }

  lemma TurnIsOrder()
    ensures |CLEARED| == FIELDS
    ensures forall k, f | 0 <= k < FIELDS && 0 <= f < FIELDS :: CLEARED[k] == f <==> Turn(f) == k
  {
  }

  lemma SpawnKeeps(s: State, uid: nat, total: nat, t: State)
    requires Inv(s) && Spawns(s, uid, total, t)
    ensures Inv(t)
  {
    SpawnKeepsUsers(s, uid, total, t);
    SpawnKeepsCounters(s, uid, total, t);
  }

  lemma SpawnKeepsUsers(s: State, uid: nat, total: nat, t: State)
    requires UsersOk(s) && UnusedId(s, uid) && t.users == s.users + [Fresh(uid, total)]
    ensures UsersOk(t)
  {
    forall j | 0 <= j < |t.users| ensures UserOk(j, t.users[j]) {
      if j < |s.users| { assert UserOk(j, s.users[j]); } else { assert Own({}, j) == {}; }
    }
  }

  lemma FreshContributesNothing(uid: nat, total: nat, f: nat)
    ensures Contribution(f)(Fresh(uid, total)) == 0
  {
  }

  lemma SpawnKeepsSums(s: State, uid: nat, total: nat, f: nat)
    ensures SumOf(s.users + [Fresh(uid, total)], Contribution(f)) == SumOf(s.users, Contribution(f))
  {
    SumAppend(s.users, Fresh(uid, total));
    FreshContributesNothing(uid, total, f);
  }

  lemma SpawnKeepsCounters(s: State, uid: nat, total: nat, t: State)
    requires CountersOk(s) && (s.setup < FIELDS ==> |s.users| == s.prior) && s.setup <= FIELDS && Spawns(s, uid, total, t)
    ensures CountersOk(t)
  {
    forall f | 0 <= f < FIELDS
      ensures SumOf(t.users, Contribution(f)) == SumOf(s.users, Contribution(f))
      ensures SumOf(t.users[..t.prior], Contribution(f)) == SumOf(s.users[..s.prior], Contribution(f))
    {
      SpawnKeepsSums(s, uid, total, f);
      if Ready(s) {
        assert t.users[..t.prior] == s.users[..s.prior];
      } else {
        assert t.users[..t.prior] == t.users && s.users[..s.prior] == s.users;
      }
    }
  }

  lemma NextKeeps(s: State, t: State)
    requires Inv(s) && Next(s, t)
    ensures Inv(t)
  {
    if SetupStep(s, t) {
      SetupKeeps(s, t);
    } else if i: nat, v, field: nat, delta :| Step(s, i, v, field, delta, t) {
      StepKeeps(s, i, v, field, delta, t);
    } else {
      var uid: nat, total: nat :| Spawns(s, uid, total, t);
      SpawnKeeps(s, uid, total, t);
    }
  }

  lemma InitOk(s: State)
    requires Init(s)
    ensures Inv(s)
  {
  }

  lemma AlwaysInv(tr: seq<State>, k: nat)
    requires Broadcasting(tr) && k < |tr|
    ensures Inv(tr[k])
  {
    forall s | Init(s) ensures Inv(s) { InitOk(s); }
    forall s, t | Inv(s) && Next(s, t) ensures Inv(t) { NextKeeps(s, t); }
    Always(Init, Next, Inv, tr, k);
  }

  // ----- leftovers -----

  /** Leftovers of this kind stay of this kind and leave these counters alone. */
  ghost predicate Harmless(kind: User -> bool, fields: set<nat>) {
    forall s, me: nat, u, v, field: nat, delta {:trigger UserOk(me, u), UserMoves(s, u, v, field, delta)} |
      kind(u) && UserOk(me, u) && UserMoves(s, u, v, field, delta) ::
      kind(v) && forall f | f in fields :: Contribution(f)(v) == Contribution(f)(u)
  }

  ghost predicate AllLeftovers(s: State, kind: User -> bool) {
    !s.relaunch && s.prior <= |s.users| && forall i | 0 <= i < s.prior :: kind(s.users[i])
  }

  /** All leftovers are of this kind, and these counters took nothing from them since they were cleared. */
  ghost predicate Calm(s: State, kind: User -> bool, fields: set<nat>) {
    && AllLeftovers(s, kind) && |s.base| == FIELDS
    && forall f | f in fields && Cleared(s, f) :: s.base[f] == SumOf(s.users[..s.prior], Contribution(f))
  }

  lemma CalmStep(s: State, t: State, kind: User -> bool, fields: set<nat>)
    requires Inv(s) && Calm(s, kind, fields) && Harmless(kind, fields) && Next(s, t)
    ensures Calm(t, kind, fields)
  {
    if SetupStep(s, t) {
      assert s.users[..s.prior] == s.users;
      TurnIsOrder();
    } else if i: nat, v, field: nat, delta :| Step(s, i, v, field, delta, t) {
      CalmMove(s, i, v, field, delta, t, kind, fields);
    } else {
      assert t.users[..t.prior] == s.users[..s.prior];
    }
  }

  lemma CalmMove(s: State, i: nat, v: User, field: nat, delta: int, t: State, kind: User -> bool, fields: set<nat>)
    requires UsersOk(s) && Calm(s, kind, fields) && Harmless(kind, fields) && Step(s, i, v, field, delta, t)
    ensures Calm(t, kind, fields)
  {
    PriorAfter(s, i, v, t);
    if i < s.prior {
      assert UserOk(i, s.users[i]) && UserMoves(s, s.users[i], v, field, delta);
    }
  }

  lemma CalmAlong(tr: seq<State>, k: nat, kind: User -> bool, fields: set<nat>)
    requires Broadcasting(tr) && k < |tr| && AllLeftovers(tr[0], kind) && Harmless(kind, fields)
    ensures Inv(tr[k]) && Calm(tr[k], kind, fields)
  {
    AlwaysInv(tr, 0);
    var start := (s: State) => s == tr[0];
    var inv := (s: State) => Inv(s) && Calm(s, kind, fields);
    forall s, t | inv(s) && Next(s, t) ensures inv(t) { NextKeeps(s, t); CalmStep(s, t, kind, fields); }
    Always(start, Next, inv, tr, k);
  }

  lemma SplitSums(s: State, f: nat)
    requires s.prior <= |s.users|
    ensures SumOf(s.users, Contribution(f)) == SumOf(s.users[..s.prior], Contribution(f)) + SumOf(s.users[s.prior..], Contribution(f))
  {
    assert s.users == s.users[..s.prior] + s.users[s.prior..];
    SumConcat(s.users[..s.prior], s.users[s.prior..], Contribution(f));
  }

  /** A counter that leftovers leave alone counts this job's users. */
  lemma CalmCounter(s: State, kind: User -> bool, fields: set<nat>, f: nat)
    requires Inv(s) && Ready(s) && Calm(s, kind, fields) && f in fields && f < FIELDS
    ensures s.c[f] == SumOf(s.users[s.prior..], Contribution(f))
  {
    assert Cleared(s, f);
    SplitSums(s, f);
  }

  lemma GrowsFromZero(s: State, f: nat)
    requires Inv(s) && Ready(s) && f < FIELDS && Grows(f)
    ensures SumOf(s.users[s.prior..], Contribution(f)) <= s.c[f]
  {
    assert Cleared(s, f);
    SplitSums(s, f);
  }

  /** Waiting for startChan, which nobody closes any more. */
  ghost predicate Stranded(u: User) { u.main.WaitStart? && !u.started && !u.recv.Subscribing? }

  predicate Listening(pc: RecvPc) { !pc.Absent? && !pc.SubscribeLog? && !pc.ReceiveLog? && !pc.Exited? }

  /** The user can still reach success++. */
  ghost predicate CanSucceed(u: User) {
    && u.out.Undecided? && !u.main.ParamLog? && !u.main.PublishLog? && !u.main.TimedOut? && !Stranded(u)
    && (u.main.Start? || u.main.Parsing? || Listening(u.recv) || u.total <= Pushed(u))
  }

  /** Execute has returned or never will. */
  ghost predicate Parked(u: User) { u.main.Left? || Stranded(u) }

  /** The receiver can still log an error. */
  ghost predicate CanLog(u: User) {
    || u.recv in {Subscribing, SubscribeLog, Receiving, Garbled, GarbledLog, ReceiveLog}
    || (!u.exit && Listening(u.recv))
  }

  /** The user can still add to success, notrecvall or error. */
  ghost predicate CanCount(u: User) { (u.out.Undecided? && !Stranded(u)) || CanLog(u) }

  ghost const NoSuccess: User -> bool := (u: User) => !CanSucceed(u)
  ghost const IsParked: User -> bool := (u: User) => Parked(u)
  ghost const IsQuiet: User -> bool := (u: User) => !CanCount(u)

  // ----- results -----

  lemma {:induction false} OwnAtMost(ms: set<Msg>, uid: nat, me: nat, n: nat)
    requires forall m | m in ms :: m.uid == uid && m.from == me && m.no < n
    ensures |ms| <= n
  {
    if n == 0 {
      assert ms == {};
    } else {
      var top := Msg(uid, me, n - 1);
      OwnAtMost(ms - {top}, uid, me, n - 1);
    }
  }

  /** The receiver never blocks on recvChan: whenever it holds a latency there is room for it. */
  lemma ReceiverNeverBlocks(tr: seq<State>, k: nat, i: nat)
    requires Broadcasting(tr) && k < |tr| && i < |tr[k].users| && tr[k].users[i].recv.Pushing?
    ensures |tr[k].users[i].queue| < tr[k].users[i].total
  {
    AlwaysInv(tr, k);
    RoomToPush(i, tr[k].users[i]);
  }

  lemma RoomToPush(me: nat, u: User)
    requires UserOk(me, u) && u.recv.Pushing?
    ensures |u.queue| < u.total
  {
    OwnAtMost(Own(u.got, me), u.uid, me, u.attempts);
  }


  ghost const OUTCOMES: set<nat> := {SUCCESS, NOTRECVALL, ERROR}

  lemma QuietIsHarmless()
    ensures Harmless(IsQuiet, OUTCOMES)
  {
    forall s, me: nat, u, v, field: nat, delta | IsQuiet(u) && UserOk(me, u) && UserMoves(s, u, v, field, delta)
      ensures IsQuiet(v) && forall f | f in OUTCOMES :: Contribution(f)(v) == Contribution(f)(u)
    {
      QuietMoves(s, me, u, v, field, delta);
      forall f | f in OUTCOMES ensures Contribution(f)(v) == Contribution(f)(u) { SameOutcome(u, v, f); }
    }
  }

  lemma SameOutcome(u: User, v: User, f: nat)
    requires ReceiverLogs(v) == ReceiverLogs(u) && v.out == u.out && f in OUTCOMES
    ensures Contribution(f)(v) == Contribution(f)(u)
  {
  }

  lemma QuietMoves(s: State, me: nat, u: User, v: User, field: nat, delta: int)
    requires !CanCount(u) && UserOk(me, u) && UserMoves(s, u, v, field, delta)
    ensures !CanCount(v) && ReceiverLogs(v) == ReceiverLogs(u) && v.out == u.out
  {
    if MainMoves(u, v, field, delta) { QuietMain(u, v, field, delta); } else { QuietRecv(s, u, v, field, delta); }
  }

  lemma QuietMain(u: User, v: User, field: nat, delta: int)
    requires !CanCount(u) && ProgressOk(u) && MainMoves(u, v, field, delta)
    ensures !CanCount(v) && ReceiverLogs(v) == ReceiverLogs(u) && v.out == u.out
  {
  }

  lemma QuietRecv(s: State, u: User, v: User, field: nat, delta: int)
    requires !CanCount(u) && RecvMoves(s, u, v, field, delta)
    ensures !CanCount(v) && ReceiverLogs(v) == ReceiverLogs(u) && v.out == u.out
  {
    assert v.main == u.main && v.exit == u.exit;
  }

  /** Users that have recorded their outcome, by what ended their work. */
  function Delivered(u: User): int { Bit(!u.out.Undecided? && u.fate.GotAll?) }
  function TimedOutUser(u: User): int { Bit(!u.out.Undecided? && u.fate.TimeUp?) }
  function FailedUser(u: User): int { Bit(!u.out.Undecided? && (u.fate.BadParams? || u.fate.PublishFailed?)) }

  /** success counts this job's users that got all their messages, notrecvall those that ran into the
      timeout, and error those with bad parameters or a failed publish plus the failures logged by this
      job's receivers. */
  ghost predicate Balanced(s: State) {
    && |s.c| == FIELDS && s.prior <= |s.users|
    && var own := s.users[s.prior..];
    && s.c[SUCCESS] == SumOf(own, Delivered)
    && s.c[NOTRECVALL] == SumOf(own, TimedOutUser)
    && s.c[ERROR] == SumOf(own, FailedUser) + SumOf(own, ReceiverLogs)
  }

  /** After Setup the outcomes are balanced at every moment, unless leftovers can still count. */
  lemma OutcomesBalance(tr: seq<State>, k: nat)
    requires Broadcasting(tr) && k < |tr| && Ready(tr[k]) && AllLeftovers(tr[0], IsQuiet)
    ensures Balanced(tr[k])
  {
    QuietIsHarmless();
    CalmAlong(tr, k, IsQuiet, OUTCOMES);
    CalmCounter(tr[k], IsQuiet, OUTCOMES, SUCCESS);
    CalmCounter(tr[k], IsQuiet, OUTCOMES, NOTRECVALL);
    CalmCounter(tr[k], IsQuiet, OUTCOMES, ERROR);
    forall i | 0 <= i < |tr[k].users[tr[k].prior..]| ensures ProgressOk(tr[k].users[tr[k].prior..][i]) {
      assert UserOk(tr[k].prior + i, tr[k].users[tr[k].prior + i]);
    }
    OutcomeSums(tr[k].users[tr[k].prior..]);
  }

  lemma {:induction false} OutcomeSums(users: seq<User>)
    requires forall i | 0 <= i < |users| :: ProgressOk(users[i])
    ensures SumOf(users, Contribution(SUCCESS)) == SumOf(users, Delivered)
    ensures SumOf(users, Contribution(NOTRECVALL)) == SumOf(users, TimedOutUser)
    ensures SumOf(users, Contribution(ERROR)) == SumOf(users, FailedUser) + SumOf(users, ReceiverLogs)
  {
    if users != [] {
      OutcomeOf(users[|users| - 1]);
      OutcomeSums(users[..|users| - 1]);
    }
  }

  lemma OutcomeOf(u: User)
    requires ProgressOk(u)
    ensures Contribution(SUCCESS)(u) == Delivered(u) && Contribution(NOTRECVALL)(u) == TimedOutUser(u)
    ensures Contribution(ERROR)(u) == FailedUser(u) + ReceiverLogs(u)
  {
  }

  lemma ParkedIsHarmless()
    ensures Harmless(IsParked, {INPROGRESS, CONNECTED})
  {
    forall s, me: nat, u, v, field: nat, delta | IsParked(u) && UserOk(me, u) && UserMoves(s, u, v, field, delta)
      ensures IsParked(v) && forall f | f in {INPROGRESS, CONNECTED} :: Contribution(f)(v) == Contribution(f)(u)
    {
      ParkedMoves(s, u, v, field, delta);
    }
  }

  lemma ParkedMoves(s: State, u: User, v: User, field: nat, delta: int)
    requires Parked(u) && UserMoves(s, u, v, field, delta)
    ensures Parked(v) && v.main == u.main
  {
  }

  function UnderWay(u: User): int { Bit(IsUnderWay(u.main)) }
  function Connected(u: User): int { Bit(IsConnected(u.main)) }

  /** After Setup, unless a leftover's Execute can still return: inprogress counts this job's users under
      way and connected those that are past their start, so that connected <= inprogress. */
  lemma ConnectedWithinInProgress(tr: seq<State>, k: nat)
    requires Broadcasting(tr) && k < |tr| && Ready(tr[k]) && AllLeftovers(tr[0], IsParked)
    ensures |tr[k].c| == FIELDS && tr[k].c[CONNECTED] <= tr[k].c[INPROGRESS] && tr[k].prior <= |tr[k].users|
    ensures tr[k].c[INPROGRESS] == SumOf(tr[k].users[tr[k].prior..], UnderWay)
    ensures tr[k].c[CONNECTED] == SumOf(tr[k].users[tr[k].prior..], Connected)
  {
    ParkedIsHarmless();
    var fields := {INPROGRESS, CONNECTED};
    CalmAlong(tr, k, IsParked, fields);
    CalmCounter(tr[k], IsParked, fields, INPROGRESS);
    CalmCounter(tr[k], IsParked, fields, CONNECTED);
    SumBound(tr[k].users[tr[k].prior..], Contribution(CONNECTED), Contribution(INPROGRESS));
    SumEqual(tr[k].users[tr[k].prior..], Contribution(INPROGRESS), tr[k].users[tr[k].prior..], UnderWay);
    SumEqual(tr[k].users[tr[k].prior..], Contribution(CONNECTED), tr[k].users[tr[k].prior..], Connected);
  }

  const LATENCIES: seq<nat> := [LAT100, LAT500, LAT1000, LATMORE]

  lemma LatencyColumns(v: seq<int>)
    requires |v| == FIELDS
    ensures SumOf(LATENCIES, Column(v)) == v[LAT100] + v[LAT500] + v[LAT1000] + v[LATMORE]
  {
    SumOfThree(LAT100, LAT500, LAT1000, Column(v));
    assert LATENCIES[..3] == [LAT100, LAT500, LAT1000];
  }

  /** Every recorded latency is in exactly one bucket. */
  lemma {:induction false} LatencyBuckets(logged: seq<int>)
    ensures SumOf(logged, InField(LAT100)) + SumOf(logged, InField(LAT500)) +
            SumOf(logged, InField(LAT1000)) + SumOf(logged, InField(LATMORE)) == |logged|
  {
    if logged != [] { LatencyBuckets(logged[..|logged| - 1]); }
  }

  function Recorded(u: User): int { |u.logged| }

  lemma {:induction false} LatencySum(users: seq<User>)
    ensures SumOf(users, Contribution(LAT100)) + SumOf(users, Contribution(LAT500)) +
            SumOf(users, Contribution(LAT1000)) + SumOf(users, Contribution(LATMORE)) == SumOf(users, Recorded)
  {
    if users != [] {
      LatencySum(users[..|users| - 1]);
      LatencyBuckets(users[|users| - 1].logged);
    }
  }

  lemma NoSuccessIsHarmless()
    ensures Harmless(NoSuccess, {SUCCESS})
  {
    forall s, me: nat, u, v, field: nat, delta | NoSuccess(u) && UserOk(me, u) && UserMoves(s, u, v, field, delta)
      ensures NoSuccess(v) && forall f | f in {SUCCESS} :: Contribution(f)(v) == Contribution(f)(u)
    {
      NoSuccessMoves(s, me, u, v, field, delta);
    }
  }

  lemma NoSuccessMoves(s: State, me: nat, u: User, v: User, field: nat, delta: int)
    requires !CanSucceed(u) && UserOk(me, u) && UserMoves(s, u, v, field, delta)
    ensures !CanSucceed(v) && v.out.Ok? == u.out.Ok?
  {
    if MainMoves(u, v, field, delta) {
      NoSuccessMain(u, v, field, delta);
    } else {
      NoSuccessRecv(s, u, v, field, delta);
    }
  }

  lemma NoSuccessRecv(s: State, u: User, v: User, field: nat, delta: int)
    requires !CanSucceed(u) && RecvMoves(s, u, v, field, delta)
    ensures !CanSucceed(v) && v.out.Ok? == u.out.Ok?
  {
    assert v.main == u.main && v.out == u.out && v.total == u.total && (u.started ==> v.started);
  }

  lemma NoSuccessMain(u: User, v: User, field: nat, delta: int)
    requires !CanSucceed(u) && ProgressOk(u) && MainMoves(u, v, field, delta)
    ensures !CanSucceed(v) && v.out.Ok? == u.out.Ok?
  {
  }

  /** A success of a user of this job stands for `total` messages sent and `total` latencies recorded. */
  lemma OwnPaidFor(s: State)
    requires Inv(s)
    ensures var own := s.users[s.prior..];
            && s.total * SumOf(own, Contribution(SUCCESS)) <= SumOf(own, Contribution(SEND))
            && s.total * SumOf(own, Contribution(SUCCESS)) <= SumOf(own, Recorded)
  {
    var own := s.users[s.prior..];
    forall i | 0 <= i < |own|
      ensures s.total * Contribution(SUCCESS)(own[i]) <= Contribution(SEND)(own[i])
      ensures s.total * Contribution(SUCCESS)(own[i]) <= Recorded(own[i])
    {
      assert UserOk(s.prior + i, own[i]);
    }
    SumScaledBound(own, Contribution(SUCCESS), s.total, own, Contribution(SEND));
    SumScaledBound(own, Contribution(SUCCESS), s.total, own, Recorded);
  }

  /** Leftovers that cannot succeed, or a price of nothing, leave only this job's successes to pay for. */
  lemma OwnPrice(s: State)
    requires Inv(s) && Ready(s) && (s.total == 0 || Calm(s, NoSuccess, {SUCCESS}))
    ensures s.total * s.c[SUCCESS] == s.total * SumOf(s.users[s.prior..], Contribution(SUCCESS))
  {
    if s.total != 0 { CalmCounter(s, NoSuccess, {SUCCESS}, SUCCESS); }
  }

  lemma LatenciesGrow(s: State)
    requires Inv(s) && Ready(s)
    ensures SumOf(s.users[s.prior..], Recorded) <= s.c[LAT100] + s.c[LAT500] + s.c[LAT1000] + s.c[LATMORE]
  {
    GrowsFromZero(s, LAT100);
    GrowsFromZero(s, LAT500);
    GrowsFromZero(s, LAT1000);
    GrowsFromZero(s, LATMORE);
    LatencySum(s.users[s.prior..]);
  }

  /** At every moment after Setup: successes are paid for, unless leftovers can succeed. */
  lemma SuccessPaidFor(s: State)
    requires Inv(s) && Ready(s) && (s.total == 0 || Calm(s, NoSuccess, {SUCCESS}))
    ensures s.total * s.c[SUCCESS] <= s.c[SEND]
    ensures s.total * s.c[SUCCESS] <= s.c[LAT100] + s.c[LAT500] + s.c[LAT1000] + s.c[LATMORE]
  {
    OwnPrice(s);
    OwnPaidFor(s);
    GrowsFromZero(s, SEND);
    LatenciesGrow(s);
  }

  ghost predicate Later(s: State, t: State) {
    && t.total == s.total && |s.c| == |t.c| == FIELDS
    && (Ready(s) ==> Ready(t) && forall f | 0 <= f < FIELDS && Grows(f) :: s.c[f] <= t.c[f])
  }

  lemma StepOrder(s: State, t: State)
    requires Inv(s) && Next(s, t)
    ensures Later(s, t)
  {
    if i: nat, v, field: nat, delta :| Step(s, i, v, field, delta, t) {
      MovesAddToGrowing(s, s.users[i], v, field, delta);
    }
  }

  lemma LaterAlong(tr: seq<State>, t: nat, u: nat)
    requires Broadcasting(tr) && t <= u < |tr|
    ensures Later(tr[t], tr[u])
  {
    forall k | 0 <= k < |tr| ensures Inv(tr[k]) { AlwaysInv(tr, k); }
    forall r, s, s' | Inv(s) && Later(r, s) && Next(s, s') ensures Later(r, s') { StepOrder(s, s'); }
    Ordered(Next, Inv, Later, tr, t, u);
  }

  function Fields(): State -> seq<int> { (s: State) => s.c }

  /** The leftovers do not stand in the way of the promise about successes. */
  ghost predicate Payable(s: State) { s.total == 0 || AllLeftovers(s, NoSuccess) }

  lemma PaidAlong(tr: seq<State>, from: nat, t: nat)
    requires Broadcasting(tr) && from <= t < |tr| && Ready(tr[from]) && Payable(tr[0])
    ensures |tr[t].c| == FIELDS && tr[t].total == tr[0].total && Ready(tr[t])
    ensures tr[0].total * tr[t].c[SUCCESS] <= tr[t].c[SEND]
    ensures tr[0].total * tr[t].c[SUCCESS] <= tr[t].c[LAT100] + tr[t].c[LAT500] + tr[t].c[LAT1000] + tr[t].c[LATMORE]
  {
    AlwaysInv(tr, t);
    LaterAlong(tr, 0, t);
    LaterAlong(tr, from, t);
    if tr[0].total != 0 {
      NoSuccessIsHarmless();
      CalmAlong(tr, t, NoSuccess, {SUCCESS});
    }
    SuccessPaidFor(tr[t]);
  }

  lemma CountersDominate(tr: seq<State>, from: nat)
    requires Broadcasting(tr) && from < |tr| && Ready(tr[from]) && Payable(tr[0])
    ensures Dominated(History(tr, Fields()), from, tr[0].total, SUCCESS, [SEND])
    ensures Dominated(History(tr, Fields()), from, tr[0].total, SUCCESS, LATENCIES)
  {
    var cs := History(tr, Fields());
    forall t | from <= t < |cs|
      ensures SUCCESS < |cs[t]|
      ensures tr[0].total * cs[t][SUCCESS] <= SumOf([SEND], Column(cs[t]))
      ensures tr[0].total * cs[t][SUCCESS] <= SumOf(LATENCIES, Column(cs[t]))
    {
      PaidAlong(tr, from, t);
      SumOfOne(SEND, Column(cs[t]));
      LatencyColumns(cs[t]);
    }
  }

  lemma FieldNeverDecreases(tr: seq<State>, from: nat, f: nat)
    requires Broadcasting(tr) && from < |tr| && Ready(tr[from]) && f < FIELDS && Grows(f)
    ensures NeverDecreases(History(tr, Fields()), from, f)
  {
    var cs := History(tr, Fields());
    forall t, u | from <= t <= u < |cs| ensures f < |cs[t]| && f < |cs[u]| && cs[t][f] <= cs[u][f] {
      LaterAlong(tr, from, t);
      LaterAlong(tr, t, u);
    }
  }

  /** A Counters call not before moment `from`, at which Setup was through. */
  ghost predicate Reads(tr: seq<State>, from: nat, at: seq<nat>) {
    && from < |tr| && Ready(tr[from]) && |at| == FIELDS && ReadTimes(at, |tr|) && from <= at[0]
    && forall t | 0 <= t < |tr| :: |tr[t].c| == FIELDS
  }

  ghost function Snapshot(tr: seq<State>, from: nat, at: seq<nat>): (v: seq<int>)
    requires Reads(tr, from, at)
    ensures |v| == FIELDS && forall f | 0 <= f < FIELDS :: v[f] == tr[at[f]].c[f]
  {
    Torn(History(tr, Fields()), at)
  }

  ghost predicate Paid(total: nat, v: seq<int>)
    requires |v| == FIELDS
  {
    && total * v[SUCCESS] <= v[SEND]
    && total * v[SUCCESS] <= v[LAT100] + v[LAT500] + v[LAT1000] + v[LATMORE]
  }

  /** Every snapshot after Setup, with its fields read at different moments of a concurrent run, has
      totalMsgCnt * success <= messages sent, and <= sum of the latency buckets, unless leftovers of
      earlier jobs can succeed. */
  lemma TornSnapshot(tr: seq<State>, from: nat, at: seq<nat>)
    requires Broadcasting(tr) && Reads(tr, from, at) && Payable(tr[0])
    ensures Paid(tr[0].total, Snapshot(tr, from, at))
  {
    var cs := History(tr, Fields());
    CountersDominate(tr, from);
    forall f | f in [SEND] + LATENCIES ensures NeverDecreases(cs, from, f) { FieldNeverDecreases(tr, from, f); }
    TornBound(cs, from, at, tr[0].total, SUCCESS, [SEND]);
    TornBound(cs, from, at, tr[0].total, SUCCESS, LATENCIES);
    SumOfOne(SEND, Column(Torn(cs, at)));
    LatencyColumns(Torn(cs, at));
  }

  // ----- messages and latencies -----

  /** The publisher has nothing left to send or to record. */
  ghost const IsSpent: User -> bool := (u: User) => HasDecided(u.main) || Stranded(u)

  ghost const MESSAGES: set<nat> := {SEND, LAT100, LAT500, LAT1000, LATMORE}

  lemma SpentMoves(s: State, u: User, v: User, field: nat, delta: int)
    requires (HasDecided(u.main) || Stranded(u)) && UserMoves(s, u, v, field, delta)
    ensures (HasDecided(v.main) || Stranded(v)) && v.sent == u.sent && v.logged == u.logged
  {
    if MainMoves(u, v, field, delta) { SpentMain(u, v, field, delta); } else { SpentRecv(s, u, v, field, delta); }
  }

  lemma SpentMain(u: User, v: User, field: nat, delta: int)
    requires (HasDecided(u.main) || Stranded(u)) && MainMoves(u, v, field, delta)
    ensures HasDecided(v.main) && v.sent == u.sent && v.logged == u.logged
  {
  }

  lemma SpentRecv(s: State, u: User, v: User, field: nat, delta: int)
    requires (HasDecided(u.main) || Stranded(u)) && RecvMoves(s, u, v, field, delta)
    ensures (HasDecided(v.main) || Stranded(v)) && v.sent == u.sent && v.logged == u.logged
  {
    assert v.main == u.main;
  }

  lemma SpentIsHarmless()
    ensures Harmless(IsSpent, MESSAGES)
  {
    forall s, me: nat, u, v, field: nat, delta | IsSpent(u) && UserOk(me, u) && UserMoves(s, u, v, field, delta)
      ensures IsSpent(v) && forall f | f in MESSAGES :: Contribution(f)(v) == Contribution(f)(u)
    {
      SpentMoves(s, u, v, field, delta);
      forall f | f in MESSAGES ensures Contribution(f)(v) == Contribution(f)(u) { SameMessages(u, v, f); }
    }
  }

  lemma SameMessages(u: User, v: User, f: nat)
    requires v.sent == u.sent && v.logged == u.logged && f in MESSAGES
    ensures Contribution(f)(v) == Contribution(f)(u)
  {
  }

  // Recorded latencies by milliseconds.
  function Under100(x: int): int { Bit(x < 100) }
  function Under500(x: int): int { Bit(100 <= x < 500) }
  function Under1000(x: int): int { Bit(500 <= x < 1000) }
  function Over1000(x: int): int { Bit(1000 <= x) }

  function Latencies(f: int -> int): User -> int { (u: User) => SumOf(u.logged, f) }
  function Sends(u: User): int { u.sent }

  lemma BucketMeans(users: seq<User>, f: nat, g: int -> int)
    requires LAT100 <= f <= LATMORE && forall x :: InField(f)(x) == g(x)
    ensures SumOf(users, Contribution(f)) == SumOf(users, Latencies(g))
  {
    forall i | 0 <= i < |users| ensures Contribution(f)(users[i]) == Latencies(g)(users[i]) {
      SumEqual(users[i].logged, InField(f), users[i].logged, g);
    }
    SumEqual(users, Contribution(f), users, Latencies(g));
  }

  /** After Setup, unless leftovers still publish or record: messages:send counts the publishes of this job
      that succeeded, and each latency bucket this job's recorded latencies of that size. */
  lemma LatenciesCounted(tr: seq<State>, k: nat)
    requires Broadcasting(tr) && k < |tr| && Ready(tr[k]) && AllLeftovers(tr[0], IsSpent)
    ensures |tr[k].c| == FIELDS && tr[k].prior <= |tr[k].users|
    ensures var own := tr[k].users[tr[k].prior..];
            && tr[k].c[SEND] == SumOf(own, Sends)
            && tr[k].c[LAT100] == SumOf(own, Latencies(Under100))
            && tr[k].c[LAT500] == SumOf(own, Latencies(Under500))
            && tr[k].c[LAT1000] == SumOf(own, Latencies(Under1000))
            && tr[k].c[LATMORE] == SumOf(own, Latencies(Over1000))
  {
    SpentIsHarmless();
    CalmAlong(tr, k, IsSpent, MESSAGES);
    var s := tr[k];
    CalmCounter(s, IsSpent, MESSAGES, SEND);
    CalmCounter(s, IsSpent, MESSAGES, LAT100);
    CalmCounter(s, IsSpent, MESSAGES, LAT500);
    CalmCounter(s, IsSpent, MESSAGES, LAT1000);
    CalmCounter(s, IsSpent, MESSAGES, LATMORE);
    MessageSums(s.users[s.prior..]);
  }

  lemma MessageSums(users: seq<User>)
    ensures SumOf(users, Contribution(SEND)) == SumOf(users, Sends)
    ensures SumOf(users, Contribution(LAT100)) == SumOf(users, Latencies(Under100))
    ensures SumOf(users, Contribution(LAT500)) == SumOf(users, Latencies(Under500))
    ensures SumOf(users, Contribution(LAT1000)) == SumOf(users, Latencies(Under1000))
    ensures SumOf(users, Contribution(LATMORE)) == SumOf(users, Latencies(Over1000))
  {
    SumEqual(users, Contribution(SEND), users, Sends);
    BucketMeans(users, LAT100, Under100);
    BucketMeans(users, LAT500, Under500);
    BucketMeans(users, LAT1000, Under1000);
    BucketMeans(users, LATMORE, Over1000);
  }

  /** The receiver receives nothing any more. */
  ghost const IsDeaf: User -> bool :=
    (u: User) => !Listening(u.recv) && !u.main.Start? && !u.main.Parsing?

  lemma DeafMoves(s: State, u: User, v: User, field: nat, delta: int)
    requires IsDeaf(u) && UserMoves(s, u, v, field, delta)
    ensures IsDeaf(v) && Heard(v) == Heard(u)
  {
    if MainMoves(u, v, field, delta) { DeafMain(u, v, field, delta); }
  }

  lemma DeafMain(u: User, v: User, field: nat, delta: int)
    requires IsDeaf(u) && MainMoves(u, v, field, delta)
    ensures IsDeaf(v) && v.recv == u.recv && Heard(v) == Heard(u)
  {
    if EntryMoves(u, v, field, delta) {
      EntryLeavesRecv(u, v, field, delta);
    } else if PublisherMoves(u, v, field, delta) {
      PublisherLeavesRecv(u, v, field, delta);
    } else {
      CollectorLeavesRecv(u, v, field, delta);
    }
  }

  lemma EntryLeavesRecv(u: User, v: User, field: nat, delta: int)
    requires EntryMoves(u, v, field, delta) && !u.main.Parsing? && !u.main.Start?
    ensures v.recv == u.recv && v.got == u.got && v.others == u.others && !v.main.Start? && !v.main.Parsing?
  {
  }

  lemma PublisherLeavesRecv(u: User, v: User, field: nat, delta: int)
    requires PublisherMoves(u, v, field, delta)
    ensures v.recv == u.recv && v.got == u.got && v.others == u.others && !v.main.Start? && !v.main.Parsing?
  {
  }

  lemma CollectorLeavesRecv(u: User, v: User, field: nat, delta: int)
    requires CollectorMoves(u, v, field, delta)
    ensures v.recv == u.recv && v.got == u.got && v.others == u.others && !v.main.Start? && !v.main.Parsing?
  {
  }

  /** After Setup, unless leftovers still receive: messages:recv counts what this job's receivers got, their
      own messages and those of others. */
  lemma MessagesCounted(tr: seq<State>, k: nat)
    requires Broadcasting(tr) && k < |tr| && Ready(tr[k]) && AllLeftovers(tr[0], IsDeaf)
    ensures |tr[k].c| == FIELDS && tr[k].prior <= |tr[k].users|
    ensures tr[k].c[RECV] == SumOf(tr[k].users[tr[k].prior..], Heard)
  {
    forall s, me: nat, u, v, field: nat, delta | IsDeaf(u) && UserOk(me, u) && UserMoves(s, u, v, field, delta)
      ensures IsDeaf(v) && forall f | f in {RECV} :: Contribution(f)(v) == Contribution(f)(u)
    {
      DeafMoves(s, u, v, field, delta);
    }
    assert Harmless(IsDeaf, {RECV});
    CalmAlong(tr, k, IsDeaf, {RECV});
    CalmCounter(tr[k], IsDeaf, {RECV}, RECV);
    SumEqual(tr[k].users[tr[k].prior..], Contribution(RECV), tr[k].users[tr[k].prior..], Heard);
  }
}
