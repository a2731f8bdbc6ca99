/** The doQueue runs of the RabbitMQ session (sessions/rabbitmq_massive_queue.go) together with the
    channel pool they draw on, as one step system. A run closes the channels it publishes and
    subscribes on; the channel its deferred queue delete opens is closed by nobody. */
module ChannelLeak {
  import opened Arith
  import opened Sums
  import opened Runs
  import CP = ChannelPool

  datatype Use = Publish | Subscribe | Delete

  /** A channel of one run: not asked for, asked for by caller i of the pool, open since some epoch of the
      pool, closed by the run, or refused. */
  datatype Ticket = NotAsked | Asked(i: nat) | Open(epoch: nat) | Closed | Refused

  datatype Pc =
    | Start | AwaitPub | Declaring | Declared | AwaitSub | Working
    | ClosingSub | Deleting | AwaitDel | ClosingPub | Done

  /** `declared`: the queue was declared, so that its delete is deferred. */
  datatype Queue = Queue(pc: Pc, declared: bool, pub: Ticket, sub: Ticket, del: Ticket)

  /** Caller i of the pool runs on behalf of owner[i]. */
  datatype Owner = Owner(run: nat, use: Use)

  datatype State = State(pool: CP.State, owner: seq<Owner>, runs: seq<Queue>)

  function TicketOf(q: Queue, use: Use): Ticket {
    match use case Publish => q.pub case Subscribe => q.sub case Delete => q.del
  }

  function WithTicket(q: Queue, use: Use, t: Ticket): Queue {
    match use case Publish => q.(pub := t) case Subscribe => q.(sub := t) case Delete => q.(del := t)
  }

  // ----- steps -----

  datatype Move =
    | Begin | Ask(r: nat, use: Use) | InPool(m: CP.Move) | Release(r: nat, use: Use, p: nat) | Control(r: nat, q: Queue)

  /** connPool.Channel() is called where doQueue calls it. */
  ghost predicate Asks(q: Queue, use: Use, r: Queue, i: nat) {
    match use
    case Publish => q.pc.Start? && r == q.(pc := AwaitPub, pub := Asked(i))
    case Subscribe => q.pc.Declared? && r == q.(pc := AwaitSub, sub := Asked(i))
    case Delete => q.pc.Deleting? && r == q.(pc := AwaitDel, del := Asked(i))
  }

  /** Steps of doQueue that do not touch the pool. */
  ghost predicate Controls(q: Queue, r: Queue) {
    match q.pc
    case AwaitPub => (q.pub.Open? && r == q.(pc := Declaring)) || (q.pub.Refused? && r == q.(pc := Done))
    case Declaring => r == q.(pc := ClosingPub) || r == q.(pc := Declared, declared := true)
    case Declared => r == q.(pc := Working)                     // nothing to subscribe to
    case AwaitSub =>
      || (q.sub.Open? && (r == q.(pc := Working) || r == q.(pc := ClosingSub)))
      || (q.sub.Refused? && r == q.(pc := Deleting))
    case Working => r == q.(pc := if q.sub.Open? then ClosingSub else Deleting)
    case AwaitDel => (q.del.Open? || q.del.Refused?) && r == q.(pc := ClosingPub)
    case _ => false
  }

  /** The deferred closes. */
  ghost predicate Releases(q: Queue, use: Use, r: Queue) {
    match use
    case Publish => q.pc.ClosingPub? && q.pub.Open? && r == q.(pc := Done, pub := Closed)
    case Subscribe => q.pc.ClosingSub? && q.sub.Open? && r == q.(pc := Deleting, sub := Closed)
    case Delete => false
  }

  /** The caller of the pool that this move serves or turns away. */
  ghost predicate Grants(m: CP.Move) { m.TakeFree? || m.TakeLocked? || m.DialWorks? }

  ghost predicate Internal(m: CP.Move) {
    m.Enter? || m.SkipFree? || m.ScanEnd? || m.Acquire? || m.SkipLocked? || m.AllRefuse? || m.ClosePool?
  }

  ghost predicate PoolMove(s: State, m: CP.Move, t: State) {
    && CP.Step(s.pool, m, t.pool) && t.owner == s.owner
    && if Internal(m) then t.runs == s.runs
       else (Grants(m) || m.DialFails?) && m.i < |s.owner| && s.owner[m.i].run < |s.runs|
            && var o := s.owner[m.i];
            t.runs == s.runs[o.run := WithTicket(s.runs[o.run], o.use, if Grants(m) then Open(s.pool.epoch) else Refused)]
  }

  ghost predicate Step(s: State, m: Move, t: State) {
    match m
    case Begin => t == s.(runs := s.runs + [Queue(Start, false, NotAsked, NotAsked, NotAsked)])
    case Ask(r, use) =>
      && r < |s.runs| && CP.Step(s.pool, CP.Arrive, t.pool) && t.owner == s.owner + [Owner(r, use)]
      && |t.runs| == |s.runs| && t.runs == s.runs[r := t.runs[r]] && Asks(s.runs[r], use, t.runs[r], |s.owner|)
    case InPool(pm) => PoolMove(s, pm, t)
    case Release(r, use, p) =>
      && r < |s.runs| && |t.runs| == |s.runs| && t.owner == s.owner
      && t.runs == s.runs[r := t.runs[r]] && Releases(s.runs[r], use, t.runs[r])
      && if TicketOf(s.runs[r], use) == Open(s.pool.epoch) then CP.Step(s.pool, CP.CloseChannel(p), t.pool)
         else t.pool == s.pool                                  // its connection is closed already
    case Control(r, q) => r < |s.runs| && Controls(s.runs[r], q) && t == s.(runs := s.runs[r := q])
  }

  ghost predicate Next(s: State, t: State) { exists m :: Step(s, m, t) }

  ghost predicate Init(s: State) { CP.Init(s.pool) && s.owner == [] && s.runs == [] }

  ghost predicate Serving(tr: seq<State>) { Run(Init, Next, tr) }

  // ----- invariant -----

  function OpenNow(epoch: nat, t: Ticket): int { if t == Open(epoch) then 1 else 0 }

  /** Channels a run has open on the connections that are pooled now. */
  function OpenOf(epoch: nat): Queue -> int {
    (q: Queue) => OpenNow(epoch, q.pub) + OpenNow(epoch, q.sub) + OpenNow(epoch, q.del)
  }

  /** A run that is through, declared its queue, and opened a channel to delete it since the last Close. */
  function LeakedBy(epoch: nat): Queue -> int {
    (q: Queue) => if q.pc.Done? && q.declared && q.del == Open(epoch) then 1 else 0
  }

  ghost predicate QueueOk(q: Queue) {
    && (q.pc in {Start, AwaitPub, Declaring, ClosingPub, Done} || q.declared)
    && (q.pc in {Start, AwaitPub, Declaring} ==> !q.declared)
    && (q.pc.Start? ==> q.pub.NotAsked?)
    && (q.pc in {Start, AwaitPub, Declaring, Declared} ==> q.sub.NotAsked?)
    && (!q.declared || q.pc in {Declared, AwaitSub, Working, ClosingSub, Deleting} ==> q.del.NotAsked?)
    && (q.declared && q.pc in {ClosingPub, Done} ==> q.del.Open? || q.del.Refused?)
    && !q.del.Closed?
  }

  ghost predicate CallerOk(s: State, i: nat)
    requires i < |s.owner| && i < |s.pool.callers|
  {
    && s.owner[i].run < |s.runs|
    && (!s.pool.callers[i].Served? && !s.pool.callers[i].Failed? ==>
          TicketOf(s.runs[s.owner[i].run], s.owner[i].use) == Asked(i))
  }

  /** No channel was opened in an epoch to come. */
  ghost predicate Dated(epoch: nat, q: Queue) {
    forall use :: TicketOf(q, use).Open? ==> TicketOf(q, use).epoch <= epoch
  }

  ghost predicate Inv(s: State) {
    && CP.Inv(s.pool) && |s.owner| == |s.pool.callers|
    && (forall i | 0 <= i < |s.owner| :: CallerOk(s, i))
    && (forall r | 0 <= r < |s.runs| :: QueueOk(s.runs[r]) && Dated(s.pool.epoch, s.runs[r]))
    && CP.OpenChannels(s.pool.pool) == SumOf(s.runs, OpenOf(s.pool.epoch))
  }

  /** What a move of the pool does to the open channels and to its callers. */
  lemma PoolEffect(s: CP.State, m: CP.Move, t: CP.State)
    requires CP.Step(s, m, t)
    ensures !m.ClosePool? ==> t.epoch == s.epoch
    ensures CP.OpenChannels(t.pool) ==
            if m.ClosePool? then 0 else CP.OpenChannels(s.pool) + (if Grants(m) then 1 else if m.CloseChannel? then -1 else 0)
  {
    match m
    case TakeFree(i, p) => SumUpdate(s.pool, p, t.pool[p]);
    case TakeLocked(i) => SumUpdate(s.pool, s.callers[i].j, t.pool[s.callers[i].j]);
    case DialWorks(i) => SumAppend(s.pool, CP.Conn(s.nextId, 1));
    case CloseChannel(p) => SumUpdate(s.pool, p, t.pool[p]);
    case ClosePool => assert CP.OpenChannels([]) == 0;
    case _ => assert t.pool == s.pool;
  }

  lemma CallersEffect(s: CP.State, m: CP.Move, t: CP.State)
    requires CP.Step(s, m, t)
    ensures m.Arrive? ==> t.callers == s.callers + [CP.Outside]
    ensures m.CloseChannel? || m.ClosePool? ==> t.callers == s.callers
    ensures Grants(m) || m.DialFails? ==>
              && m.i < |s.callers| && !s.callers[m.i].Served? && !s.callers[m.i].Failed?
              && |t.callers| == |s.callers| && t.callers == s.callers[m.i := t.callers[m.i]]
              && (t.callers[m.i].Served? || t.callers[m.i].Failed?)
    ensures Internal(m) && !m.ClosePool? ==>
              && m.i < |s.callers| && !s.callers[m.i].Served? && !s.callers[m.i].Failed?
              && |t.callers| == |s.callers| && t.callers == s.callers[m.i := t.callers[m.i]]
  {
  }

  lemma CallersKept(s: State, m: CP.Move, t: State, j: nat)
    requires |s.owner| == |s.pool.callers| && PoolMove(s, m, t) && j < |s.owner|
    requires forall i | 0 <= i < |s.owner| :: CallerOk(s, i)
    ensures |t.pool.callers| == |s.owner| && CallerOk(t, j)
  {
    CallersEffect(s.pool, m, t.pool);
    assert CallerOk(s, j);
    if !Internal(m) { assert CallerOk(s, m.i); }
  }

  /** One run changes. */
  lemma OneRun(s: State, r: nat, q: Queue, epoch: nat)
    requires r < |s.runs|
    ensures SumOf(s.runs[r := q], OpenOf(epoch)) == SumOf(s.runs, OpenOf(epoch)) - OpenOf(epoch)(s.runs[r]) + OpenOf(epoch)(q)
  {
    SumUpdate(s.runs, r, q);
  }

  lemma NoneOpenYet(s: State)
    requires forall r | 0 <= r < |s.runs| :: Dated(s.pool.epoch, s.runs[r])
    ensures SumOf(s.runs, OpenOf(s.pool.epoch + 1)) == 0
  {
    forall r | 0 <= r < |s.runs| ensures OpenOf(s.pool.epoch + 1)(s.runs[r]) == 0 {
      assert Dated(s.pool.epoch, s.runs[r]);
      var q := s.runs[r];
      assert TicketOf(q, Publish) == q.pub && TicketOf(q, Subscribe) == q.sub && TicketOf(q, Delete) == q.del;
    }
    SumZero(s.runs, OpenOf(s.pool.epoch + 1));
  }

  lemma GrantKeepsRuns(s: State, m: CP.Move, t: State)
    requires Inv(s) && PoolMove(s, m, t) && !Internal(m)
    ensures forall r | 0 <= r < |t.runs| :: QueueOk(t.runs[r]) && Dated(s.pool.epoch, t.runs[r])
    ensures SumOf(t.runs, OpenOf(s.pool.epoch)) == SumOf(s.runs, OpenOf(s.pool.epoch)) + if Grants(m) then 1 else 0
  {
    CallersEffect(s.pool, m, t.pool);
    assert CallerOk(s, m.i);
    var o := s.owner[m.i];
    var q := s.runs[o.run];
    var r := WithTicket(q, o.use, if Grants(m) then Open(s.pool.epoch) else Refused);
    GrantKeepsQueue(s.pool.epoch, q, o.use, m.i, r);
    OneRun(s, o.run, r, s.pool.epoch);
    assert Grants(m) || r != WithTicket(q, o.use, Open(s.pool.epoch));
  }

  lemma GrantKeeps(s: State, m: CP.Move, t: State)
    requires Inv(s) && PoolMove(s, m, t) && !Internal(m)
    ensures Inv(t)
  {
    PoolEffect(s.pool, m, t.pool);
    CallersEffect(s.pool, m, t.pool);
    CP.NextKeeps(s.pool, t.pool);
    GrantKeepsRuns(s, m, t);
    forall j | 0 <= j < |t.owner| ensures CallerOk(t, j) { CallersKept(s, m, t, j); }
  }

  lemma GrantKeepsQueue(epoch: nat, q: Queue, use: Use, i: nat, r: Queue)
    requires QueueOk(q) && Dated(epoch, q) && TicketOf(q, use) == Asked(i)
    requires r == WithTicket(q, use, Open(epoch)) || r == WithTicket(q, use, Refused)
    ensures QueueOk(r) && Dated(epoch, r)
    ensures OpenOf(epoch)(r) == OpenOf(epoch)(q) + if r == WithTicket(q, use, Open(epoch)) then 1 else 0
  {
    forall u ensures TicketOf(r, u).Open? ==> TicketOf(r, u).epoch <= epoch {
      if u != use { assert TicketOf(r, u) == TicketOf(q, u); }
    }
  }

  lemma InternalKeeps(s: State, m: CP.Move, t: State)
    requires Inv(s) && PoolMove(s, m, t) && Internal(m)
    ensures Inv(t)
  {
    PoolEffect(s.pool, m, t.pool);
    CallersEffect(s.pool, m, t.pool);
    CP.NextKeeps(s.pool, t.pool);
    if m.ClosePool? { NoneOpenYet(s); }
    forall j | 0 <= j < |t.owner| ensures CallerOk(t, j) { CallersKept(s, m, t, j); }
    forall r | 0 <= r < |t.runs| ensures Dated(t.pool.epoch, t.runs[r]) { assert Dated(s.pool.epoch, s.runs[r]); }
  }

  /** Run r changes without losing a ticket that a caller of the pool still has to fill. */
  lemma RunKeeps(s: State, r: nat, q: Queue, t: State)
    requires r < |s.runs| && |s.owner| == |s.pool.callers| && forall i | 0 <= i < |s.owner| :: CallerOk(s, i)
    requires forall use :: TicketOf(s.runs[r], use).Asked? ==> TicketOf(q, use) == TicketOf(s.runs[r], use)
    requires t.runs == s.runs[r := q] && t.owner == s.owner && t.pool.callers == s.pool.callers
    ensures forall i | 0 <= i < |t.owner| :: CallerOk(t, i)
  {
    forall i | 0 <= i < |t.owner| ensures CallerOk(t, i) { assert CallerOk(s, i); }
  }

  lemma AskKeeps(s: State, r: nat, use: Use, t: State)
    requires Inv(s) && Step(s, Ask(r, use), t)
    ensures Inv(t)
  {
    PoolEffect(s.pool, CP.Arrive, t.pool);
    CallersEffect(s.pool, CP.Arrive, t.pool);
    CP.NextKeeps(s.pool, t.pool);
    OneRun(s, r, t.runs[r], s.pool.epoch);
    AskKeepsQueue(s.pool.epoch, s.runs[r], use, t.runs[r], |s.owner|);
    forall j | 0 <= j < |t.owner| ensures CallerOk(t, j) {
      if j < |s.owner| { assert CallerOk(s, j); }
    }
  }

  lemma AskKeepsQueue(epoch: nat, q: Queue, use: Use, r: Queue, i: nat)
    requires QueueOk(q) && Dated(epoch, q) && Asks(q, use, r, i)
    ensures QueueOk(r) && Dated(epoch, r) && OpenOf(epoch)(r) == OpenOf(epoch)(q)
    ensures TicketOf(q, use).NotAsked? && r == WithTicket(q, use, Asked(i)).(pc := r.pc)
  {
    forall u ensures TicketOf(r, u).Open? ==> TicketOf(r, u).epoch <= epoch {
      if u != use { assert TicketOf(r, u) == TicketOf(q, u); }
    }
  }

  lemma ReleaseKeeps(s: State, r: nat, use: Use, p: nat, t: State)
    requires Inv(s) && Step(s, Release(r, use, p), t)
    ensures Inv(t)
  {
    if TicketOf(s.runs[r], use) == Open(s.pool.epoch) {
      PoolEffect(s.pool, CP.CloseChannel(p), t.pool);
      CallersEffect(s.pool, CP.CloseChannel(p), t.pool);
      CP.NextKeeps(s.pool, t.pool);
    }
    OneRun(s, r, t.runs[r], s.pool.epoch);
    ReleaseKeepsQueue(s.pool.epoch, s.runs[r], use, t.runs[r]);
    RunKeeps(s, r, t.runs[r], t);
  }

  lemma ReleaseKeepsQueue(epoch: nat, q: Queue, use: Use, r: Queue)
    requires QueueOk(q) && Dated(epoch, q) && Releases(q, use, r)
    ensures QueueOk(r) && Dated(epoch, r)
    ensures OpenOf(epoch)(r) == OpenOf(epoch)(q) - if TicketOf(q, use) == Open(epoch) then 1 else 0
    ensures forall u :: TicketOf(q, u).Asked? ==> TicketOf(r, u) == TicketOf(q, u)
  {
    forall u ensures TicketOf(r, u).Open? ==> TicketOf(r, u).epoch <= epoch {
      if u != use { assert TicketOf(r, u) == TicketOf(q, u); }
    }
  }

  lemma ControlKeeps(s: State, r: nat, q: Queue, t: State)
    requires Inv(s) && Step(s, Control(r, q), t)
    ensures Inv(t)
  {
    assert q == s.runs[r].(pc := q.pc, declared := q.declared);
    forall use ensures TicketOf(q, use) == TicketOf(s.runs[r], use) {}
    OneRun(s, r, q, s.pool.epoch);
    RunKeeps(s, r, q, t);
  }

  lemma NextKeeps(s: State, t: State)
    requires Inv(s) && Next(s, t)
    ensures Inv(t)
  {
    var m :| Step(s, m, t);
    match m
    case Begin => BeginKeeps(s, t);
    case Ask(r, use) => AskKeeps(s, r, use, t);
    case InPool(pm) => if Internal(pm) { InternalKeeps(s, pm, t); } else { GrantKeeps(s, pm, t); }
    case Release(r, use, p) => ReleaseKeeps(s, r, use, p, t);
    case Control(r, q) => ControlKeeps(s, r, q, t);
  }

  lemma BeginKeeps(s: State, t: State)
    requires Inv(s) && Step(s, Begin, t)
    ensures Inv(t)
  {
    SumAppend(s.runs, Queue(Start, false, NotAsked, NotAsked, NotAsked));
    forall j | 0 <= j < |t.owner| ensures CallerOk(t, j) { assert CallerOk(s, j); }
  }

  lemma AlwaysInv(tr: seq<State>, k: nat)
    requires Serving(tr) && k < |tr|
    ensures Inv(tr[k])
  {
    forall s, t | Inv(s) && Next(s, t) ensures Inv(t) { NextKeeps(s, t); }
    Always(Init, Next, Inv, tr, k);
  }

  // ----- the leak -----

  lemma {:induction false} FullAtMost(pool: seq<CP.Conn>, limit: nat)
    requires forall p | 0 <= p < |pool| :: pool[p].open <= limit
    ensures CP.OpenChannels(pool) <= limit * |pool|
  {
    if pool != [] {
      FullAtMost(pool[..|pool| - 1], limit);
      MulStep(limit, |pool| - 1);
    }
  }

  lemma CeilAtMost(n: nat, limit: nat, size: nat)
    requires limit >= 1 && n <= limit * size
    ensures CeilDiv(n, limit) <= size
  {
    CeilDivBounds(n, limit);
    if CeilDiv(n, limit) > size {
      MulMono(limit, size + 1, CeilDiv(n, limit));
      MulStep(limit, size);
    }
  }

  /** Every doQueue run that declared its queue and came through has opened one channel for its queue
      delete, unless the pool refused it. Those opened since the pool was last closed are all still open:
      after N such runs the pool holds at least ceil(N / limit) connections, however little is under way. */
  lemma DeletesLeak(tr: seq<State>, k: nat)
    requires Serving(tr) && k < |tr|
    ensures forall r | 0 <= r < |tr[k].runs| && tr[k].runs[r].pc.Done? && tr[k].runs[r].declared ::
              tr[k].runs[r].del.Open? || tr[k].runs[r].del.Refused?
    ensures var s := tr[k];
            var n := SumOf(s.runs, LeakedBy(s.pool.epoch));
            && 0 <= n <= CP.OpenChannels(s.pool.pool) && s.pool.limit >= 1
            && CeilDiv(n, s.pool.limit) <= |s.pool.pool|
  {
    AlwaysInv(tr, k);
    var s := tr[k];
    forall r | 0 <= r < |s.runs| && s.runs[r].pc.Done? && s.runs[r].declared
      ensures s.runs[r].del.Open? || s.runs[r].del.Refused?
    {
      assert QueueOk(s.runs[r]);
    }
    SumBound(s.runs, LeakedBy(s.pool.epoch), OpenOf(s.pool.epoch));
    SumNonNegative(s.runs, LeakedBy(s.pool.epoch));
    FullAtMost(s.pool.pool, s.pool.limit);
    CeilAtMost(SumOf(s.runs, LeakedBy(s.pool.epoch)), s.pool.limit, |s.pool.pool|);
  }
}
