/** The RabbitMQ channel pool (sessions/rabbitmq_massive_queue.go): a lock-free scan over the
    connections, then a second scan under the lock that dials a new connection when every one refuses.
    A live connection refuses a channel only when `limit` channels are open on it; connections do not
    die on their own. */
module ChannelPool {
  import opened Arith
  import opened Sums
  import opened Runs

  datatype Conn = Conn(id: nat, open: int)

  datatype Caller =
    | Outside
    | Scanning(view: seq<nat>, j: nat, epoch: nat)  // lock-free, over the slice read at the start
    | Wanting                                       // p.lock.Lock
    | Rescanning(j: nat)                            // under the lock
    | Dialling                                      // under the lock
    | Served
    | Failed

  /** `disturbed`: a channel of the pool was closed since the lock was taken. */
  datatype Lock = Free | Held(holder: nat, disturbed: bool)

  /** `peak`: most channels open at once so far; `extra`: connections added by a disturbed holder since
      the last Close. */
  datatype State = State(
    limit: nat, pool: seq<Conn>, epoch: nat, nextId: nat, lock: Lock, callers: seq<Caller>,
    peak: int, extra: nat)

  function Open(): Conn -> int { (c: Conn) => c.open }

  function OpenChannels(pool: seq<Conn>): int { SumOf(pool, Open()) }

  function Ids(pool: seq<Conn>): (ids: seq<nat>)
    ensures |ids| == |pool| && forall p | 0 <= p < |pool| :: ids[p] == pool[p].id
  {
    seq(|pool|, p requires 0 <= p < |pool| => pool[p].id)
  }

  function WithPool(s: State, pool: seq<Conn>): State {
    s.(pool := pool, peak := Max(s.peak, OpenChannels(pool)))
  }

  function Opened(s: State, p: nat): State
    requires p < |s.pool|
  {
    WithPool(s, s.pool[p := s.pool[p].(open := s.pool[p].open + 1)])
  }

  // ----- steps -----

  datatype Move =
    | Arrive | Enter(i: nat) | TakeFree(i: nat, p: nat) | SkipFree(i: nat) | ScanEnd(i: nat) | Acquire(i: nat)
    | TakeLocked(i: nat) | SkipLocked(i: nat) | AllRefuse(i: nat) | DialFails(i: nat) | DialWorks(i: nat)
    | CloseChannel(p: nat) | ClosePool

  ghost predicate ScanStep(s: State, m: Move, t: State) {
    match m
    case Arrive => t == s.(callers := s.callers + [Outside])
    case Enter(i) =>
      && i < |s.callers| && s.callers[i].Outside?
      && t == s.(callers := s.callers[i := Scanning(Ids(s.pool), 0, s.epoch)])
    case TakeFree(i, p) =>
      && i < |s.callers| && s.callers[i].Scanning? && p < |s.pool|
      && var x := s.callers[i];
      && x.j < |x.view| && s.pool[p].id == x.view[x.j] && s.pool[p].open < s.limit
      && t == Opened(s, p).(callers := s.callers[i := Served])
    case SkipFree(i) =>
      // a connection that left the pool is closed and refuses
      && i < |s.callers| && s.callers[i].Scanning?
      && var x := s.callers[i];
      && x.j < |x.view|
      && (forall p | 0 <= p < |s.pool| && s.pool[p].id == x.view[x.j] :: s.pool[p].open >= s.limit)
      && t == s.(callers := s.callers[i := x.(j := x.j + 1)])
    case ScanEnd(i) =>
      && i < |s.callers| && s.callers[i].Scanning? && s.callers[i].j == |s.callers[i].view|
      && t == s.(callers := s.callers[i := Wanting])
    case _ => false
  }

  ghost predicate LockStep(s: State, m: Move, t: State) {
    match m
    case Acquire(i) =>
      && i < |s.callers| && s.callers[i].Wanting? && s.lock.Free?
      && t == s.(lock := Held(i, false), callers := s.callers[i := Rescanning(0)])
    case TakeLocked(i) =>
      && i < |s.callers| && s.callers[i].Rescanning? && s.callers[i].j < |s.pool|
      && s.pool[s.callers[i].j].open < s.limit
      && t == Opened(s, s.callers[i].j).(lock := Free, callers := s.callers[i := Served])
    case SkipLocked(i) =>
      && i < |s.callers| && s.callers[i].Rescanning? && s.callers[i].j < |s.pool|
      && s.pool[s.callers[i].j].open >= s.limit
      && t == s.(callers := s.callers[i := Rescanning(s.callers[i].j + 1)])
    case AllRefuse(i) =>
      && i < |s.callers| && s.callers[i].Rescanning? && s.callers[i].j == |s.pool|
      && t == s.(callers := s.callers[i := Dialling])
    case DialFails(i) =>
      // the dial, or the first channel on the new connection, which is then closed
      && i < |s.callers| && s.callers[i].Dialling?
      && t == s.(lock := Free, callers := s.callers[i := Failed])
    case DialWorks(i) =>
      && i < |s.callers| && s.callers[i].Dialling? && s.lock.Held?
      && t == WithPool(s, s.pool + [Conn(s.nextId, 1)]).(
                nextId := s.nextId + 1, lock := Free, callers := s.callers[i := Served],
                extra := s.extra + if s.lock.disturbed then 1 else 0)
    case _ => false
  }

  ghost predicate OutsideStep(s: State, m: Move, t: State) {
    match m
    case CloseChannel(p) =>
      && p < |s.pool| && s.pool[p].open > 0
      && t == s.(pool := s.pool[p := s.pool[p].(open := s.pool[p].open - 1)],
                 lock := if s.lock.Held? then s.lock.(disturbed := true) else Free)
    case ClosePool => s.lock.Free? && t == s.(pool := [], epoch := s.epoch + 1, extra := 0)
    case _ => false
  }

  ghost predicate Step(s: State, m: Move, t: State) {
    ScanStep(s, m, t) || LockStep(s, m, t) || OutsideStep(s, m, t)
  }

  ghost predicate Next(s: State, t: State) { exists m :: Step(s, m, t) }

  ghost predicate Init(s: State) { s.limit >= 1 && s == State(s.limit, [], 0, 0, Free, [], 0, 0) }

  ghost predicate Pooling(tr: seq<State>) { Run(Init, Next, tr) }

  // ----- invariant -----

  ghost predicate PoolOk(s: State) {
    && s.limit >= 1
    && ConnsOk(s, s.pool, s.nextId)
    && OpenChannels(s.pool) <= s.peak && 0 <= s.peak
  }

  /** The pool without the extra connections, one less, was once full and one channel more was open. */
  ghost predicate SizeOk(s: State) {
    |s.pool| > s.extra ==> s.limit * (|s.pool| - s.extra - 1) + 1 <= s.peak
  }

  predicate UnderLock(c: Caller) { c.Rescanning? || c.Dialling? }

  ghost predicate Full(s: State, n: int) {
    n <= |s.pool| && forall p | 0 <= p < n :: s.pool[p].open == s.limit
  }

  ghost predicate LockOk(s: State) {
    && (forall i | 0 <= i < |s.callers| && UnderLock(s.callers[i]) :: s.lock.Held? && s.lock.holder == i)
    && (s.lock.Held? ==> s.lock.holder < |s.callers| && UnderLock(s.callers[s.lock.holder]))
    && (s.lock.Held? && !s.lock.disturbed ==>
          match s.callers[s.lock.holder]
          case Rescanning(j) => Full(s, j)
          case _ => Full(s, |s.pool|))
  }

  /** A scan of the current epoch runs over a prefix of the pool. */
  ghost predicate ViewOk(s: State, c: Caller) {
    c.Scanning? ==> c.epoch <= s.epoch && (c.epoch == s.epoch ==> c.view <= Ids(s.pool))
  }

  ghost predicate Inv(s: State) {
    && PoolOk(s) && SizeOk(s) && LockOk(s)
    && (forall i | 0 <= i < |s.callers| :: ViewOk(s, s.callers[i]))
  }

  /** Between Closes the pool only grows at its end. */
  lemma PoolGrows(s: State, m: Move, t: State)
    requires Step(s, m, t) && !m.ClosePool?
    ensures Ids(s.pool) <= Ids(t.pool) && t.epoch == s.epoch
  {
    assert |s.pool| <= |t.pool| && forall p | 0 <= p < |s.pool| :: t.pool[p].id == s.pool[p].id;
  }

  lemma ViewsKept(s: State, m: Move, t: State, i: nat)
    requires (forall j | 0 <= j < |s.callers| :: ViewOk(s, s.callers[j])) && Step(s, m, t) && i < |t.callers|
    ensures ViewOk(t, t.callers[i])
  {
    if i < |s.callers| { assert ViewOk(s, s.callers[i]); }
    if !m.ClosePool? { PoolGrows(s, m, t); }
  }

  ghost predicate ConnsOk(s: State, pool: seq<Conn>, nextId: nat) {
    forall p | 0 <= p < |pool| :: 0 <= pool[p].open <= s.limit && pool[p].id < nextId
  }

  lemma ConnsKept(s: State, m: Move, t: State)
    requires s.limit >= 1 && ConnsOk(s, s.pool, s.nextId) && Step(s, m, t)
    ensures ConnsOk(t, t.pool, t.nextId) && t.limit == s.limit
  {
  }

  lemma OneLess(pool: seq<Conn>, p: nat)
    requires p < |pool|
    ensures OpenChannels(pool[p := pool[p].(open := pool[p].open - 1)]) == OpenChannels(pool) - 1
  {
    SumUpdate(pool, p, pool[p].(open := pool[p].open - 1));
  }

  lemma PeakKept(s: State, m: Move, t: State)
    requires OpenChannels(s.pool) <= s.peak && 0 <= s.peak && Step(s, m, t)
    ensures OpenChannels(t.pool) <= t.peak && s.peak <= t.peak
  {
    match m
    case CloseChannel(p) => OneLess(s.pool, p);
    case ClosePool => assert OpenChannels([]) == 0;
    case TakeFree(i, p) => assert t.peak == Max(s.peak, OpenChannels(t.pool));
    case TakeLocked(i) => assert t.peak == Max(s.peak, OpenChannels(t.pool));
    case DialWorks(i) => assert t.peak == Max(s.peak, OpenChannels(t.pool));
    case _ => assert t.pool == s.pool;
  }

  lemma PoolKept(s: State, m: Move, t: State)
    requires PoolOk(s) && Step(s, m, t)
    ensures PoolOk(t)
  {
    ConnsKept(s, m, t);
    PeakKept(s, m, t);
  }

  lemma {:induction false} FullSum(pool: seq<Conn>, limit: int)
    requires forall p | 0 <= p < |pool| :: pool[p].open == limit
    ensures OpenChannels(pool) == limit * |pool|
  {
    if pool != [] {
      FullSum(pool[..|pool| - 1], limit);
      assert limit * |pool| == limit * (|pool| - 1) + limit;
    }
  }

  /** A dial that nobody disturbed found every connection full. */
  lemma DialWhenFull(s: State, t: State)
    requires SizeOk(s) && Full(s, |s.pool|) && t.limit == s.limit
    requires t.pool == s.pool + [Conn(s.nextId, 1)] && t.extra == s.extra && t.peak >= OpenChannels(t.pool)
    ensures SizeOk(t)
  {
    FullSum(s.pool, s.limit);
    SumAppend(s.pool, Conn(s.nextId, 1));
    MulMono(s.limit, |s.pool| - s.extra, |s.pool|);
  }

  lemma SizeKept(s: State, m: Move, t: State)
    requires Inv(s) && Step(s, m, t)
    ensures SizeOk(t)
  {
    PeakKept(s, m, t);
    if m.DialWorks? {
      assert UnderLock(s.callers[m.i]);
      if !s.lock.disturbed { DialWhenFull(s, t); }
    }
  }

  lemma ScanKeepsLock(s: State, m: Move, t: State)
    requires LockOk(s) && PoolOk(s) && ScanStep(s, m, t)
    ensures LockOk(t)
  {
  }

  lemma HolderKeepsLock(s: State, m: Move, t: State)
    requires LockOk(s) && LockStep(s, m, t)
    requires forall p | 0 <= p < |s.pool| :: s.pool[p].open <= s.limit
    ensures LockOk(t)
  {
    if !m.Acquire? { assert UnderLock(s.callers[m.i]); }
  }

  lemma LockKept(s: State, m: Move, t: State)
    requires Inv(s) && Step(s, m, t)
    ensures LockOk(t)
  {
    if ScanStep(s, m, t) {
      ScanKeepsLock(s, m, t);
    } else if LockStep(s, m, t) {
      HolderKeepsLock(s, m, t);
    }
  }

  lemma NextKeeps(s: State, t: State)
    requires Inv(s) && Next(s, t)
    ensures Inv(t)
  {
    var m :| Step(s, m, t);
    PoolKept(s, m, t);
    SizeKept(s, m, t);
    LockKept(s, m, t);
    forall i | 0 <= i < |t.callers| ensures ViewOk(t, t.callers[i]) { ViewsKept(s, m, t, i); }
  }

  lemma AlwaysInv(tr: seq<State>, k: nat)
    requires Pooling(tr) && k < |tr|
    ensures Inv(tr[k])
  {
    forall s, t | Inv(s) && Next(s, t) ensures Inv(t) { NextKeeps(s, t); }
    Always(Init, Next, Inv, tr, k);
  }

  // ----- results -----

  /** The pool never holds more connections than ceil(peak open channels / limit), except for one per
      dial during which some channel of the pool was closed after the lock was taken. */
  lemma PoolSizeBound(tr: seq<State>, k: nat)
    requires Pooling(tr) && k < |tr|
    ensures tr[k].limit >= 1 && tr[k].peak >= 0
    ensures |tr[k].pool| <= CeilDiv(tr[k].peak, tr[k].limit) + tr[k].extra
  {
    AlwaysInv(tr, k);
    var s := tr[k];
    var need := |s.pool| - s.extra;
    CeilDivBounds(s.peak, s.limit);
    if need > CeilDiv(s.peak, s.limit) {
      MulMono(s.limit, CeilDiv(s.peak, s.limit), need - 1);
    }
  }

  /** Between Closes a lock-free scan runs over a prefix of the current pool. */
  lemma ScanSeesPrefix(tr: seq<State>, k: nat, i: nat)
    requires Pooling(tr) && k < |tr| && i < |tr[k].callers| && tr[k].callers[i].Scanning?
    requires tr[k].callers[i].epoch == tr[k].epoch
    ensures tr[k].callers[i].view <= Ids(tr[k].pool)
  {
    AlwaysInv(tr, k);
    assert ViewOk(tr[k], tr[k].callers[i]);
  }

  /** No connection takes this id any more: it is full, or it has left the pool. */
  ghost predicate Refuses(s: State, id: nat) {
    forall p | 0 <= p < |s.pool| && s.pool[p].id == id :: s.pool[p].open >= s.limit
  }

  /** What one step does to a caller that scans. */
  lemma ScanMoves(s: State, t: State, i: nat)
    requires Next(s, t) && i < |t.callers| && t.callers[i].Scanning?
    ensures i < |s.callers| && (s.callers[i] == t.callers[i]
            || (t.callers[i].j == 0 && s.callers[i].Outside? && t.callers[i].view == Ids(s.pool))
            || (s.callers[i].Scanning? && t.callers[i] == s.callers[i].(j := s.callers[i].j + 1)
                && s.callers[i].j < |s.callers[i].view| && Refuses(s, s.callers[i].view[s.callers[i].j])))
  {
  }

  /** A lock-free scan passes a connection only at a moment at which that connection refuses. */
  lemma {:induction false} PassedRefused(tr: seq<State>, k: nat, i: nat, q: nat) returns (j: nat)
    requires Pooling(tr) && k < |tr| && i < |tr[k].callers| && tr[k].callers[i].Scanning?
    requires q < tr[k].callers[i].j
    ensures j < k && i < |tr[j].callers| && tr[j].callers[i] == tr[k].callers[i].(j := q)
    ensures q < |tr[k].callers[i].view| && Refuses(tr[j], tr[k].callers[i].view[q])
  {
    if k == 0 { assert false; }
    assert Next(tr[k - 1], tr[k]);
    ScanMoves(tr[k - 1], tr[k], i);
    if tr[k - 1].callers[i] == tr[k].callers[i] || q < tr[k - 1].callers[i].j {
      j := PassedRefused(tr, k - 1, i, q);
    } else {
      j := k - 1;
    }
  }

  /** At most one caller is under the lock. */
  lemma OneCallerUnderLock(tr: seq<State>, k: nat, i: nat, j: nat)
    requires Pooling(tr) && k < |tr| && i < |tr[k].callers| && j < |tr[k].callers|
    requires UnderLock(tr[k].callers[i]) && UnderLock(tr[k].callers[j])
    ensures i == j
  {
    AlwaysInv(tr, k);
  }

  // ----- the pool as an object -----

  /** The first connection from `j` on that accepts a channel; the length of the pool if all refuse. */
  function FirstAccepting(pool: seq<Conn>, limit: int, j: nat): (p: nat)
    requires j <= |pool|
    ensures j <= p <= |pool| && (p < |pool| ==> pool[p].open < limit)
    ensures forall q | j <= q < p :: pool[q].open >= limit
    decreases |pool| - j
  {
    if j == |pool| || pool[j].open < limit then j else FirstAccepting(pool, limit, j + 1)
  }

  /** `closed`: the connections that were closed; `peak`: most channels open at once so far; `extra`:
      pooled connections that a disturbed dial of some concurrent caller added. */
  datatype Pool = Pool(conns: seq<Conn>, nextId: nat, closed: set<nat>, peak: int, extra: nat)

  /** How dialling ends: no connection, a connection without a channel, or both. */
  datatype Dial = NoConnection | NoChannel | Works

  function OneMore(c: Conn): Conn { c.(open := c.open + 1) }

  /** A channel is opened on the first connection that accepts. */
  function Taken(limit: nat, q: Pool): Pool
    requires FirstAccepting(q.conns, limit, 0) < |q.conns|
  {
    var p := FirstAccepting(q.conns, limit, 0);
    Recorded(q.(conns := q.conns[p := OneMore(q.conns[p])]))
  }

  function Dialled(q: Pool, dial: Dial): (Pool, bool) {
    match dial
    case NoConnection => (q, false)
    case NoChannel => (q.(nextId := q.nextId + 1, closed := q.closed + {q.nextId}), false)
    case Works => (Recorded(q.(conns := q.conns + [Conn(q.nextId, 1)], nextId := q.nextId + 1)), true)
  }

  /** What a caller under the lock does to the pool it finds there. */
  function Serve(limit: nat, q: Pool, dial: Dial): (Pool, bool) {
    if FirstAccepting(q.conns, limit, 0) < |q.conns| then (Taken(limit, q), true) else Dialled(q, dial)
  }

  function Recorded(q: Pool): Pool { q.(peak := Max(q.peak, OpenChannels(q.conns))) }

  function IdSet(conns: seq<Conn>): set<nat> { set c | c in conns :: c.id }

  /** The numbers given to the first n connections. */
  function Below(n: nat): (ids: set<nat>)
    ensures forall id: nat :: id in ids <==> id < n
  {
    if n == 0 then {} else Below(n - 1) + {n - 1}
  }

  /** Every connection ever dialled is pooled or closed, and none is both. */
  ghost predicate NoneLost(q: Pool) {
    q.closed !! IdSet(q.conns) && q.closed + IdSet(q.conns) == Below(q.nextId)
  }

  ghost predicate Sized(limit: nat, q: Pool) {
    && limit >= 1
    && (forall p | 0 <= p < |q.conns| :: 0 <= q.conns[p].open <= limit)
    && 0 <= q.peak && OpenChannels(q.conns) <= q.peak
    && (|q.conns| > q.extra ==> limit * (|q.conns| - q.extra - 1) + 1 <= q.peak)
  }

  ghost predicate Sound(limit: nat, q: Pool) { NoneLost(q) && Sized(limit, q) }

  /** What other callers may have made of pool q: connections are numbered on, and none is reopened. */
  ghost predicate Follows(q: Pool, r: Pool) {
    q.nextId <= r.nextId && q.closed <= r.closed && q.peak <= r.peak
  }

  lemma IdsAppend(conns: seq<Conn>, c: Conn)
    ensures IdSet(conns + [c]) == IdSet(conns) + {c.id}
  {
    assert forall x :: x in conns + [c] <==> x in conns || x == c;
  }

  lemma IdsUpdate(conns: seq<Conn>, p: nat, c: Conn)
    requires p < |conns| && c.id == conns[p].id
    ensures IdSet(conns[p := c]) == IdSet(conns)
  {
    forall x | x in conns ensures x.id in IdSet(conns[p := c]) {
      var i :| 0 <= i < |conns| && conns[i] == x;
      assert conns[p := c][i] in conns[p := c];
    }
    forall x | x in conns[p := c] ensures x.id in IdSet(conns) {
      var i :| 0 <= i < |conns| && conns[p := c][i] == x;
      assert conns[i] in conns;
    }
  }

  /** A call that succeeds opens exactly one channel, on a connection of the pool; a call that fails
      leaves every channel alone, and fails only when every connection is full. */
  lemma ServedOnce(limit: nat, q: Pool, dial: Dial)
    requires Sized(limit, q)
    ensures var r := Serve(limit, q, dial);
            && OpenChannels(r.0.conns) == OpenChannels(q.conns) + (if r.1 then 1 else 0)
            && (!r.1 ==> r.0.conns == q.conns && forall p | 0 <= p < |q.conns| :: q.conns[p].open == limit)
  {
    var p := FirstAccepting(q.conns, limit, 0);
    if p < |q.conns| { SumUpdate(q.conns, p, OneMore(q.conns[p])); }
    SumAppend(q.conns, Conn(q.nextId, 1));
  }

  /** A connection that is dialled but gives no channel is not lost either. */
  lemma ServedLosesNone(limit: nat, q: Pool, dial: Dial)
    requires NoneLost(q)
    ensures NoneLost(Serve(limit, q, dial).0)
  {
    var p := FirstAccepting(q.conns, limit, 0);
    if p < |q.conns| { IdsUpdate(q.conns, p, OneMore(q.conns[p])); }
    IdsAppend(q.conns, Conn(q.nextId, 1));
    assert Below(q.nextId + 1) == Below(q.nextId) + {q.nextId};
  }

  lemma TakenSized(limit: nat, q: Pool)
    requires Sized(limit, q) && FirstAccepting(q.conns, limit, 0) < |q.conns|
    ensures Sized(limit, Taken(limit, q))
  {
    assert |Taken(limit, q).conns| == |q.conns|;
  }

  lemma DialledSized(limit: nat, q: Pool, dial: Dial)
    requires Sized(limit, q) && forall p | 0 <= p < |q.conns| :: q.conns[p].open == limit
    ensures Sized(limit, Dialled(q, dial).0)
  {
    if dial.Works? {
      var r := Dialled(q, dial).0;
      FullSum(q.conns, limit);
      SumAppend(q.conns, Conn(q.nextId, 1));
      MulMono(limit, |q.conns| - q.extra, |q.conns|);
      assert |r.conns| - r.extra - 1 == |q.conns| - q.extra;
      assert OpenChannels(r.conns) == limit * |q.conns| + 1;
    }
  }

  /** What a call does to a pool keeps it sound. */
  lemma ServedSound(limit: nat, q: Pool, dial: Dial)
    requires Sound(limit, q)
    ensures Sound(limit, Serve(limit, q, dial).0)
  {
    ServedLosesNone(limit, q, dial);
    if FirstAccepting(q.conns, limit, 0) < |q.conns| {
      TakenSized(limit, q);
    } else {
      DialledSized(limit, q, dial);
    }
  }

  /** Whatever pool concurrent callers leave, overgrown ones included, is one that a call may find. */
  lemma ReachedIsSound(tr: seq<State>, k: nat)
    requires Pooling(tr) && k < |tr|
    ensures var s := tr[k];
            Sound(s.limit, Pool(s.pool, s.nextId, Below(s.nextId) - IdSet(s.pool), s.peak, s.extra))
  {
    AlwaysInv(tr, k);
    assert IdSet(tr[k].pool) <= Below(tr[k].nextId);
  }

  class RabbitMQChannelPool {
    const limit: nat
    var conns: seq<Conn>
    var nextId: nat
    var closed: set<nat>
    ghost var peak: int
    ghost var extra: nat

    ghost function Value(): Pool
      reads this
    {
      Pool(conns, nextId, closed, peak, extra)
    }

    ghost predicate Valid()
      reads this
    {
      Sound(limit, Value())
    }

    constructor (limit: nat)
      requires limit >= 1
      ensures Valid() && this.limit == limit && conns == [] && closed == {} && nextId == 0 && peak == 0 && extra == 0
    {
      this.limit := limit;
      conns := [];
      nextId := 0;
      closed := {};
      peak := 0;
      extra := 0;
    }

    /** The loop over the connections that both scans of Channel run. */
    method Scan() returns (ok: bool)
      requires Valid()
      modifies this`conns, this`peak
      ensures Valid()
      ensures var p := FirstAccepting(old(conns), limit, 0);
              && ok == (p < |old(conns)|)
              && Value() == if ok then Taken(limit, old(Value())) else old(Value())
    {
      var j := 0;
      while j < |conns| && conns[j].open >= limit
        invariant 0 <= j <= |conns| && Value() == old(Value())
        invariant FirstAccepting(conns, limit, 0) == FirstAccepting(conns, limit, j)
      {
        j := j + 1;
      }
      ok := j < |conns|;
      if ok {
        ServedSound(limit, Value(), NoConnection);
        conns := conns[j := OneMore(conns[j])];
        peak := Max(peak, OpenChannels(conns));
      }
    }

    method DialConnection(dial: Dial) returns (ok: bool)
      modifies this
      ensures (Value(), ok) == Dialled(old(Value()), dial)
    {
      match dial
      case NoConnection =>
        ok := false;
      case NoChannel =>
        closed := closed + {nextId};
        nextId := nextId + 1;
        ok := false;
      case Works =>
        conns := conns + [Conn(nextId, 1)];
        nextId := nextId + 1;
        peak := Max(peak, OpenChannels(conns));
        ok := true;
    }

    /** The section under the lock: scan again, and dial only if all refuse again. */
    method ChannelLocked(dial: Dial) returns (ok: bool)
      requires Valid()
      modifies this
      ensures (Value(), ok) == Serve(limit, old(Value()), dial)
      ensures Valid()
    {
      ServedSound(limit, Value(), dial);
      ok := Scan();
      if !ok { ok := DialConnection(dial); }
    }

    /** Serves the caller from the first connection that accepts. When all refuse it takes the lock,
        which is when it sees what other callers have made of the pool in the meantime (`found`). */
    method Channel(dial: Dial, found: Pool) returns (ok: bool)
      requires Valid() && Sound(limit, found) && Follows(Value(), found)
      modifies this
      ensures Valid()
      ensures var served := FirstAccepting(old(conns), limit, 0) < |old(conns)|;
              (Value(), ok) == Serve(limit, if served then old(Value()) else found, dial)
      ensures Follows(old(Value()), Value())
    {
      ok := Scan();
      if !ok {
        conns, nextId, closed, peak, extra := found.conns, found.nextId, found.closed, found.peak, found.extra;
        ok := ChannelLocked(dial);
      }
    }

    /** A user of the pool closes one of its channels. */
    method ReleaseChannel(p: nat)
      requires Valid() && p < |conns| && conns[p].open > 0
      modifies this`conns
      ensures Valid() && conns == old(conns)[p := old(conns[p]).(open := old(conns[p]).open - 1)]
    {
      SumUpdate(conns, p, conns[p].(open := conns[p].open - 1));
      IdsUpdate(conns, p, conns[p].(open := conns[p].open - 1));
      conns := conns[p := conns[p].(open := conns[p].open - 1)];
    }

    /** Closes every pooled connection, and with them every connection ever dialled is closed. */
    method Close()
      requires Valid()
      modifies this
      ensures Valid() && conns == [] && peak == old(peak) && nextId == old(nextId) && extra == 0
      ensures closed == Below(nextId)
    {
      var i := 0;
      while i < |conns|
        invariant 0 <= i <= |conns| && conns == old(conns) && nextId == old(nextId) && peak == old(peak)
        invariant closed == old(closed) + IdSet(conns[..i])
      {
        IdsAppend(conns[..i], conns[i]);
        assert conns[..i + 1] == conns[..i] + [conns[i]];
        closed := closed + {conns[i].id};
        i := i + 1;
      }
      assert conns[..i] == conns;
      conns := [];
      extra := 0;
    }

    /** The size of the pool at any time between calls. */
    lemma SizeBound()
      requires Valid()
      ensures |conns| <= CeilDiv(peak, limit) + extra
    {
      CeilDivBounds(peak, limit);
      if |conns| - extra > CeilDiv(peak, limit) {
        MulMono(limit, CeilDiv(peak, limit), |conns| - extra - 1);
      }
    }
  }
}
