/** How far the RabbitMQ channel pool really grows: never beyond ceil(peak / limit) while no channel is
    closed under the lock, and beyond it by any number of connections otherwise. */
module PoolGrowth {
  import opened Arith
  import opened Sums
  import opened Runs
  import opened ChannelPool

  // ----- the bound without exception -----

  /** A channel is closed while some caller holds the lock. */
  ghost predicate ClosesUnderLock(s: State, t: State) {
    s.lock.Held? && exists p :: OutsideStep(s, CloseChannel(p), t)
  }

  ghost predicate Undisturbed(s: State) { s.extra == 0 && (s.lock.Held? ==> !s.lock.disturbed) }

  lemma {:induction false} StaysUndisturbed(tr: seq<State>, k: nat)
    requires Pooling(tr) && k < |tr|
    requires forall i, j | 0 <= i < j == i + 1 < |tr| :: !ClosesUnderLock(tr[i], tr[j])
    ensures Undisturbed(tr[k])
  {
    if k > 0 {
      StaysUndisturbed(tr, k - 1);
      assert Next(tr[k - 1], tr[k]);
      var m :| Step(tr[k - 1], m, tr[k]);
      assert !ClosesUnderLock(tr[k - 1], tr[k]);
    }
  }

  /** If no channel is ever closed while the lock is held, the pool never holds more connections than
      the channels open at the same time needed. */
  lemma UndisturbedBound(tr: seq<State>, k: nat)
    requires Pooling(tr) && k < |tr|
    requires forall i, j | 0 <= i < j == i + 1 < |tr| :: !ClosesUnderLock(tr[i], tr[j])
    ensures tr[k].limit >= 1 && tr[k].peak >= 0
    ensures |tr[k].pool| <= CeilDiv(tr[k].peak, tr[k].limit)
  {
    PoolSizeBound(tr, k);
    StaysUndisturbed(tr, k);
  }

  // ----- the exception is as large as one likes -----

  /** Connections are numbered as they were dialled, and `n` channels are open. */
  ghost predicate Numbered(s: State, n: nat) {
    && s.nextId == |s.pool| && OpenChannels(s.pool) == n <= s.limit
    && 0 <= s.peak <= s.limit
    && forall p | 0 <= p < |s.pool| :: s.pool[p].id == p
  }

  function Scanner(s: State, j: nat): Caller { Scanning(Ids(s.pool), j, s.epoch) }

  /** From caller x on, everybody is scanning at connection j. */
  ghost predicate ScanFrom(s: State, x: nat, j: nat) {
    x <= |s.callers| && forall c | x <= c < |s.callers| :: s.callers[c] == Scanner(s, j)
  }

  /** Only callers from x on have changed. */
  ghost predicate Beyond(s: State, x: nat, t: State) {
    |s.callers| == |t.callers| && x <= |s.callers| && forall c | 0 <= c < x :: t.callers[c] == s.callers[c]
  }

  /** k new callers begin a lock-free scan. */
  lemma {:induction false} Recruit(s: State, x: nat, k: nat) returns (t: State)
    requires ScanFrom(s, x, 0)
    ensures Reaches(Next, s, t) && t == s.(callers := t.callers) && |t.callers| == |s.callers| + k
    ensures t.callers[..x] == s.callers[..x] && ScanFrom(t, x, 0)
    decreases k
  {
    if k == 0 {
      t := s;
      ReachSelf(Next, s);
    } else {
      var c := |s.callers|;
      var u := s.(callers := s.callers + [Outside]);
      var v := s.(callers := s.callers + [Scanner(s, 0)]);
      assert Step(s, Arrive, u);
      assert u.callers[c := Scanner(s, 0)] == v.callers;
      assert Step(u, Enter(c), v);
      t := Recruit(v, x, k - 1);
      ReachFirst(Next, u, v, t);
      ReachFirst(Next, s, u, t);
    }
  }

  /** One scanner at connection j gets a channel on it. */
  lemma FillOne(s: State, j: nat, x: nat, n: nat) returns (t: State)
    requires Numbered(s, n) && j < |s.pool| && ScanFrom(s, x, j) && x < |s.callers|
    requires n < s.limit && s.pool[j].open == n
    ensures Next(s, t) && Numbered(t, n + 1) && ScanFrom(t, x + 1, j) && s.peak <= t.peak
    ensures t == s.(pool := s.pool[j := Conn(j, n + 1)], callers := s.callers[x := Served], peak := t.peak)
  {
    t := Opened(s, j).(callers := s.callers[x := Served]);
    SumUpdate(s.pool, j, Conn(j, n + 1));
    assert Step(s, TakeFree(x, j), t);
    assert Ids(t.pool) == Ids(s.pool);
  }

  /** The next k scanners at connection j get a channel on it. */
  lemma {:induction false} Fill(s: State, j: nat, x: nat, n: nat, k: nat) returns (t: State)
    requires Numbered(s, n) && j < |s.pool| && ScanFrom(s, x, j) && x + k <= |s.callers|
    requires n + k <= s.limit && s.pool[j].open == n
    ensures Reaches(Next, s, t) && Numbered(t, n + k) && Beyond(s, x, t) && ScanFrom(t, x + k, j)
    ensures t == s.(pool := s.pool[j := Conn(j, n + k)], callers := t.callers, peak := t.peak)
    ensures s.peak <= t.peak
    decreases k
  {
    if k == 0 {
      t := s;
      assert s.pool[j := Conn(j, n)] == s.pool;
      ReachSelf(Next, s);
    } else {
      var u := FillOne(s, j, x, n);
      t := Fill(u, j, x + 1, n + 1, k - 1);
      assert u.pool[j := Conn(j, n + k)] == s.pool[j := Conn(j, n + k)];
      ReachFirst(Next, s, u, t);
    }
  }

  /** Everybody scanning at the full connection j goes on to the next. */
  lemma {:induction false} SkipAll(s: State, j: nat, x: nat, c: nat) returns (t: State)
    requires Numbered(s, s.limit) && j < |s.pool| && s.pool[j].open == s.limit
    requires x <= c <= |s.callers| && ScanFrom(s, c, j)
    requires forall d | x <= d < c :: s.callers[d] == Scanner(s, j + 1)
    ensures Reaches(Next, s, t) && t == s.(callers := t.callers) && Beyond(s, x, t) && ScanFrom(t, x, j + 1)
    decreases |s.callers| - c
  {
    if c == |s.callers| {
      t := s;
      ReachSelf(Next, s);
    } else {
      var u := s.(callers := s.callers[c := Scanner(s, j + 1)]);
      assert Step(s, SkipFree(c), u);
      t := SkipAll(u, j, x, c + 1);
      ReachFirst(Next, s, u, t);
    }
  }

  /** All channels on connection j are closed, under a lock that is held. */
  lemma {:induction false} Drain(s: State, j: nat, n: nat) returns (t: State)
    requires Numbered(s, n) && j < |s.pool| && s.pool[j].open == n && s.lock.Held?
    ensures Reaches(Next, s, t) && Numbered(t, 0)
    ensures t == s.(pool := s.pool[j := Conn(j, 0)], lock := Held(s.lock.holder, s.lock.disturbed || n > 0))
    decreases n
  {
    if n == 0 {
      t := s;
      assert s.pool[j := Conn(j, 0)] == s.pool;
      ReachSelf(Next, s);
    } else {
      var u := s.(pool := s.pool[j := Conn(j, n - 1)], lock := s.lock.(disturbed := true));
      SumUpdate(s.pool, j, Conn(j, n - 1));
      assert Step(s, CloseChannel(j), u);
      t := Drain(u, j, n - 1);
      assert u.pool[j := Conn(j, 0)] == s.pool[j := Conn(j, 0)];
      ReachFirst(Next, s, u, t);
    }
  }

  ghost predicate AllIdle(s: State) { forall p | 0 <= p < |s.pool| :: s.pool[p] == Conn(p, 0) }

  /** The holder h looks at connection j; all connections are idle, and enough scanners are about to
      look at connection j as well. */
  ghost predicate Wave(s: State, j: nat, h: nat, x: nat) {
    && s.limit >= 1 && Numbered(s, 0) && AllIdle(s) && j <= |s.pool|
    && s.lock.Held? && s.lock.holder == h < x && (j > 0 ==> s.lock.disturbed)
    && ScanFrom(s, x, j) && s.callers[h] == Rescanning(j)
    && |s.callers| >= x + Scanners(s.limit, |s.pool| - j)
  }

  /** So many scanners fill k connections, one after the other. */
  function Scanners(limit: nat, k: nat): nat { if k == 0 then 0 else limit + Scanners(limit, k - 1) }

  /** Connection j is filled, and everybody sees it full. */
  lemma RisingWave(s: State, j: nat, h: nat, x: nat) returns (t: State)
    requires Wave(s, j, h, x) && j < |s.pool|
    ensures Reaches(Next, s, t) && Numbered(t, s.limit) && ScanFrom(t, x + s.limit, j + 1)
    ensures t == s.(pool := s.pool[j := Conn(j, s.limit)], callers := t.callers, peak := t.peak) && s.peak <= t.peak
    ensures |t.callers| == |s.callers| && t.callers[..h] == s.callers[..h] && t.callers[h] == s.callers[h]
  {
    var y := x + s.limit;
    var u := Fill(s, j, x, 0, s.limit);
    t := SkipAll(u, j, y, y);
    ReachJoin(Next, s, u, t);
  }

  /** Connection j is filled, everybody sees it full, and it is emptied again. */
  lemma OneWave(s: State, j: nat, h: nat, x: nat) returns (t: State)
    requires Wave(s, j, h, x) && j < |s.pool|
    ensures Reaches(Next, s, t) && Wave(t, j + 1, h, x + s.limit)
    ensures t == s.(lock := t.lock, callers := t.callers, peak := t.peak) && s.peak <= t.peak
    ensures |t.callers| == |s.callers| && t.callers[..h] == s.callers[..h]
  {
    var s1 := RisingWave(s, j, h, x);
    var s2 := s1.(callers := s1.callers[h := Rescanning(j + 1)]);
    assert Step(s1, SkipLocked(h), s2);
    t := Drain(s2, j, s.limit);
    assert s2.pool[j := Conn(j, 0)] == s.pool;
    ReachStep(Next, s, s1, s2);
    ReachJoin(Next, s, s2, t);
    assert t.callers[..h] == s1.callers[..h];
  }

  lemma {:induction false} AllWaves(s: State, j: nat, h: nat, x: nat) returns (t: State, y: nat)
    requires Wave(s, j, h, x)
    ensures Reaches(Next, s, t) && Wave(t, |s.pool|, h, y)
    ensures t == s.(lock := t.lock, callers := t.callers, peak := t.peak) && s.peak <= t.peak
    ensures t.callers[..h] == s.callers[..h]
    decreases |s.pool| - j
  {
    if j == |s.pool| {
      t, y := s, x;
      ReachSelf(Next, s);
    } else {
      var u := OneWave(s, j, h, x);
      t, y := AllWaves(u, j + 1, h, x + s.limit);
      ReachJoin(Next, s, u, t);
    }
  }

  /** m connections too many, all of them idle, and w callers waiting for the lock. */
  ghost predicate Overgrown(s: State, m: nat, w: nat) {
    && s.limit >= 1 && Numbered(s, 0) && AllIdle(s) && s.lock.Free?
    && |s.pool| == m + 1 && s.extra == m && 1 <= s.peak
    && w <= |s.callers| && forall c | 0 <= c < w :: s.callers[c].Wanting?
  }

  ghost predicate Grown(s: State, h: nat, t: State) {
    && |t.pool| == |s.pool| + 1 && t.extra == s.extra + (if s.lock.Held? && s.lock.disturbed then 1 else 0)
    && t.limit == s.limit && 1 <= t.peak && t.lock.Free?
    && |t.callers| == |s.callers| && h <= |s.callers| && t.callers[..h] == s.callers[..h]
  }

  /** The holder has seen every connection full and dials. */
  lemma DialLast(s: State, h: nat) returns (t: State)
    requires s.limit >= 1 && Numbered(s, 0) && h < |s.callers| && s.callers[h] == Rescanning(|s.pool|)
    requires s.lock.Held? && s.lock.holder == h
    ensures Reaches(Next, s, t) && Grown(s, h, t) && Numbered(t, 1)
    ensures t.pool == s.pool + [Conn(|s.pool|, 1)]
  {
    var n := |s.pool|;
    var s1 := s.(callers := s.callers[h := Dialling]);
    assert Step(s, AllRefuse(h), s1);
    t := DialStep(s1, h);
    ReachSelf(Next, s);
    ReachStep(Next, s, s, s1);
    ReachStep(Next, s, s1, t);
    assert t.callers[..h] == s1.callers[..h] == s.callers[..h];
  }

  lemma DialStep(s: State, h: nat) returns (t: State)
    requires s.limit >= 1 && Numbered(s, 0) && h < |s.callers| && s.callers[h].Dialling? && s.lock.Held?
    ensures Next(s, t) && Grown(s, h, t) && Numbered(t, 1) && t.pool == s.pool + [Conn(|s.pool|, 1)]
  {
    var n := |s.pool|;
    var pool := s.pool + [Conn(n, 1)];
    SumAppend(s.pool, Conn(n, 1));
    assert OpenChannels(pool) == 1;
    t := s.(pool := pool, peak := Max(s.peak, 1), nextId := n + 1, lock := Free, callers := s.callers[h := Served],
            extra := s.extra + if s.lock.disturbed then 1 else 0);
    assert LockStep(s, DialWorks(h), t);
    assert Step(s, DialWorks(h), t);
  }

  /** And the new channel is closed at once. */
  lemma DialAndIdle(s: State, h: nat, y: nat) returns (t: State)
    requires Wave(s, |s.pool|, h, y)
    ensures Reaches(Next, s, t) && Grown(s, h, t) && Numbered(t, 0) && AllIdle(t)
  {
    var n := |s.pool|;
    var u := DialLast(s, h);
    t := u.(pool := s.pool + [Conn(n, 0)]);
    assert u.pool[n := Conn(n, 0)] == t.pool;
    SumUpdate(u.pool, n, Conn(n, 0));
    assert Step(u, CloseChannel(n), t);
    ReachStep(Next, s, u, t);
  }

  /** One more waiting caller makes one more connection too many. */
  lemma GrowOnce(s: State, m: nat, w: nat) returns (t: State)
    requires Overgrown(s, m, w) && w > 0
    ensures Reaches(Next, s, t) && Overgrown(t, m + 1, w - 1) && t.limit == s.limit
  {
    var h, x := w - 1, |s.callers|;
    var s1 := Recruit(s, x, Scanners(s.limit, |s.pool|));
    assert s1.callers[h] == s1.callers[..x][h] == s.callers[h];
    var s2 := s1.(lock := Held(h, false), callers := s1.callers[h := Rescanning(0)]);
    assert Step(s1, Acquire(h), s2);
    ReachStep(Next, s, s1, s2);
    var s3, y := AllWaves(s2, 0, h, x);
    ReachJoin(Next, s, s2, s3);
    t := DialAndIdle(s3, h, y);
    ReachJoin(Next, s, s3, t);
    forall c | 0 <= c < h ensures t.callers[c].Wanting? {
      assert t.callers[c] == t.callers[..h][c] == s3.callers[..h][c] == s2.callers[..h][c] == s1.callers[..x][c] == s.callers[c];
    }
  }

  lemma {:induction false} GrowBy(s: State, m: nat, w: nat) returns (t: State)
    requires Overgrown(s, m, w)
    ensures Reaches(Next, s, t) && Overgrown(t, m + w, 0) && t.limit == s.limit
    decreases w
  {
    if w == 0 {
      t := s;
      ReachSelf(Next, s);
    } else {
      var u := GrowOnce(s, m, w);
      t := GrowBy(u, m + 1, w - 1);
      ReachJoin(Next, s, u, t);
    }
  }

  // ----- how it starts -----

  /** w callers that found the pool empty wait for the lock. */
  lemma {:induction false} Queue(s: State, w: nat) returns (t: State)
    requires s.pool == [] && forall c | 0 <= c < |s.callers| :: s.callers[c].Wanting?
    ensures Reaches(Next, s, t) && t == s.(callers := t.callers) && |t.callers| == |s.callers| + w
    ensures forall c | 0 <= c < |t.callers| :: t.callers[c].Wanting?
    decreases w
  {
    if w == 0 {
      t := s;
      ReachSelf(Next, s);
    } else {
      var c := |s.callers|;
      var u := Recruit(s, c, 1);
      var v := s.(callers := s.callers + [Wanting]);
      assert u.callers == s.callers + [Scanner(s, 0)];
      assert u.callers[c := Wanting] == v.callers;
      assert Step(u, ScanEnd(c), v);
      t := Queue(v, w - 1);
      ReachStep(Next, s, u, v);
      ReachJoin(Next, s, v, t);
    }
  }

  lemma FirstDial(s: State, w: nat) returns (t: State)
    requires Init(s)
    ensures Reaches(Next, s, t) && Overgrown(t, 0, w) && t.limit == s.limit
  {
    var s1 := Queue(s, w + 1);
    var s2 := s1.(lock := Held(w, false), callers := s1.callers[w := Rescanning(0)]);
    assert Step(s1, Acquire(w), s2);
    ReachStep(Next, s, s1, s2);
    t := DialAndIdle(s2, w, w + 1);
    ReachJoin(Next, s, s2, t);
    forall c | 0 <= c < w ensures t.callers[c].Wanting? {
      assert t.callers[c] == t.callers[..w][c] == s2.callers[..w][c];
    }
  }

  /** For every limit and every m there is a run that ends with m connections more than the channels
      open at the same time ever needed: the bound with one extra connection per disturbed dial is
      met exactly, and the excess has no bound. */
  lemma DisturbedDialsOvergrow(limit: nat, m: nat) returns (tr: seq<State>)
    requires limit >= 1
    ensures Pooling(tr) && Last(tr).limit == limit && Last(tr).extra == m && Last(tr).peak >= 0
    ensures |Last(tr).pool| == CeilDiv(Last(tr).peak, limit) + m
  {
    var s := State(limit, [], 0, 0, Free, [], 0, 0);
    var u := FirstDial(s, m);
    var t := GrowBy(u, 0, m);
    ReachJoin(Next, s, u, t);
    DivUnique(t.peak + limit - 1, limit, 1, t.peak - 1);
    tr := RunTo(Init, Next, s, t);
  }
}
