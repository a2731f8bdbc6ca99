/** When the last payload a status page gets is the job's final snapshot: a counter watch that is still
    there when the final counters are written can write after them. */
module ServiceLimits {
  import opened Options
  import opened Runs
  import opened Snapshot
  import opened Service

  ghost predicate Over(s: State, h: nat) {
    h < |s.handlers| && (s.handlers[h].pc.Flushed? || s.handlers[h].pc.Cleared?)
  }

  /** The memory writer of handler h's job. */
  ghost predicate HasWriter(s: State, h: nat) { Over(s, h) && s.handlers[h].pc.own + 1 < |s.writers| }

  ghost function Writes(s: State, h: nat): seq<Write>
    requires HasWriter(s, h)
  {
    s.writers[s.handlers[h].pc.own + 1]
  }

  /** The last thing in the writer is not the final write. */
  ghost predicate Stale(ws: seq<Write>) { |ws| > 0 && !Last(ws).final }

  ghost predicate LiveWatch(s: State, h: nat) {
    exists w | 0 <= w < |s.watches| :: s.watches[w].job == h && !s.watches[w].pc.Gone?
  }

  /** A status loop has ended with a payload of h's job that is not the job's final write. */
  ghost predicate SentStale(s: State, h: nat) {
    && Over(s, h)
    && exists k | 0 <= k < |s.status| ::
         s.status[k].EndedLast? && s.status[k].sw == s.handlers[h].pc.own + 1 && Stale(s.status[k].seen)
  }

  ghost function StalePayload(h: nat): State -> bool { (s: State) => SentStale(s, h) }

  // ----- without a watch nothing is written after the final counters -----

  ghost predicate StatusFresh(s: State, h: nat, x: Status)
    requires Over(s, h)
  {
    (x.Dumped? && x.last) || x.EndedLast? ==> x.sw == s.handlers[h].pc.own + 1 ==> !Stale(x.seen)
  }

  ghost predicate Fresh(s: State, h: nat) {
    && HasWriter(s, h) && !LiveWatch(s, h) && !Stale(Writes(s, h))
    && forall k | 0 <= k < |s.status| :: StatusFresh(s, h, s.status[k])
  }

  lemma OverStays(s: State, m: Move, t: State, h: nat)
    requires Step(s, m, t) && Over(s, h)
    ensures Over(t, h) && t.handlers[h].pc.own == s.handlers[h].pc.own
  {
  }

  lemma WritesStay(s: State, m: Move, t: State, h: nat)
    requires WriteInv(s) && Step(s, m, t) && HasWriter(s, h) && !LiveWatch(s, h)
    ensures HasWriter(t, h) && Writes(t, h) == Writes(s, h)
  {
    OverStays(s, m, t, h);
    assert HandlerOk(s, h);
    if !m.FinalWrite? && !m.Put? { WritersOnlyAdded(s, m, t); }
    if m.FinalWrite? { assert HandlerOk(s, m.h) && CtlOk(s, s.handlers[m.h].pc.own); }
    if m.Put? {
      assert WatchOk(s, m.w) && CtlOk(s, s.watches[m.w].ctl);
      assert s.watches[m.w].job != h;
    }
  }

  lemma NoWatchStays(s: State, m: Move, t: State, h: nat)
    requires Step(s, m, t) && Over(s, h) && !LiveWatch(s, h)
    ensures !LiveWatch(t, h)
  {
    forall w | 0 <= w < |t.watches| && !t.watches[w].pc.Gone? ensures t.watches[w].job != h {
      if w < |s.watches| { assert t.watches[w].job == s.watches[w].job; }
    }
  }

  lemma FreshStays(s: State, t: State, h: nat)
    requires WriteInv(s) && Next(s, t) && Fresh(s, h)
    ensures WriteInv(t) && Fresh(t, h)
  {
    NextKeeps(s, t);
    var m :| Step(s, m, t);
    OverStays(s, m, t, h);
    WritesStay(s, m, t, h);
    NoWatchStays(s, m, t, h);
    forall k | 0 <= k < |t.status| ensures StatusFresh(t, h, t.status[k]) { StatusFreshStays(s, m, t, h, k); }
  }

  lemma StatusFreshStays(s: State, m: Move, t: State, h: nat, k: nat)
    requires Step(s, m, t) && Fresh(s, h) && Over(t, h) && t.handlers[h].pc.own == s.handlers[h].pc.own && k < |t.status|
    ensures StatusFresh(t, h, t.status[k])
  {
    if k < |s.status| { assert StatusFresh(s, h, s.status[k]); }
    if !StatusStep(s, m, t) { assert t.status == s.status; }
  }

  // ----- with one, a stale payload can be sent -----

  /** The watch ticks, collects and writes once more. */
  lemma WriteOnceMore(s: State, h: nat, w: nat) returns (t: State)
    requires WriteInv(s) && HasWriter(s, h) && w < |s.watches| && s.watches[w].job == h && !s.watches[w].pc.Gone?
    ensures Reaches(Next, s, t) && WriteInv(t) && HasWriter(t, h) && Stale(Writes(t, h))
    ensures t.handlers == s.handlers && t.slot == s.slot
  {
    var x := s.watches[w];
    ReachSelf(Next, s);
    var u := s;
    if x.pc.Idle? {
      u := s.(watches := s.watches[w := x.(pc := Holding)]);
      assert Step(s, Tick(w), u);
      NextKeeps(s, u);
      ReachStep(Next, s, s, u);
    }
    assert WatchOk(u, w) && CtlOk(u, x.ctl) && HandlerOk(u, h);
    var e := Entry(0, map[]);
    t := Written(u, x.ctl, Write(h, false, e)).(watches := u.watches[w := x.(pc := Idle)]);
    assert Step(u, Put(w, e), t);
    NextKeeps(u, t);
    ReachStep(Next, s, u, t);
  }

  /** A status loop that begins while the slot is empty ends on what the newest writer holds. */
  lemma StatusLoop(s: State) returns (t: State)
    requires s.slot.None? && s.mem < |s.writers| && |s.sent| == |s.status|
    ensures Reaches(Next, s, t) && t == s.(status := t.status, sent := t.sent) && |t.status| == |s.status| + 1
    ensures var ws := s.writers[s.mem];
            t.status[|s.status|] == EndedLast(s.mem, ws, Shown(Entries(ws)))
  {
    var k := |s.status|;
    var ws := s.writers[s.mem];
    var p := Shown(Entries(ws));
    var s0 := s.(sent := s.sent + [[]]);
    var s1 := s0.(status := s.status + [Ticking]);
    var s2 := s0.(status := s.status + [Sampled(true, s.mem)]);
    var s3 := s0.(status := s.status + [Dumped(true, s.mem, ws, p)]);
    t := s.(status := s.status + [EndedLast(s.mem, ws, p)], sent := s.sent + [[p]]);
    assert s3.sent[k] == [] && [] + [p] == [p];
    assert s3.sent[k := s3.sent[k] + [p]] == t.sent;
    assert s1.status[k := Sampled(true, s.mem)] == s2.status;
    assert s2.status[k := Dumped(true, s.mem, ws, p)] == s3.status;
    assert s3.status[k := EndedLast(s.mem, ws, p)] == t.status;
    assert StatusStep(s, Service.Open, s1) && StatusStep(s1, Sample(k), s2);
    assert StatusStep(s2, Service.Dump(k), s3) && StatusStep(s3, Send(k), t);
    StatusNext(s, Service.Open, s1);
    StatusNext(s1, Sample(k), s2);
    StatusNext(s2, Service.Dump(k), s3);
    StatusNext(s3, Send(k), t);
    ReachSelf(Next, s);
    ReachStep(Next, s, s, s1);
    ReachStep(Next, s, s1, s2);
    ReachStep(Next, s, s2, s3);
    ReachStep(Next, s, s3, t);
  }

  lemma StatusNext(s: State, m: Move, t: State)
    requires StatusStep(s, m, t)
    ensures Next(s, t)
  {
    assert Step(s, m, t);
  }

  /** The job clears the slot, and then a status loop ends on what its writer holds. */
  lemma SendLast(s: State, h: nat) returns (t: State)
    requires WriteInv(s) && HasWriter(s, h) && s.handlers[h].pc.Flushed? && Stale(Writes(s, h))
    ensures Reaches(Next, s, t) && SentStale(t, h)
  {
    assert HandlerOk(s, h);
    var u := To(s, h, Cleared(s.handlers[h].pc.own)).(slot := None);
    assert Step(s, Clear(h), u);
    t := StatusLoop(u);
    ReachFirst(Next, s, u, t);
    assert t.status[|s.status|].EndedLast?;
  }

  lemma FlushedIsFresh(s: State, h: nat)
    requires WriteInv(s) && h < |s.handlers| && s.handlers[h].pc.Flushed?
    ensures HasWriter(s, h)
    ensures !LiveWatch(s, h) && !Stale(Writes(s, h)) ==> Fresh(s, h)
  {
    assert HandlerOk(s, h);
    forall k | 0 <= k < |s.status| ensures StatusFresh(s, h, s.status[k]) { assert StatusOk(s, k); }
  }

  /** Once the final counters of a job are written, a status loop can still end with another payload of
      that job if and only if its counter watch is still there, or has already written after them. */
  lemma StalePayloadIff(tr: seq<State>, h: nat)
    requires Serving(tr) && h < |Last(tr).handlers| && Last(tr).handlers[h].pc.Flushed?
    ensures HasWriter(Last(tr), h)
    ensures Possible(Init, Next, tr, StalePayload(h)) <==> LiveWatch(Last(tr), h) || Stale(Writes(Last(tr), h))
  {
    var s := Last(tr);
    AlwaysInv(tr, |tr| - 1);
    FlushedIsFresh(s, h);
    if LiveWatch(s, h) || Stale(Writes(s, h)) {
      var u := s;
      ReachSelf(Next, s);
      if LiveWatch(s, h) {
        var w: nat :| w < |s.watches| && s.watches[w].job == h && !s.watches[w].pc.Gone?;
        u := WriteOnceMore(s, h, w);
      }
      var t := SendLast(u, h);
      ReachJoin(Next, s, u, t);
      ReachedIsPossible(Init, Next, tr, t, StalePayload(h));
    } else {
      forall more | Serving(tr + more) ensures !StalePayload(h)(Last(tr + more)) {
        NeverStale(tr, tr + more, h);
      }
    }
  }

  lemma NeverStale(tr: seq<State>, long: seq<State>, h: nat)
    requires |tr| > 0 && tr <= long && Serving(long) && WriteInv(Last(tr)) && Fresh(Last(tr), h)
    ensures !StalePayload(h)(Last(long))
  {
    var k := |tr| - 1;
    var start := (s: State) => s == long[k];
    var inv := (s: State) => WriteInv(s) && Fresh(s, h);
    forall s, t | inv(s) && Next(s, t) ensures inv(t) { FreshStays(s, t, h); }
    assert Run(start, Next, long[k..]);
    Always(start, Next, inv, long[k..], |long| - 1 - k);
    var s := Last(long);
    assert Fresh(s, h);
    forall j | 0 <= j < |s.status| ensures StatusFresh(s, h, s.status[j]) {}
  }

  /** In particular: when the final counters are written, no later payload can be another one if and only
      if the counter watch has already quit. */
  lemma FinalWriteIsLastIff(tr: seq<State>, h: nat, e: Entry)
    requires Serving(tr) && |tr| >= 2 && Step(tr[|tr| - 2], FinalWrite(h, e), Last(tr))
    ensures Possible(Init, Next, tr, StalePayload(h)) <==> LiveWatch(Last(tr), h)
  {
    var s, t := tr[|tr| - 2], Last(tr);
    AlwaysInv(tr, |tr| - 2);
    assert HandlerOk(s, h) && CtlOk(s, s.handlers[h].pc.own);
    StalePayloadIff(tr, h);
    assert Last(Writes(t, h)) == Write(h, true, e);
  }

  // ----- the counter watch runs until it is told to stop -----

  ghost predicate WatchesStay(s: State) {
    forall w | 0 <= w < |s.watches| && s.watches[w].pc.Gone? ::
      s.watches[w].job < |s.handlers| && StopClosed(s.handlers[s.watches[w].job].pc)
  }

  lemma StopStaysClosed(s: State, m: Move, t: State, h: nat)
    requires Step(s, m, t) && h < |s.handlers| && StopClosed(s.handlers[h].pc)
    ensures h < |t.handlers| && StopClosed(t.handlers[h].pc)
  {
  }

  lemma GoneBefore(s: State, m: Move, t: State, w: nat)
    requires Step(s, m, t) && w < |t.watches| && t.watches[w].pc.Gone?
    ensures w < |s.watches| && t.watches[w].job == s.watches[w].job
    ensures !s.watches[w].pc.Gone? ==> s.watches[w].job < |s.handlers| && StopClosed(s.handlers[s.watches[w].job].pc)
  {
  }

  /** A counter watch has quit only if its job has told it to stop. */
  lemma WatchQuitsWhenTold(tr: seq<State>, k: nat)
    requires Serving(tr) && k < |tr|
    ensures WatchesStay(tr[k])
  {
    forall s, t | WatchesStay(s) && Next(s, t) ensures WatchesStay(t) {
      var m :| Step(s, m, t);
      forall w | 0 <= w < |t.watches| && t.watches[w].pc.Gone?
        ensures t.watches[w].job < |t.handlers| && StopClosed(t.handlers[t.watches[w].job].pc)
      {
        GoneBefore(s, m, t, w);
        StopStaysClosed(s, m, t, t.watches[w].job);
      }
    }
    Always(Init, Next, WatchesStay, tr, k);
  }
}
