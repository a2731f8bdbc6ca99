/** The job slot of the service (service/controllers.go) as a step system: job-create handlers, the
    job goroutines they start, the counter watches of those jobs
    (master/master_controller.go), and status watchers. Each critical section is one step. */
module Service {
  import opened Runs
  import opened Options
  import opened Snapshot

  /** One WriteCounters call on a memory writer: which handler's job made it, whether it is the job's
      final write or one of its counter watch, and what it wrote. */
  datatype Write = Write(author: nat, final: bool, entry: Entry)

  /** The history of a memory writer as Snapshot.MemorySnapshotWriter keeps it. */
  function Entries(ws: seq<Write>): (h: seq<Entry>)
    ensures |h| == |ws| && forall j | 0 <= j < |ws| :: h[j] == ws[j].entry
  {
    seq(|ws|, j requires 0 <= j < |ws| => ws[j].entry)
  }

  /** A MasterController object: the writer it was built with, the handler that built it, and the
      agents registered with it. */
  datatype Ctl = Ctl(writer: nat, owner: nat, agents: seq<string>)

  datatype HandlerPc =
    | Arrived
    | Checked                                          // passed the check under the read lock
    | Rejected
    | Registering(own: nat, i: nat)                    // claimed the slot, i agents registered
    | RegFailed(own: nat)                              // an agent could not be registered
    | Starting(own: nat)                               // job goroutine exists
    | Running(own: nat, rcv: nat, watched: bool)       // in Run on the controller it found in the slot
    | Stopped(own: nat, rcv: nat)                      // told the counter watch to stop
    | Flushed(own: nat, rcv: nat)                      // final counters written, Run returned
    | Cleared(own: nat)
    | Crashed                                          // dereferenced an empty slot

  datatype Handler = Handler(agents: seq<string>, pc: HandlerPc)

  datatype WatchPc = Idle | Holding | Gone

  datatype Watch = Watch(job: nat, ctl: nat, pc: WatchPc)

  datatype Status =
    | Ticking
    | Sampled(last: bool, sw: nat)
    | Dumped(last: bool, sw: nat, seen: seq<Write>, payload: Entry)   // `seen`: the writes so far
    | EndedLast(sw: nat, seen: seq<Write>, payload: Entry)
    | Broken

  datatype State = State(
    slot: Option<nat>,             // masterController
    mem: nat,                      // memSnapshotWriter
    ctls: seq<Ctl>,
    writers: seq<seq<Write>>,
    handlers: seq<Handler>,
    watches: seq<Watch>,
    status: seq<Status>,
    sent: seq<seq<Entry>>)         // the payloads each status loop has sent

  // ----- steps -----

  datatype Move =
    | Arrive(agents: seq<string>) | FirstCheck(h: nat) | Claim(h: nat)
    | RegisterOk(h: nat) | RegisterFail(h: nat) | StartJob(h: nat) | EnterRun(h: nat)
    | StartWatch(h: nat) | StopWatch(h: nat) | FinalWrite(h: nat, entry: Entry) | Clear(h: nat)
    | Tick(w: nat) | Put(w: nat, entry: Entry) | Quit(w: nat)
    | Open | Sample(k: nat) | Dump(k: nat) | Send(k: nat) | Break(k: nat)

  function To(s: State, h: nat, pc: HandlerPc): State
    requires h < |s.handlers|
  {
    s.(handlers := s.handlers[h := s.handlers[h].(pc := pc)])
  }

  function Written(s: State, ctl: nat, w: Write): State
    requires ctl < |s.ctls| && s.ctls[ctl].writer < |s.writers|
  {
    var i := s.ctls[ctl].writer;
    s.(writers := s.writers[i := s.writers[i] + [w]])
  }

  ghost predicate CreateStep(s: State, m: Move, t: State) {
    match m
    case Arrive(agents) => t == s.(handlers := s.handlers + [Handler(agents, Arrived)])
    case FirstCheck(h) =>
      && h < |s.handlers| && s.handlers[h].pc.Arrived?
      && t == To(s, h, if s.slot.None? then Checked else Rejected)
    case Claim(h) =>
      && h < |s.handlers| && s.handlers[h].pc.Checked?
      && if s.slot.Some? then t == To(s, h, Rejected)
         else t == To(s, h, Registering(|s.ctls|, 0)).(
                     slot := Some(|s.ctls|), mem := |s.writers|,
                     ctls := s.ctls + [Ctl(|s.writers|, h, [])], writers := s.writers + [[]])
    case RegisterOk(h) =>
      && h < |s.handlers| && s.handlers[h].pc.Registering?
      && var pc := s.handlers[h].pc;
      && pc.i < |s.handlers[h].agents|
      && if s.slot.None? then t == To(s, h, Crashed)
         else && s.slot.value < |s.ctls|
              && var c := s.ctls[s.slot.value];
              && t == To(s, h, Registering(pc.own, pc.i + 1)).(
                        ctls := s.ctls[s.slot.value := c.(agents := c.agents + [s.handlers[h].agents[pc.i]])])
    case RegisterFail(h) =>
      && h < |s.handlers| && s.handlers[h].pc.Registering?
      && s.handlers[h].pc.i < |s.handlers[h].agents|
      && t == To(s, h, if s.slot.None? then Crashed else RegFailed(s.handlers[h].pc.own))
    case StartJob(h) =>
      && h < |s.handlers| && s.handlers[h].pc.Registering?
      && s.handlers[h].pc.i == |s.handlers[h].agents|
      && t == To(s, h, Starting(s.handlers[h].pc.own))
    case _ => false
  }

  ghost predicate JobStep(s: State, m: Move, t: State) {
    match m
    case EnterRun(h) =>
      && h < |s.handlers| && s.handlers[h].pc.Starting?
      && t == To(s, h, if s.slot.None? then Crashed
                       else Running(s.handlers[h].pc.own, s.slot.value, false))
    case StartWatch(h) =>
      && h < |s.handlers| && s.handlers[h].pc.Running? && !s.handlers[h].pc.watched
      && t == To(s, h, s.handlers[h].pc.(watched := true)).(
                watches := s.watches + [Watch(h, s.handlers[h].pc.rcv, Idle)])
    case StopWatch(h) =>
      && h < |s.handlers| && s.handlers[h].pc.Running? && s.handlers[h].pc.watched
      && t == To(s, h, Stopped(s.handlers[h].pc.own, s.handlers[h].pc.rcv))
    case FinalWrite(h, entry) =>
      && h < |s.handlers| && s.handlers[h].pc.Stopped?
      && var pc := s.handlers[h].pc;
      && pc.rcv < |s.ctls| && s.ctls[pc.rcv].writer < |s.writers|
      && t == To(Written(s, pc.rcv, Write(h, true, entry)), h, Flushed(pc.own, pc.rcv))
    case Clear(h) =>
      && h < |s.handlers| && s.handlers[h].pc.Flushed?
      && t == To(s, h, Cleared(s.handlers[h].pc.own)).(slot := None)
    case _ => false
  }

  /** The stop channel of the job of handler h is closed. */
  predicate StopClosed(pc: HandlerPc) { pc.Stopped? || pc.Flushed? || pc.Cleared? }

  ghost predicate WatchStep(s: State, m: Move, t: State) {
    match m
    case Tick(w) =>
      && w < |s.watches| && s.watches[w].pc.Idle?
      && t == s.(watches := s.watches[w := s.watches[w].(pc := Holding)])
    case Put(w, entry) =>
      && w < |s.watches| && s.watches[w].pc.Holding?
      && var x := s.watches[w];
      && x.ctl < |s.ctls| && s.ctls[x.ctl].writer < |s.writers|
      && t == Written(s, x.ctl, Write(x.job, false, entry)).(watches := s.watches[w := x.(pc := Idle)])
    case Quit(w) =>
      && w < |s.watches| && s.watches[w].pc.Idle?
      && s.watches[w].job < |s.handlers| && StopClosed(s.handlers[s.watches[w].job].pc)
      && t == s.(watches := s.watches[w := s.watches[w].(pc := Gone)])
    case _ => false
  }

  ghost predicate StatusStep(s: State, m: Move, t: State) {
    match m
    case Open => t == s.(status := s.status + [Ticking], sent := s.sent + [[]])
    case Sample(k) =>
      && k < |s.status| && s.status[k].Ticking?
      && t == s.(status := s.status[k := Sampled(s.slot.None?, s.mem)])
    case Dump(k) =>
      && k < |s.status| && s.status[k].Sampled? && s.status[k].sw < |s.writers|
      && var x := s.status[k];
      && t == s.(status := s.status[k := Dumped(x.last, x.sw, s.writers[x.sw], Shown(Entries(s.writers[x.sw])))])
    case Send(k) =>
      && k < |s.status| && k < |s.sent| && s.status[k].Dumped?
      && var x := s.status[k];
      && t == s.(status := s.status[k := if x.last then EndedLast(x.sw, x.seen, x.payload) else Ticking],
                 sent := s.sent[k := s.sent[k] + [x.payload]])
    case Break(k) =>
      && k < |s.status| && (s.status[k].Sampled? || s.status[k].Dumped?)
      && t == s.(status := s.status[k := Broken])
    case _ => false
  }

  ghost predicate Step(s: State, m: Move, t: State) {
    CreateStep(s, m, t) || JobStep(s, m, t) || WatchStep(s, m, t) || StatusStep(s, m, t)
  }

  ghost predicate Next(s: State, t: State) { exists m :: Step(s, m, t) }

  ghost predicate Init(s: State) {
    s == State(None, 0, [], [[]], [], [], [], [])
  }

  ghost predicate Serving(tr: seq<State>) { Run(Init, Next, tr) }

  // ----- invariant -----

  /** The handler, or the job it started, is entitled to the slot. */
  predicate Holds(pc: HandlerPc) {
    pc.Registering? || pc.RegFailed? || pc.Starting? || pc.Running? || pc.Stopped? || pc.Flushed?
  }

  predicate HasOwn(pc: HandlerPc) { Holds(pc) || pc.Cleared? }

  ghost predicate HandlerOk(s: State, h: nat)
    requires h < |s.handlers|
  {
    var pc := s.handlers[h].pc;
    && !pc.Crashed?
    && (Holds(pc) ==> s.slot == Some(pc.own))
    && (HasOwn(pc) ==> pc.own < |s.ctls| && s.ctls[pc.own].owner == h)
    && (pc.Running? || pc.Stopped? || pc.Flushed? ==> pc.rcv == pc.own)
    && (pc.Registering? ==>
          pc.i <= |s.handlers[h].agents| && s.ctls[pc.own].agents == s.handlers[h].agents[..pc.i])
    && (pc.Starting? || pc.Running? || pc.Stopped? || pc.Flushed? || pc.Cleared? ==>
          s.ctls[pc.own].agents == s.handlers[h].agents)
  }

  ghost predicate CtlOk(s: State, c: nat)
    requires c < |s.ctls|
  {
    var x := s.ctls[c];
    && x.writer == c + 1 && x.owner < |s.handlers|
    && HasOwn(s.handlers[x.owner].pc) && s.handlers[x.owner].pc.own == c
    && (s.slot != Some(c) ==> s.handlers[x.owner].pc.Cleared?)
    && (s.slot == Some(c) ==> Holds(s.handlers[x.owner].pc))
  }

  ghost predicate OnlyWatch(ws: seq<Write>, author: nat) {
    forall j | 0 <= j < |ws| :: ws[j].author == author && !ws[j].final
  }

  /** Exactly one final write, and nothing but the author's own counter watch around it. */
  ghost predicate Final(ws: seq<Write>, author: nat) {
    exists k | 0 <= k < |ws| ::
      ws[k].author == author && ws[k].final && OnlyWatch(ws[..k], author) && OnlyWatch(ws[k + 1..], author)
  }

  ghost predicate WriterOk(s: State, c: nat) {
    && c < |s.ctls| && c + 1 < |s.writers| && s.ctls[c].owner < |s.handlers|
    && var h := s.ctls[c].owner;
    if s.handlers[h].pc.Flushed? || s.handlers[h].pc.Cleared? then Final(s.writers[c + 1], h)
    else OnlyWatch(s.writers[c + 1], h)
  }

  ghost predicate WatchOk(s: State, w: nat)
    requires w < |s.watches|
  {
    && s.watches[w].ctl < |s.ctls| && s.ctls[s.watches[w].ctl].owner == s.watches[w].job
  }

  /** These are the writes of a job that is over; writer 0 belongs to no job. */
  ghost predicate FinalOf(s: State, sw: nat, seen: seq<Write>)
    requires sw <= |s.ctls|
  {
    if sw == 0 then seen == []
    else && s.ctls[sw - 1].owner < |s.handlers| && s.handlers[s.ctls[sw - 1].owner].pc.Cleared?
         && Final(seen, s.ctls[sw - 1].owner)
  }

  ghost predicate StatusOk(s: State, k: nat)
    requires k < |s.status|
  {
    match s.status[k]
    case Sampled(last, sw) =>
      && sw <= |s.ctls|
      && (last && sw > 0 ==> s.ctls[sw - 1].owner < |s.handlers| && s.handlers[s.ctls[sw - 1].owner].pc.Cleared?)
    case Dumped(last, sw, seen, payload) =>
      && sw <= |s.ctls| && payload == Shown(Entries(seen)) && (last ==> FinalOf(s, sw, seen))
    case EndedLast(sw, seen, payload) =>
      sw <= |s.ctls| && payload == Shown(Entries(seen)) && FinalOf(s, sw, seen)
    case _ => true
  }

  ghost predicate SlotInv(s: State) {
    && s.mem == |s.ctls| && |s.writers| == |s.ctls| + 1 && s.writers[0] == []
    && (s.slot.Some? ==> s.slot.value == |s.ctls| - 1)
    && (forall h | 0 <= h < |s.handlers| :: HandlerOk(s, h))
    && (forall c | 0 <= c < |s.ctls| :: CtlOk(s, c))
  }

  ghost predicate WriteInv(s: State) {
    && SlotInv(s)
    && (forall c | 0 <= c < |s.ctls| :: WriterOk(s, c))
    && (forall w | 0 <= w < |s.watches| :: WatchOk(s, w))
    && |s.sent| == |s.status| && (forall k | 0 <= k < |s.status| :: StatusOk(s, k))
  }

  // ----- every step keeps it -----

  lemma ClaimKeeps(s: State, h: nat, t: State)
    requires SlotInv(s) && CreateStep(s, Claim(h), t)
    ensures SlotInv(t)
  {
    forall g | 0 <= g < |t.handlers| ensures HandlerOk(t, g) { assert HandlerOk(s, g); }
    forall c | 0 <= c < |t.ctls| ensures CtlOk(t, c) {
      if c < |s.ctls| { assert CtlOk(s, c); }
    }
  }

  lemma CreateKeeps(s: State, m: Move, t: State)
    requires SlotInv(s) && CreateStep(s, m, t)
    ensures SlotInv(t)
  {
    if m.Claim? {
      ClaimKeeps(s, m.h, t);
    } else if m.Arrive? {
      forall g | 0 <= g < |t.handlers| ensures HandlerOk(t, g) { if g < |s.handlers| { assert HandlerOk(s, g); } }
      forall c | 0 <= c < |t.ctls| ensures CtlOk(t, c) { assert CtlOk(s, c); }
    } else {
      forall g | 0 <= g < |t.handlers| ensures HandlerOk(t, g) { CreateKeepsHandler(s, m, t, g); }
      forall c | 0 <= c < |t.ctls| ensures CtlOk(t, c) { assert CtlOk(s, c); assert HandlerOk(s, m.h); }
    }
  }

  lemma CreateKeepsHandler(s: State, m: Move, t: State, g: nat)
    requires SlotInv(s) && CreateStep(s, m, t) && !m.Claim? && !m.Arrive? && g < |s.handlers|
    ensures g < |t.handlers| && HandlerOk(t, g)
  {
    assert HandlerOk(s, g) && HandlerOk(s, m.h);
  }

  lemma JobKeeps(s: State, m: Move, t: State)
    requires SlotInv(s) && JobStep(s, m, t)
    ensures SlotInv(t)
  {
    assert HandlerOk(s, m.h);
    forall g | 0 <= g < |t.handlers| ensures HandlerOk(t, g) { assert HandlerOk(s, g); }
    forall c | 0 <= c < |t.ctls| ensures CtlOk(t, c) { assert CtlOk(s, c); }
    if m.FinalWrite? { assert CtlOk(s, s.handlers[m.h].pc.own); }
  }

  lemma OtherKeeps(s: State, m: Move, t: State)
    requires WriteInv(s) && (WatchStep(s, m, t) || StatusStep(s, m, t))
    ensures SlotInv(t)
  {
    assert t.handlers == s.handlers && t.ctls == s.ctls && t.slot == s.slot;
    forall g | 0 <= g < |t.handlers| ensures HandlerOk(t, g) { assert HandlerOk(s, g); }
    forall c | 0 <= c < |t.ctls| ensures CtlOk(t, c) { assert CtlOk(s, c); }
    if m.Put? {
      assert WatchOk(s, m.w) && CtlOk(s, s.watches[m.w].ctl);
    }
  }

  lemma FinalAppend(ws: seq<Write>, author: nat, e: Entry)
    ensures OnlyWatch(ws, author) ==> Final(ws + [Write(author, true, e)], author)
    ensures OnlyWatch(ws, author) ==> OnlyWatch(ws + [Write(author, false, e)], author)
    ensures Final(ws, author) ==> Final(ws + [Write(author, false, e)], author)
  {
    if OnlyWatch(ws, author) {
      var xs := ws + [Write(author, true, e)];
      assert xs[|ws|].final && xs[..|ws|] == ws && xs[|ws| + 1..] == [];
    }
    if Final(ws, author) {
      var k :| 0 <= k < |ws| &&
        ws[k].author == author && ws[k].final && OnlyWatch(ws[..k], author) && OnlyWatch(ws[k + 1..], author);
      var xs := ws + [Write(author, false, e)];
      assert xs[k] == ws[k] && xs[..k] == ws[..k] && xs[k + 1..] == ws[k + 1..] + [Write(author, false, e)];
    }
  }

  lemma WriterAfterFinalWrite(s: State, h: nat, e: Entry, t: State, c: nat)
    requires WriteInv(s) && JobStep(s, FinalWrite(h, e), t) && c < |s.ctls|
    ensures WriterOk(t, c)
  {
    assert CtlOk(s, c) && WriterOk(s, c);
    assert HandlerOk(s, h) && CtlOk(s, s.handlers[h].pc.own);
    FinalAppend(s.writers[c + 1], s.ctls[c].owner, e);
  }

  lemma WriterAfterPut(s: State, w: nat, e: Entry, t: State, c: nat)
    requires WriteInv(s) && WatchStep(s, Put(w, e), t) && c < |s.ctls|
    ensures WriterOk(t, c)
  {
    assert CtlOk(s, c) && WriterOk(s, c);
    assert WatchOk(s, w) && CtlOk(s, s.watches[w].ctl);
    FinalAppend(s.writers[c + 1], s.ctls[c].owner, e);
  }

  lemma WriterUntouched(s: State, m: Move, t: State, c: nat)
    requires SlotInv(s) && Step(s, m, t) && !m.FinalWrite? && !m.Put? && c < |s.ctls| && WriterOk(s, c)
    ensures WriterOk(t, c)
  {
    assert CtlOk(s, c);
    OwnersKept(s, m, t);
    WritersOnlyAdded(s, m, t);
  }

  lemma WritersOnlyAdded(s: State, m: Move, t: State)
    requires Step(s, m, t) && !m.FinalWrite? && !m.Put?
    ensures s.writers <= t.writers
  {
  }

  lemma WritersKept(s: State, m: Move, t: State, c: nat)
    requires WriteInv(s) && SlotInv(t) && Step(s, m, t) && c < |t.ctls| && CtlOk(t, c)
    ensures WriterOk(t, c)
  {
    if c < |s.ctls| {
      if m.FinalWrite? {
        WriterAfterFinalWrite(s, m.h, m.entry, t, c);
      } else if m.Put? {
        WriterAfterPut(s, m.w, m.entry, t, c);
      } else {
        WriterUntouched(s, m, t, c);
      }
    }
  }

  lemma WatchesKept(s: State, m: Move, t: State, w: nat)
    requires SlotInv(s) && Step(s, m, t) && w < |t.watches| && (w < |s.watches| ==> WatchOk(s, w))
    ensures WatchOk(t, w)
  {
    OwnersKept(s, m, t);
    if !WatchStep(s, m, t) && !m.StartWatch? { assert t.watches == s.watches; }
    if w < |s.watches| {
      assert t.watches[w].ctl == s.watches[w].ctl && t.watches[w].job == s.watches[w].job;
    } else {
      assert m.StartWatch? && HandlerOk(s, m.h);
    }
  }

  lemma SentKept(s: State, m: Move, t: State)
    requires Step(s, m, t) && |s.sent| == |s.status|
    ensures |t.sent| == |t.status|
  {
  }

  lemma StatusKept(s: State, m: Move, t: State, k: nat)
    requires WriteInv(s) && SlotInv(t) && Step(s, m, t) && k < |t.status|
    ensures StatusOk(t, k)
  {
    if k < |s.status| {
      assert StatusOk(s, k);
      if m.Sample? && m.k == k {
        if s.mem > 0 { assert CtlOk(s, s.mem - 1); }
      } else if m.Dump? && m.k == k {
        if s.status[k].sw > 0 { assert WriterOk(s, s.status[k].sw - 1); }
      } else {
        StatusUntouched(s, m, t, k);
      }
    }
  }

  lemma StatusUntouched(s: State, m: Move, t: State, k: nat)
    requires SlotInv(s) && Step(s, m, t) && k < |s.status| && k < |t.status| && StatusOk(s, k)
    requires !(m.Sample? && m.k == k) && !(m.Dump? && m.k == k)
    ensures StatusOk(t, k)
  {
    OwnersKept(s, m, t);
    if StatusStep(s, m, t) {
      StatusStepOther(s, m, t, k);
    } else {
      assert t.status == s.status;
    }
  }

  lemma StatusStepOther(s: State, m: Move, t: State, k: nat)
    requires StatusStep(s, m, t) && k < |s.status| && k < |t.status| && StatusOk(s, k)
    requires !(m.Sample? && m.k == k) && !(m.Dump? && m.k == k)
    ensures StatusOk(t, k)
  {
  }

  /** Controllers keep their owner, and a cleared job stays cleared. */
  lemma OwnersKept(s: State, m: Move, t: State)
    requires SlotInv(s) && Step(s, m, t)
    ensures |s.ctls| <= |t.ctls| && |s.handlers| <= |t.handlers|
    ensures forall c | 0 <= c < |s.ctls| :: t.ctls[c].owner == s.ctls[c].owner
    ensures forall h | 0 <= h < |s.handlers| && s.handlers[h].pc.Cleared? :: t.handlers[h].pc.Cleared?
  {
  }

  lemma NextKeeps(s: State, t: State)
    requires WriteInv(s) && Next(s, t)
    ensures WriteInv(t)
  {
    var m :| Step(s, m, t);
    if CreateStep(s, m, t) {
      CreateKeeps(s, m, t);
    } else if JobStep(s, m, t) {
      JobKeeps(s, m, t);
    } else {
      OtherKeeps(s, m, t);
    }
    forall c | 0 <= c < |t.ctls| ensures WriterOk(t, c) { assert CtlOk(t, c); WritersKept(s, m, t, c); }
    forall w | 0 <= w < |t.watches| ensures WatchOk(t, w) { WatchesKept(s, m, t, w); }
    SentKept(s, m, t);
    forall k | 0 <= k < |t.status| ensures StatusOk(t, k) { StatusKept(s, m, t, k); }
  }

  lemma AlwaysInv(tr: seq<State>, k: nat)
    requires Serving(tr) && k < |tr|
    ensures WriteInv(tr[k])
  {
    forall s, t | WriteInv(s) && Next(s, t) ensures WriteInv(t) { NextKeeps(s, t); }
    Always(Init, Next, WriteInv, tr, k);
  }

  // ----- results -----

  /** The slot is taken exactly while one handler, or the job it started, holds it; that holder is
      unique, its unlocked reads of the slot have always found its own controller, and the agents in
      that controller are the ones it asked for, in order. Nobody ever finds the slot empty. */
  lemma SlotHasOneHolder(tr: seq<State>, k: nat)
    requires Serving(tr) && k < |tr|
    ensures var s := tr[k];
            && (s.slot.Some? <==> exists h | 0 <= h < |s.handlers| :: Holds(s.handlers[h].pc))
            && (forall g, h | 0 <= g < |s.handlers| && 0 <= h < |s.handlers| ::
                  Holds(s.handlers[g].pc) && Holds(s.handlers[h].pc) ==> g == h)
            && (forall h | 0 <= h < |s.handlers| :: HandlerOk(s, h))
  {
    AlwaysInv(tr, k);
    var s := tr[k];
    forall g, h | 0 <= g < |s.handlers| && 0 <= h < |s.handlers| && Holds(s.handlers[g].pc) && Holds(s.handlers[h].pc)
      ensures g == h
    {
      assert HandlerOk(s, g) && HandlerOk(s, h);
    }
    if s.slot.Some? {
      assert CtlOk(s, s.slot.value);
      assert Holds(s.handlers[s.ctls[s.slot.value].owner].pc);
    } else {
      forall h | 0 <= h < |s.handlers| ensures !Holds(s.handlers[h].pc) { assert HandlerOk(s, h); }
    }
  }

  /** A taken slot changes hands in one way only: the holder's own job clears it after its final
      write. */
  lemma OnlyHolderClears(tr: seq<State>, k: nat)
    requires Serving(tr) && k + 1 < |tr| && tr[k].slot.Some? && tr[k + 1].slot != tr[k].slot
    ensures tr[k + 1].slot.None?
    ensures exists h | 0 <= h < |tr[k].handlers| && h < |tr[k + 1].handlers| ::
              && tr[k].handlers[h].pc == Flushed(tr[k].slot.value, tr[k].slot.value)
              && tr[k + 1].handlers[h].pc == Cleared(tr[k].slot.value)
  {
    AlwaysInv(tr, k);
    assert Next(tr[k], tr[k + 1]);
    var m :| Step(tr[k], m, tr[k + 1]);
    assert m.Clear? && HandlerOk(tr[k], m.h);
  }

  /** No counter snapshot of one job is ever written to another job's memory writer, not even by a
      counter watch that outlives its job; the writer the service starts with stays empty. */
  lemma WritesStayHome(tr: seq<State>, k: nat, w: nat, j: nat)
    requires Serving(tr) && k < |tr| && w < |tr[k].writers| && j < |tr[k].writers[w]|
    ensures 0 < w <= |tr[k].ctls|
    ensures tr[k].ctls[w - 1].writer == w && tr[k].writers[w][j].author == tr[k].ctls[w - 1].owner
  {
    AlwaysInv(tr, k);
    var s := tr[k];
    assert CtlOk(s, w - 1) && WriterOk(s, w - 1);
    var ws, h := s.writers[w], s.ctls[w - 1].owner;
    if Final(ws, h) {
      var i :| 0 <= i < |ws| && ws[i].author == h && ws[i].final && OnlyWatch(ws[..i], h) && OnlyWatch(ws[i + 1..], h);
      if j < i { assert ws[..i][j] == ws[j]; }
      if j > i { assert ws[i + 1..][j - i - 1] == ws[j]; }
    }
  }

  /** A status loop that ends because it saw the slot empty after a job was created has dumped that
      job's writer after the job's one final write; whatever else was written there came from that
      job's own counter watch, and the payload it sent is the last of these writes. */
  lemma LastFlushIsComplete(tr: seq<State>, k: nat, i: nat)
    requires Serving(tr) && k < |tr| && i < |tr[k].status| && tr[k].status[i].EndedLast? && tr[k].status[i].sw > 0
    ensures var x := tr[k].status[i];
            && x.sw <= |tr[k].ctls| && tr[k].ctls[x.sw - 1].writer == x.sw
            && Final(x.seen, tr[k].ctls[x.sw - 1].owner)
            && |x.seen| > 0 && x.payload == Last(x.seen).entry && Last(x.seen).author == tr[k].ctls[x.sw - 1].owner
  {
    AlwaysInv(tr, k);
    var x := tr[k].status[i];
    assert StatusOk(tr[k], i) && CtlOk(tr[k], x.sw - 1);
    FinalHasLast(x.seen, tr[k].ctls[x.sw - 1].owner);
  }

  lemma FinalHasLast(ws: seq<Write>, h: nat)
    requires Final(ws, h)
    ensures |ws| > 0 && Last(ws).author == h
  {
    var j :| 0 <= j < |ws| && ws[j].author == h && ws[j].final && OnlyWatch(ws[..j], h) && OnlyWatch(ws[j + 1..], h);
    if j < |ws| - 1 { assert ws[j + 1..][|ws| - j - 2] == Last(ws); }
  }

  /** After a failed registration the slot is never released: every later request is refused. */
  lemma FailedRegistrationKeepsSlot(tr: seq<State>, k: nat, l: nat, h: nat)
    requires Serving(tr) && k <= l < |tr| && h < |tr[k].handlers| && tr[k].handlers[h].pc.RegFailed?
    ensures h < |tr[l].handlers| && tr[l].handlers[h].pc == tr[k].handlers[h].pc
    ensures tr[l].slot == Some(tr[k].handlers[h].pc.own)
  {
    var pc := tr[k].handlers[h].pc;
    var start := (s: State) => s == tr[k];
    var inv := (s: State) => h < |s.handlers| && s.handlers[h].pc == pc;
    forall s, t | inv(s) && Next(s, t) ensures inv(t) { RegFailedStays(s, t, h); }
    assert Run(start, Next, tr[k..]);
    Always(start, Next, inv, tr[k..], l - k);
    AlwaysInv(tr, l);
    assert HandlerOk(tr[l], h);
  }

  lemma RegFailedStays(s: State, t: State, h: nat)
    requires Next(s, t) && h < |s.handlers| && s.handlers[h].pc.RegFailed?
    ensures h < |t.handlers| && t.handlers[h].pc == s.handlers[h].pc
  {
  }

  // ----- what a status page gets while the job runs -----

  /** The newest entry of a memory writer, or what a writer shows that nothing was written to. */
  function Newest(ws: seq<Write>): Entry { if ws == [] then Entry(0, map[]) else ws[|ws| - 1].entry }

  /** At moment j status loop i, with n payloads sent, reads slot and writer under the lock. */
  ghost predicate SamplesAt(tr: seq<State>, j: nat, i: nat, n: nat) {
    && j + 1 < |tr| && i < |tr[j].status| && i < |tr[j].sent| && |tr[j].sent[i]| == n && tr[j].status[i].Ticking?
    && i < |tr[j + 1].status| && tr[j + 1].status[i].Sampled?
  }

  /** At moment j status loop i, with n payloads sent, dumps the writer it has read. */
  ghost predicate DumpsAt(tr: seq<State>, j: nat, i: nat, n: nat) {
    && j + 1 < |tr| && i < |tr[j].status| && i < |tr[j].sent| && |tr[j].sent[i]| == n && tr[j].status[i].Sampled?
    && i < |tr[j + 1].status| && tr[j + 1].status[i].Dumped?
  }

  /** What one step does to one status loop. */
  lemma LoopMoves(s: State, t: State, i: nat)
    requires Next(s, t) && |s.sent| == |s.status| && |t.sent| == |t.status| && i < |t.status|
    ensures i >= |s.status| ==> t.status[i].Ticking? && t.sent[i] == []
    ensures i < |s.status| ==>
              || (t.status[i] == s.status[i] && t.sent[i] == s.sent[i])
              || (t.status[i].Broken? && t.sent[i] == s.sent[i])
              || (s.status[i].Ticking? && t.status[i] == Sampled(s.slot.None?, s.mem) && t.sent[i] == s.sent[i])
              || (s.status[i].Sampled? && t.status[i].Dumped? && s.status[i].sw < |s.writers| && t.sent[i] == s.sent[i]
                  && t.status[i].payload == Newest(s.writers[s.status[i].sw]))
              || (s.status[i].Dumped? && (t.status[i].Ticking? || t.status[i].EndedLast?)
                  && t.sent[i] == s.sent[i] + [s.status[i].payload])
  {
  }

  lemma {:induction false} SampleBefore(tr: seq<State>, k: nat, i: nat) returns (j0: nat)
    requires Serving(tr) && k < |tr| && i < |tr[k].status| && tr[k].status[i].Sampled?
    ensures |tr[k].sent| == |tr[k].status| && j0 < k && SamplesAt(tr, j0, i, |tr[k].sent[i]|)
    ensures tr[k].status[i].sw == tr[j0].mem
  {
    AlwaysInv(tr, k);
    if k == 0 { assert false; }
    AlwaysInv(tr, k - 1);
    assert Next(tr[k - 1], tr[k]);
    LoopMoves(tr[k - 1], tr[k], i);
    if tr[k - 1].status[i].Sampled? {
      j0 := SampleBefore(tr, k - 1, i);
    } else {
      j0 := k - 1;
    }
  }

  lemma {:induction false} DumpBefore(tr: seq<State>, k: nat, i: nat) returns (j0: nat, j: nat)
    requires Serving(tr) && k < |tr| && i < |tr[k].status| && tr[k].status[i].Dumped?
    ensures |tr[k].sent| == |tr[k].status| && j0 < j < k
    ensures SamplesAt(tr, j0, i, |tr[k].sent[i]|) && DumpsAt(tr, j, i, |tr[k].sent[i]|)
    ensures tr[j0].mem < |tr[j].writers| && tr[k].status[i].payload == Newest(tr[j].writers[tr[j0].mem])
  {
    AlwaysInv(tr, k);
    if k == 0 { assert false; }
    AlwaysInv(tr, k - 1);
    assert Next(tr[k - 1], tr[k]);
    LoopMoves(tr[k - 1], tr[k], i);
    if tr[k - 1].status[i].Dumped? {
      j0, j := DumpBefore(tr, k - 1, i);
    } else {
      j0 := SampleBefore(tr, k - 1, i);
      j := k - 1;
    }
  }

  /** Every payload a status loop has ever sent, while a job was running or after, is the newest entry that
      the writer held when the loop dumped it. The writer is the one the loop read under the lock just
      before; if the slot was taken then, it is the writer of the slot's job. */
  lemma {:induction false} SentPayloads(tr: seq<State>, k: nat, i: nat, n: nat) returns (j0: nat, j: nat)
    requires Serving(tr) && k < |tr| && i < |tr[k].sent| && n < |tr[k].sent[i]|
    ensures j0 < j < k && SamplesAt(tr, j0, i, n) && DumpsAt(tr, j, i, n)
    ensures tr[j0].mem < |tr[j].writers| && tr[k].sent[i][n] == Newest(tr[j].writers[tr[j0].mem])
    ensures tr[j0].slot.Some? ==>
              tr[j0].slot.value < |tr[j0].ctls| && tr[j0].ctls[tr[j0].slot.value].writer == tr[j0].mem
  {
    AlwaysInv(tr, k);
    if k == 0 { assert false; }
    AlwaysInv(tr, k - 1);
    assert Next(tr[k - 1], tr[k]);
    LoopMoves(tr[k - 1], tr[k], i);
    if n < |tr[k - 1].sent[i]| {
      j0, j := SentPayloads(tr, k - 1, i, n);
    } else {
      j0, j := DumpBefore(tr, k - 1, i);
    }
    AlwaysInv(tr, j0);
    if tr[j0].slot.Some? { assert CtlOk(tr[j0], tr[j0].slot.value); }
  }

  // ----- when the slot can be freed again -----

  predicate SlotEmpty(s: State) { s.slot.None? }

  ghost predicate Jammed(s: State) { exists h | 0 <= h < |s.handlers| :: s.handlers[h].pc.RegFailed? }

  /** Steps the holder is away from clearing the slot. */
  function Distance(h: Handler): nat {
    match h.pc
    case Registering(_, i) => 6 + if i < |h.agents| then |h.agents| - i else 0
    case Starting(_) => 5
    case Running(_, _, watched) => if watched then 3 else 4
    case Stopped(_, _) => 2
    case Flushed(_, _) => 1
    case _ => 0
  }

  /** What the next step of a holder can rely on. */
  ghost predicate HolderOk(s: State, h: nat) {
    && h < |s.handlers| && Holds(s.handlers[h].pc) && !s.handlers[h].pc.RegFailed?
    && HandlerOk(s, h) && s.ctls[s.handlers[h].pc.own].writer < |s.writers|
  }

  /** t follows s, and the holder is one step closer to clearing the slot. */
  ghost predicate HolderMoved(s: State, h: nat, m: Move, t: State) {
    && Step(s, m, t) && h < |s.handlers| && h < |t.handlers|
    && (t.slot.None? || (Holds(t.handlers[h].pc) && !t.handlers[h].pc.RegFailed?))
    && Distance(t.handlers[h]) < Distance(s.handlers[h])
  }

  lemma RegisteringStep(s: State, h: nat) returns (m: Move, t: State)
    requires HolderOk(s, h) && s.handlers[h].pc.Registering?
    ensures HolderMoved(s, h, m, t)
  {
    var own, i := s.handlers[h].pc.own, s.handlers[h].pc.i;
    if i < |s.handlers[h].agents| {
      var c := s.ctls[own];
      m := RegisterOk(h);
      t := To(s, h, Registering(own, i + 1)).(
             ctls := s.ctls[own := c.(agents := c.agents + [s.handlers[h].agents[i]])]);
    } else {
      m, t := StartJob(h), To(s, h, Starting(own));
    }
    assert CreateStep(s, m, t);
  }

  /** The next step of a holder that has not failed, with every library call succeeding. */
  lemma HolderStep(s: State, h: nat) returns (m: Move, t: State)
    requires HolderOk(s, h)
    ensures HolderMoved(s, h, m, t)
  {
    var pc := s.handlers[h].pc;
    if pc.Registering? {
      m, t := RegisteringStep(s, h);
      return;
    }
    match pc
    case Starting(own) => m, t := EnterRun(h), To(s, h, Running(own, own, false));
    case Running(own, rcv, watched) =>
      if watched {
        m, t := StopWatch(h), To(s, h, Stopped(own, rcv));
      } else {
        m, t := StartWatch(h), To(s, h, pc.(watched := true)).(watches := s.watches + [Watch(h, rcv, Idle)]);
      }
    case Stopped(own, rcv) =>
      var e := Entry(0, map[]);
      m, t := FinalWrite(h, e), To(Written(s, rcv, Write(h, true, e)), h, Flushed(own, rcv));
    case Flushed(own, _) => m, t := Clear(h), To(s, h, Cleared(own)).(slot := None);
    assert JobStep(s, m, t);
  }

  lemma {:induction false} HolderFreesSlot(s: State, h: nat) returns (t: State)
    requires WriteInv(s) && h < |s.handlers| && Holds(s.handlers[h].pc) && !s.handlers[h].pc.RegFailed?
    ensures Reaches(Next, s, t) && t.slot.None?
    decreases Distance(s.handlers[h])
  {
    ReachSelf(Next, s);
    assert HandlerOk(s, h) && CtlOk(s, s.handlers[h].pc.own);
    var m, u := HolderStep(s, h);
    assert Next(s, u);
    NextKeeps(s, u);
    ReachStep(Next, s, s, u);
    if u.slot.None? {
      t := u;
    } else {
      t := HolderFreesSlot(u, h);
      ReachJoin(Next, s, u, t);
    }
  }

  /** The slot can still become free exactly when no registration has failed. */
  lemma SlotCanBeFreedIff(tr: seq<State>)
    requires Serving(tr)
    ensures Possible(Init, Next, tr, SlotEmpty) <==> !Jammed(Last(tr))
  {
    var s := Last(tr);
    AlwaysInv(tr, |tr| - 1);
    if h :| 0 <= h < |s.handlers| && s.handlers[h].pc.RegFailed? {
      forall more | Serving(tr + more) ensures !SlotEmpty(Last(tr + more)) {
        assert (tr + more)[|tr| - 1] == s;
        FailedRegistrationKeepsSlot(tr + more, |tr| - 1, |tr + more| - 1, h);
      }
    } else if s.slot.None? {
      ReachSelf(Next, s);
      ReachedIsPossible(Init, Next, tr, s, SlotEmpty);
    } else {
      var h := s.ctls[s.slot.value].owner;
      assert CtlOk(s, s.slot.value);
      var t := HolderFreesSlot(s, h);
      ReachedIsPossible(Init, Next, tr, t, SlotEmpty);
    }
  }

  /** Whenever the slot is free, one create request with an agent that cannot be reached can jam the
      service. */
  lemma IdleServiceCanJam(tr: seq<State>)
    requires Serving(tr) && Last(tr).slot.None?
    ensures Possible(Init, Next, tr, Jammed)
  {
    var s := Last(tr);
    var h := |s.handlers|;
    var s1 := s.(handlers := s.handlers + [Handler(["agent"], Arrived)]);
    var s2 := To(s1, h, Checked);
    var s3 := To(s2, h, Registering(|s.ctls|, 0)).(
                slot := Some(|s.ctls|), mem := |s.writers|,
                ctls := s.ctls + [Ctl(|s.writers|, h, [])], writers := s.writers + [[]]);
    var s4 := To(s3, h, RegFailed(|s.ctls|));
    assert Step(s, Arrive(["agent"]), s1);
    assert Step(s1, FirstCheck(h), s2);
    assert Step(s2, Claim(h), s3);
    assert Step(s3, RegisterFail(h), s4);
    ReachSelf(Next, s);
    ReachStep(Next, s, s, s1);
    ReachStep(Next, s, s1, s2);
    ReachStep(Next, s, s2, s3);
    ReachStep(Next, s, s3, s4);
    assert s4.handlers[h].pc.RegFailed?;
    ReachedIsPossible(Init, Next, tr, s4, Jammed);
  }
}
