/** The snapshot writers (snapshot/memory_writer.go, snapshot/aggregated_writer.go). */
module Snapshot {
  import opened CounterMerge
  import opened Options

  /** One WriteCounters call. */
  datatype Entry = Entry(at: int, counters: Counters)

  /** What a memory writer shows after these calls: the last one, or nothing yet. */
  function Shown(h: seq<Entry>): Entry { if h == [] then Entry(0, map[]) else h[|h| - 1] }

  class MemorySnapshotWriter {
    var counters: Counters
    var updatedAt: int
    ghost var history: seq<Entry>

    ghost predicate Valid()
      reads this
    {
      Entry(updatedAt, counters) == Shown(history)
    }

    constructor ()
      ensures Valid() && history == []
    {
      counters := map[];
      updatedAt := 0;
      history := [];
    }

    /** Adds to the history of writes, keeps the last of them, and never fails. */
    method WriteCounters(now: int, newCounters: Counters) returns (err: Option<string>)
      requires Valid()
      modifies this
      ensures Valid() && history == old(history) + [Entry(now, newCounters)] && err == None
    {
      counters := newCounters;
      updatedAt := now;
      err := None;
      history := history + [Entry(now, newCounters)];
    }

    /** Shows the last write of the history, whatever came before it. */
    method Dump() returns (payload: Entry)
      requires Valid()
      ensures payload == Shown(history)
    {
      payload := Entry(updatedAt, counters);
    }
  }

  /** A writer behind the fan-out: in memory, or a remote database whose answer is not ours. */
  datatype Sink = Memory(w: MemorySnapshotWriter) | Remote(answer: Option<string>)

  function Failures(sinks: seq<Sink>): seq<string> {
    if sinks == [] then []
    else
      var last := sinks[|sinks| - 1];
      Failures(sinks[..|sinks| - 1]) +
      if last.Remote? && last.answer.Some? then [last.answer.value] else []
  }

  function Join(parts: seq<string>, sep: string): string {
    if |parts| == 0 then "" else if |parts| == 1 then parts[0]
    else parts[0] + sep + Join(parts[1..], sep)
  }

  function Memories(sinks: seq<Sink>): set<MemorySnapshotWriter> {
    set i | 0 <= i < |sinks| && sinks[i].Memory? :: sinks[i].w
  }

  /** How often a memory writer is listed. */
  function Listings(sinks: seq<Sink>, w: MemorySnapshotWriter): nat {
    if sinks == [] then 0
    else
      var last := sinks[|sinks| - 1];
      Listings(sinks[..|sinks| - 1], w) + if last.Memory? && last.w == w then 1 else 0
  }

  function Copies(e: Entry, n: nat): seq<Entry> { if n == 0 then [] else Copies(e, n - 1) + [e] }

  lemma {:induction false} ListedOnce(sinks: seq<Sink>, w: MemorySnapshotWriter)
    requires w in Memories(sinks)
    ensures Listings(sinks, w) >= 1
  {
    var n := |sinks| - 1;
    if !(sinks[n].Memory? && sinks[n].w == w) {
      var i :| 0 <= i < |sinks| && sinks[i].Memory? && sinks[i].w == w;
      assert sinks[..n][i].Memory? && sinks[..n][i].w == w;
      ListedOnce(sinks[..n], w);
    }
  }

  class AggregatedSnapshotWriter {
    const writers: seq<Sink>

    constructor (writers: seq<Sink>)
      ensures this.writers == writers
    {
      this.writers := writers;
    }

    /** Every writer is called once per listing, whatever the others answer, so that all memory writers
        show the new counters; the error reports exactly the remote failures, in order. */
    method WriteCounters(now: int, counters: Counters) returns (err: Option<string>)
      requires forall w | w in Memories(writers) :: w.Valid()
      modifies Memories(writers)
      ensures forall w | w in Memories(writers) ::
                w.Valid() && w.history == old(w.history) + Copies(Entry(now, counters), Listings(writers, w))
      ensures forall w | w in Memories(writers) :: Shown(w.history) == Entry(now, counters)
      ensures err == if Failures(writers) == [] then None
                     else Some("AggregatedSnapshotWriter.WriteCounters:" + Join(Failures(writers), ";"))
    {
      var errs: seq<string> := [];
      for i := 0 to |writers|
        invariant errs == Failures(writers[..i])
        invariant forall w | w in Memories(writers) ::
                    w.Valid() && w.history == old(w.history) + Copies(Entry(now, counters), Listings(writers[..i], w))
      {
        assert writers[..i + 1][..i] == writers[..i];
        match writers[i]
        case Memory(w) =>
          assert writers[i].w in Memories(writers);
          var e := w.WriteCounters(now, counters);   // never fails
        case Remote(answer) =>
          if answer.Some? { errs := errs + [answer.value]; }
      }
      assert writers[..|writers|] == writers;
      forall w | w in Memories(writers) ensures Shown(w.history) == Entry(now, counters) { ListedOnce(writers, w); }
      err := if errs == [] then None
             else Some("AggregatedSnapshotWriter.WriteCounters:" + Join(errs, ";"));
    }
  }

  /** No error is reported exactly when no remote writer failed. */
  lemma {:induction false} NoFailures(sinks: seq<Sink>)
    ensures Failures(sinks) == [] <==>
            forall i | 0 <= i < |sinks| :: sinks[i].Remote? ==> sinks[i].answer.None?
  {
    if sinks != [] { NoFailures(sinks[..|sinks| - 1]); }
  }

  /** The failures come in the order of the writers, each remote failure once. */
  lemma {:induction false} FailuresInOrder(sinks: seq<Sink>, more: seq<Sink>, x: Sink)
    ensures Failures(sinks + more) == Failures(sinks) + Failures(more)
    ensures Failures([x]) == if x.Remote? && x.answer.Some? then [x.answer.value] else []
  {
    if more == [] {
      assert sinks + more == sinks;
    } else {
      var n := |more| - 1;
      FailuresInOrder(sinks, more[..n], x);
      assert (sinks + more)[..|sinks + more| - 1] == sinks + more[..n];
      assert (sinks + more)[|sinks + more| - 1] == more[n];
    }
  }

  /** Between any two parts, and nowhere else, stands one separator. */
  lemma {:induction false} JoinParts(parts: seq<string>, more: seq<string>, sep: string, x: string)
    ensures Join([x], sep) == x
    ensures parts != [] && more != [] ==> Join(parts + more, sep) == Join(parts, sep) + sep + Join(more, sep)
  {
    if |parts| == 1 {
      assert (parts + more)[1..] == more;
    } else if |parts| > 1 {
      assert (parts + more)[1..] == parts[1..] + more;
      JoinParts(parts[1..], more, sep, x);
      if more != [] {
        calc {
          Join(parts + more, sep);
          parts[0] + sep + (Join(parts[1..], sep) + sep + Join(more, sep));
          (parts[0] + sep + Join(parts[1..], sep)) + sep + Join(more, sep);
        }
      }
    }
  }
}
