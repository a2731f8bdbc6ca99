/** How counter maps are added up: over the sessions of one agent
    (agent/agent_controller.go, ListCounters) and over the agents
    (master/master_controller.go, collectCounters). */
module CounterMerge {
  import opened GoInts
  import opened Options
  import opened Sums

  type Counters = map<string, int>

  function At<K>(m: map<K, int>, k: K): int { if k in m then m[k] else 0 }

  /** A missing reply (an unknown session, a failed call) and a missing key both read as zero. */
  function Lookup<K>(k: K): Option<map<K, int>> -> int {
    (m: Option<map<K, int>>) => if m.Some? then At(m.value, k) else 0
  }

  function KeysOf<K(!new)>(ms: seq<Option<map<K, int>>>): set<K> {
    set i, k | 0 <= i < |ms| && ms[i].Some? && k in ms[i].value :: k
  }

  /** The reference: every key that occurs, with the sum of its values. */
  function Merged<K(!new)>(ms: seq<Option<map<K, int>>>): map<K, int> {
    map k | k in KeysOf(ms) :: SumOf(ms, Lookup(k))
  }

  /** A reply of one agent: session keys are summed, system keys replace what is there. */
  function Reply<K(!new)>(sessions: seq<Option<map<K, int>>>, system: map<K, int>): map<K, int> {
    Merged(sessions) + system
  }

  lemma MergedLookup<K(!new)>(ms: seq<Option<map<K, int>>>, k: K)
    ensures At(Merged(ms), k) == SumOf(ms, Lookup(k))
  {
    if k !in KeysOf(ms) {
      forall i | 0 <= i < |ms| ensures Lookup(k)(ms[i]) == 0 {}
      SumZero(ms, Lookup(k));
    }
  }

  /** Adds one map into an accumulator, visiting the keys in whatever order the runtime picks. */
  method AddInto<K(!new)>(acc: map<K, int>, m: map<K, int>) returns (r: map<K, int>)
    ensures r == Added(acc, m, m.Keys)
    ensures r.Keys == acc.Keys + m.Keys && forall k :: At(r, k) == At(acc, k) + At(m, k)
  {
    r := acc;
    var todo := m.Keys;
    ghost var seen: set<K> := {};
    while todo != {}
      invariant seen !! todo && seen + todo == m.Keys
      invariant r == Added(acc, m, seen)
      decreases todo
    {
      var k :| k in todo;
      r := AddOne(acc, m, r, seen, k);
      seen, todo := seen + {k}, todo - {k};
    }
    AddedAll(acc, m);
  }

  /** One round of the loop: the entry for `k`, zero when there is none yet, grows by m[k]. */
  method AddOne<K(!new)>(acc: map<K, int>, m: map<K, int>, r: map<K, int>, ghost keys: set<K>, k: K) returns (s: map<K, int>)
    requires k in m && k !in keys && r == Added(acc, m, keys)
    ensures s == Added(acc, m, keys + {k})
  {
    AddedStep(acc, m, keys, k);
    s := r[k := At(r, k) + m[k]];
  }

  lemma AddedAll<K(!new)>(acc: map<K, int>, m: map<K, int>)
    ensures var r := Added(acc, m, m.Keys);
            r.Keys == acc.Keys + m.Keys && forall k :: At(r, k) == At(acc, k) + At(m, k)
  {
  }

  function Added<K(!new)>(acc: map<K, int>, m: map<K, int>, keys: set<K>): map<K, int> {
    map k | k in acc.Keys + keys :: At(acc, k) + if k in keys then At(m, k) else 0
  }

  lemma AddedStep<K(!new)>(acc: map<K, int>, m: map<K, int>, keys: set<K>, k: K)
    requires k in m && k !in keys
    ensures var r := Added(acc, m, keys);
            Added(acc, m, keys + {k}) == r[k := At(r, k) + m[k]]
  {
  }

  method MergeAll<K(!new)>(ms: seq<Option<map<K, int>>>) returns (r: map<K, int>)
    ensures r == Merged(ms)
    ensures forall k :: k in r <==> exists i | 0 <= i < |ms| :: ms[i].Some? && k in ms[i].value
    ensures forall k :: At(r, k) == SumOf(ms, Lookup(k))
  {
    r := map[];
    for i := 0 to |ms|
      invariant r == Merged(ms[..i])
    {
      ghost var before := r;
      if ms[i].Some? {
        r := AddInto(r, ms[i].value);
        AddedAll(before, ms[i].value);
      }
      MergedAppend(ms[..i], ms[i], before, r);
      assert ms[..i + 1] == ms[..i] + [ms[i]];
    }
    assert ms[..|ms|] == ms;
    forall k ensures At(r, k) == SumOf(ms, Lookup(k)) { MergedLookup(ms, k); }
  }

  lemma MergedAppend<K(!new)>(ms: seq<Option<map<K, int>>>, m: Option<map<K, int>>, before: map<K, int>, after: map<K, int>)
    requires before == Merged(ms)
    requires after.Keys == before.Keys + if m.Some? then m.value.Keys else {}
    requires forall k :: At(after, k) == At(before, k) + Lookup(k)(m)
    ensures after == Merged(ms + [m])
  {
    KeysAppend(ms, m);
    forall k | k in after ensures after[k] == SumOf(ms + [m], Lookup(k)) { AppendedSum(ms, m, after, k); }
  }

  lemma AppendedSum<K(!new)>(ms: seq<Option<map<K, int>>>, m: Option<map<K, int>>, after: map<K, int>, k: K)
    requires k in after && At(after, k) == At(Merged(ms), k) + Lookup(k)(m)
    ensures after[k] == SumOf(ms + [m], Lookup(k))
  {
    MergedLookup(ms, k);
    SumAppend(ms, m);
  }

  /** One agent's ListCounters: `sessions[j]` is what the j-th listed session returned, None when the
      name is not registered. */
  method ListCounters<K(!new)>(sessions: seq<Option<map<K, int>>>, system: map<K, int>) returns (r: map<K, int>)
    ensures r == Reply(sessions, system)
    ensures forall k | k in system :: k in r && r[k] == system[k]
    ensures forall k | k !in system :: At(r, k) == SumOf(sessions, Lookup(k))
  {
    r := MergeAll(sessions);
    forall k ensures At(r, k) == SumOf(sessions, Lookup(k)) { MergedLookup(sessions, k); }
    var todo := system.Keys;
    ghost var seen: map<K, int> := map[];
    while todo != {}
      invariant seen.Keys !! todo && seen.Keys + todo == system.Keys
      invariant forall k | k in seen :: seen[k] == system[k]
      invariant r == Merged(sessions) + seen
      decreases todo
    {
      var k :| k in todo;
      r := r[k := system[k]];
      seen, todo := seen[k := system[k]], todo - {k};
    }
    assert seen == system;
  }

  /** The order in which agents answer, or sessions are listed, does not change the result. */
  lemma MergedOrderFree<K(!new)>(ms: seq<Option<map<K, int>>>, ns: seq<Option<map<K, int>>>)
    requires multiset(ms) == multiset(ns)
    ensures Merged(ms) == Merged(ns)
  {
    SameKeys(ms, ns);
    SameKeys(ns, ms);
    forall k ensures SumOf(ms, Lookup(k)) == SumOf(ns, Lookup(k)) {
      SumPermutation(ms, ns, Lookup(k));
    }
  }

  lemma SameKeys<K(!new)>(ms: seq<Option<map<K, int>>>, ns: seq<Option<map<K, int>>>)
    requires multiset(ms) == multiset(ns)
    ensures KeysOf(ms) <= KeysOf(ns)
  {
    forall k | k in KeysOf(ms) ensures k in KeysOf(ns) {
      var i :| 0 <= i < |ms| && ms[i].Some? && k in ms[i].value;
      assert ms[i] in multiset(ns);
      var j :| 0 <= j < |ns| && ns[j] == ms[i];
    }
  }

  /** Dropping the agents whose call failed changes nothing. */
  lemma FailedRepliesCountZero<K(!new)>(ms: seq<Option<map<K, int>>>)
    ensures Merged(Answered(ms)) == Merged(ms)
  {
    AnsweredKeys(ms);
    forall k ensures SumOf(ms, Lookup(k)) == SumOf(Answered(ms), Lookup(k)) { AnsweredSum(ms, k); }
  }

  lemma {:induction false} AnsweredKeys<K(!new)>(ms: seq<Option<map<K, int>>>)
    ensures KeysOf(Answered(ms)) == KeysOf(ms)
  {
    if ms != [] {
      var n := |ms| - 1;
      AnsweredKeys(ms[..n]);
      assert ms == ms[..n] + [ms[n]];
      KeysAppend(ms[..n], ms[n]);
      KeysAppend(Answered(ms[..n]), ms[n]);
      assert Answered(ms[..n]) + [] == Answered(ms[..n]);
    }
  }

  lemma {:induction false} AnsweredSum<K(!new)>(ms: seq<Option<map<K, int>>>, k: K)
    ensures SumOf(ms, Lookup(k)) == SumOf(Answered(ms), Lookup(k))
  {
    if ms != [] {
      var n := |ms| - 1;
      AnsweredSum(ms[..n], k);
      SumAppend(Answered(ms[..n]), ms[n]);
      assert Answered(ms[..n]) + [] == Answered(ms[..n]);
    }
  }

  lemma KeysAppend<K(!new)>(ms: seq<Option<map<K, int>>>, m: Option<map<K, int>>)
    ensures KeysOf(ms + [m]) == KeysOf(ms) + if m.Some? then m.value.Keys else {}
  {
    forall k ensures k in KeysOf(ms + [m]) <==> k in KeysOf(ms) || (m.Some? && k in m.value) {
      if k in KeysOf(ms) {
        var i :| 0 <= i < |ms| && ms[i].Some? && k in ms[i].value;
        assert (ms + [m])[i] == ms[i];
      }
      assert (ms + [m])[|ms|] == m;
    }
  }

  function Answered<K(!new)>(ms: seq<Option<map<K, int>>>): seq<Option<map<K, int>>> {
    if ms == [] then []
    else Answered(ms[..|ms| - 1]) + if ms[|ms| - 1].Some? then [ms[|ms| - 1]] else []
  }

  // ----- the http:get aggregator that runs on the merged map -----

  datatype Aggregate = Aggregated(counters: Counters) | DivideByZero

  /** Requests per second; Go's integer division panics when less than a whole second has passed. */
  function AggregateHttp(counters: Counters, duration: nat): Aggregate {
    var completed := At(counters, "completed");
    if duration > 0 then
      var secs := duration / SECOND;
      if secs == 0 then DivideByZero else Aggregated(counters["rps" := TruncDiv(completed, secs)])
    else
      Aggregated(counters)
  }

  /** Completed requests per whole second since the start. */
  function Rate(completed: int, duration: nat): int {
    if duration < 1_000_000_000 then 0 else TruncDiv(completed, duration / 1_000_000_000)
  }

  /** Rounded toward zero. */
  lemma RateMeans(completed: int, duration: nat)
    requires duration >= 1_000_000_000
    ensures var rps, secs := Rate(completed, duration), duration / 1_000_000_000;
            && (completed >= 0 ==> rps * secs <= completed < (rps + 1) * secs)
            && (completed < 0 ==> (rps - 1) * secs < completed <= rps * secs)
  {
  }

  /** The aggregator adds at most the key "rps" and leaves the rest alone, except that it panics
      exactly when the job has run for more than nothing but less than one second. */
  lemma AggregateHttpEffect(counters: Counters, duration: nat)
    ensures AggregateHttp(counters, duration).DivideByZero? <==> 0 < duration < 1_000_000_000
    ensures AggregateHttp(counters, duration).Aggregated? ==>
              var r := AggregateHttp(counters, duration).counters;
              && (forall k | k != "rps" :: At(r, k) == At(counters, k))
              && (duration == 0 ==> r == counters)
              && (duration > 0 ==> "rps" in r && r["rps"] == Rate(At(counters, "completed"), duration))
  {
  }

  /** The aggregators of all listed http:get, one after the other; a panic ends the collection. */
  function AggregateAll(counters: Counters, durations: seq<nat>): Aggregate {
    if durations == [] then Aggregated(counters)
    else
      var r := AggregateAll(counters, durations[..|durations| - 1]);
      if r.DivideByZero? then r else AggregateHttp(r.counters, durations[|durations| - 1])
  }

  lemma {:induction false} PanicEnds(counters: Counters, durations: seq<nat>, i: nat)
    requires i <= |durations| && AggregateAll(counters, durations[..i]).DivideByZero?
    ensures AggregateAll(counters, durations).DivideByZero?
  {
    if i == |durations| {
      assert durations[..i] == durations;
    } else {
      assert durations[..|durations| - 1][..i] == durations[..i];
      PanicEnds(counters, durations[..|durations| - 1], i);
    }
  }

  /** They panic exactly when one of them runs after the start but before a whole second has passed. */
  lemma {:induction false} AggregateAllPanics(counters: Counters, durations: seq<nat>)
    ensures AggregateAll(counters, durations).DivideByZero? <==>
            exists i | 0 <= i < |durations| :: 0 < durations[i] < 1_000_000_000
  {
    if durations != [] {
      var n := |durations| - 1;
      var p := AggregateAll(counters, durations[..n]);
      AggregateAllPanics(counters, durations[..n]);
      assert forall i | 0 <= i < n :: durations[..n][i] == durations[i];
      if p.DivideByZero? {
        var i :| 0 <= i < n && 0 < durations[..n][i] < 1_000_000_000;
        assert 0 < durations[i] < 1_000_000_000;
      } else {
        PanicCondition(p.counters, durations[n]);
      }
    }
  }

  lemma PanicCondition(counters: Counters, duration: nat)
    ensures AggregateHttp(counters, duration).DivideByZero? <==> 0 < duration < 1_000_000_000
  {
  }

  /** The last of these moments that is after the start, zero if there is none. */
  function LastAfterStart(durations: seq<nat>): (d: nat)
    ensures d == 0 <==> forall i | 0 <= i < |durations| :: durations[i] == 0
    ensures d > 0 ==> exists i | 0 <= i < |durations| :: durations[i] == d && forall j | i < j < |durations| :: durations[j] == 0
  {
    if durations == [] then 0
    else if durations[|durations| - 1] > 0 then durations[|durations| - 1]
    else LastAfterStart(durations[..|durations| - 1])
  }

  /** The counters with the rate at that moment, or as they are without one. */
  function WithRate(counters: Counters, d: nat): Counters {
    if d == 0 then counters else counters["rps" := Rate(At(counters, "completed"), d)]
  }

  /** Otherwise they return the counters with nothing but "rps" set, by the last one that ran after the
      start. */
  lemma {:induction false} AggregateAllRate(counters: Counters, durations: seq<nat>)
    requires AggregateAll(counters, durations).Aggregated?
    ensures AggregateAll(counters, durations).counters == WithRate(counters, LastAfterStart(durations))
  {
    if durations != [] {
      var n := |durations| - 1;
      AggregateAllRate(counters, durations[..n]);
      RateOver(counters, LastAfterStart(durations[..n]), durations[n]);
    }
  }

  lemma RateOver(counters: Counters, d: nat, e: nat)
    requires AggregateHttp(WithRate(counters, d), e).Aggregated?
    ensures AggregateHttp(WithRate(counters, d), e).counters == if e > 0 then WithRate(counters, e) else WithRate(counters, d)
  {
    AggregateHttpEffect(WithRate(counters, d), e);
    assert At(WithRate(counters, d), "completed") == At(counters, "completed");
    if e > 0 {
      var r, x := AggregateHttp(WithRate(counters, d), e).counters, Rate(At(counters, "completed"), e);
      assert r == WithRate(counters, d)["rps" := x] == counters["rps" := x];
    }
  }

  /** The master's collection: merge the replies, then run the aggregator of every listed http:get, each
      at its own moment. It panics exactly when one of them runs after the start and within the first
      second, and otherwise returns the merged counters with the rate of the last one. */
  method CollectCounters(replies: seq<Option<Counters>>, durations: seq<nat>) returns (r: Aggregate)
    ensures r == AggregateAll(Merged(replies), durations)
    ensures r.DivideByZero? <==> exists i | 0 <= i < |durations| :: 0 < durations[i] < 1_000_000_000
    ensures r.Aggregated? ==> r.counters == WithRate(Merged(replies), LastAfterStart(durations))
  {
    var counters := MergeAll(replies);
    AggregateAllPanics(counters, durations);
    if AggregateAll(counters, durations).Aggregated? { AggregateAllRate(counters, durations); }
    r := Aggregated(counters);
    for i := 0 to |durations|
      invariant r.Aggregated? && r == AggregateAll(counters, durations[..i])
    {
      assert durations[..i + 1][..i] == durations[..i];
      r := AggregateHttp(r.counters, durations[i]);
      if r.DivideByZero? {
        PanicEnds(counters, durations, i + 1);
        return;
      }
    }
    assert durations[..|durations|] == durations;
  }
}
