/** Runs of a step system, the induction over them, and what a reader sees that loads the
    fields of a counter record one after the other while the system keeps running. */
module Runs {
  import opened Sums

  /** `tr` starts in an initial state and every state follows from the one before. */
  ghost predicate Run<S(!new)>(init: S -> bool, next: (S, S) -> bool, tr: seq<S>) {
    && |tr| > 0
    && init(tr[0])
    && forall i, j | 0 <= i < j == i + 1 < |tr| :: next(tr[i], tr[j])
  }

  lemma {:induction false} Always<S(!new)>(
    init: S -> bool, next: (S, S) -> bool, inv: S -> bool, tr: seq<S>, k: nat)
    requires Run(init, next, tr) && k < |tr|
    requires forall s :: init(s) ==> inv(s)
    requires forall s, s' :: inv(s) && next(s, s') ==> inv(s')
    ensures inv(tr[k])
  {
    if k > 0 {
      Always(init, next, inv, tr, k - 1);
    }
  }

  /** What every step preserves or increases is ordered along the run. */
  lemma {:induction false} Ordered<S(!new)>(
    next: (S, S) -> bool, inv: S -> bool, le: (S, S) -> bool, tr: seq<S>, i: nat, j: nat)
    requires i <= j < |tr|
    requires forall k | 0 <= k < |tr| :: inv(tr[k])
    requires forall k, l | 0 <= k < l == k + 1 < |tr| :: next(tr[k], tr[l])
    requires forall s :: inv(s) ==> le(s, s)
    requires forall s, s', s'' :: inv(s') && le(s, s') && next(s', s'') ==> le(s, s'')
    ensures le(tr[i], tr[j])
  {
    if i < j {
      Ordered(next, inv, le, tr, i, j - 1);
    }
  }

  // ----- what a run can still become -----

  ghost function Last<S(!new)>(tr: seq<S>): S
    requires |tr| > 0
  {
    tr[|tr| - 1]
  }

  /** The run can be continued into a state that meets the goal. */
  ghost predicate Possible<S(!new)>(init: S -> bool, next: (S, S) -> bool, tr: seq<S>, goal: S -> bool) {
    exists more: seq<S> :: Run(init, next, tr + more) && goal(Last(tr + more))
  }

  ghost predicate Path<S(!new)>(next: (S, S) -> bool, p: seq<S>) {
    |p| > 0 && forall i, j | 0 <= i < j == i + 1 < |p| :: next(p[i], p[j])
  }

  ghost predicate Reaches<S(!new)>(next: (S, S) -> bool, s: S, t: S) {
    exists p: seq<S> :: Path(next, p) && p[0] == s && Last(p) == t
  }

  lemma ReachSelf<S(!new)>(next: (S, S) -> bool, s: S)
    ensures Reaches(next, s, s)
  {
    assert Path(next, [s]);
  }

  lemma ReachStep<S(!new)>(next: (S, S) -> bool, s: S, t: S, u: S)
    requires Reaches(next, s, t) && next(t, u)
    ensures Reaches(next, s, u)
  {
    var p :| Path(next, p) && p[0] == s && Last(p) == t;
    var q := p + [u];
    assert Path(next, q) && q[0] == s && Last(q) == u;
  }

  lemma ReachFirst<S(!new)>(next: (S, S) -> bool, s: S, t: S, u: S)
    requires next(s, t) && Reaches(next, t, u)
    ensures Reaches(next, s, u)
  {
    var p :| Path(next, p) && p[0] == t && Last(p) == u;
    var q := [s] + p;
    assert Path(next, q) && q[0] == s && Last(q) == u;
  }

  lemma {:induction false} ReachJoin<S(!new)>(next: (S, S) -> bool, s: S, t: S, u: S)
    requires Reaches(next, s, t) && Reaches(next, t, u)
    ensures Reaches(next, s, u)
  {
    var p :| Path(next, p) && p[0] == t && Last(p) == u;
    ReachAlong(next, s, p, |p| - 1);
  }

  lemma {:induction false} ReachAlong<S(!new)>(next: (S, S) -> bool, s: S, p: seq<S>, k: nat)
    requires k < |p| && Path(next, p) && Reaches(next, s, p[0])
    ensures Reaches(next, s, p[k])
  {
    if k > 0 {
      ReachAlong(next, s, p, k - 1);
      ReachStep(next, s, p[k - 1], p[k]);
    }
  }

  lemma ReachedIsPossible<S(!new)>(init: S -> bool, next: (S, S) -> bool, tr: seq<S>, t: S, goal: S -> bool)
    requires Run(init, next, tr) && Reaches(next, Last(tr), t) && goal(t)
    ensures Possible(init, next, tr, goal)
  {
    var p :| Path(next, p) && p[0] == Last(tr) && Last(p) == t;
    var long := tr + p[1..];
    forall i, j | 0 <= i < j == i + 1 < |long| ensures next(long[i], long[j]) {
      if j < |tr| { assert next(tr[i], tr[j]); } else { assert next(p[i - |tr| + 1], p[j - |tr| + 1]); }
    }
    assert Run(init, next, long) && Last(long) == t;
  }

  /** A state reached from an initial one ends a run. */
  lemma RunTo<S(!new)>(init: S -> bool, next: (S, S) -> bool, s: S, t: S) returns (tr: seq<S>)
    requires init(s) && Reaches(next, s, t)
    ensures Run(init, next, tr) && tr[0] == s && Last(tr) == t
  {
    tr :| Path(next, tr) && tr[0] == s && Last(tr) == t;
  }

  // ----- torn reads -----

  /** The moments at which a reader loads fields 0, 1, 2, ... in the order they are written down. */
  ghost predicate ReadTimes(at: seq<nat>, states: nat) {
    && (forall k | 0 <= k < |at| :: at[k] < states)
    && (forall j, k | 0 <= j < k < |at| :: at[j] <= at[k])
  }

  /** The snapshot such a reader ends up with: field k as it was at its own moment. */
  ghost function Torn(cs: seq<seq<int>>, at: seq<nat>): (v: seq<int>)
    requires ReadTimes(at, |cs|)
    requires forall t | 0 <= t < |cs| :: |at| <= |cs[t]|
    ensures |v| == |at|
    ensures forall k | 0 <= k < |at| :: v[k] == cs[at[k]][k]
  {
    seq(|at|, k requires 0 <= k < |at| => cs[at[k]][k])
  }

  ghost function Column(v: seq<int>): nat -> int {
    (j: nat) => if j < |v| then v[j] else 0
  }

  /** From moment `from` on, `k` times field `i` stays below the sum of the fields `js`. */
  ghost predicate Dominated(cs: seq<seq<int>>, from: nat, k: int, i: nat, js: seq<nat>) {
    forall t | from <= t < |cs| :: i < |cs[t]| && k * cs[t][i] <= SumOf(js, Column(cs[t]))
  }

  ghost predicate NeverDecreases(cs: seq<seq<int>>, from: nat, j: nat) {
    forall t, u | from <= t <= u < |cs| :: j < |cs[t]| && j < |cs[u]| && cs[t][j] <= cs[u][j]
  }

  /** An inequality that holds in every state survives a torn read, as long as the fields on its
      large side never decrease and are loaded after the field on its small side. */
  lemma TornBound(cs: seq<seq<int>>, from: nat, at: seq<nat>, k: int, i: nat, js: seq<nat>)
    requires ReadTimes(at, |cs|) && |at| > 0 && from <= at[0]
    requires forall t | 0 <= t < |cs| :: |at| <= |cs[t]|
    requires i < |at| && forall j | j in js :: i < j < |at|
    requires Dominated(cs, from, k, i, js)
    requires forall j | j in js :: NeverDecreases(cs, from, j)
    ensures k * Torn(cs, at)[i] <= SumOf(js, Column(Torn(cs, at)))
  {
    var v := Torn(cs, at);
    var early := cs[at[i]];
    forall x | 0 <= x < |js| ensures Column(early)(js[x]) <= Column(v)(js[x]) {
      var j := js[x];
      assert j in js && NeverDecreases(cs, from, j);
      assert from <= at[i] <= at[j];
      assert cs[at[i]][j] <= cs[at[j]][j];
    }
    SumBound(js, Column(early), Column(v));
    assert k * cs[at[i]][i] <= SumOf(js, Column(cs[at[i]]));
  }

  /** The history of a counter record along a run. */
  ghost function History<S(!new)>(tr: seq<S>, c: S -> seq<int>): (cs: seq<seq<int>>)
    ensures |cs| == |tr|
    ensures forall t | 0 <= t < |tr| :: cs[t] == c(tr[t])
  {
    seq(|tr|, t requires 0 <= t < |tr| => c(tr[t]))
  }
}
