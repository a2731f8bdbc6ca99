/** How the users of a phase are split over the agents (agent/agent_controller.go).
    Go computes in int64, so sums and products wrap around explicitly. */
module Splitter {
  import opened Arith
  import opened GoInts
  import opened Sums

  /** What a caller hands over: any int64 total and at least one agent. */
  predicate Input(total: int, agents: int) { Int64(total) && 1 <= agents < TWO63 }

  /** With a total that is not negative, as every sensible phase has it. */
  predicate Valid(total: int, agents: int) {
    0 <= total < TWO63 && 1 <= agents < TWO63
  }

  /** The condition under which the ceiling division does not overflow. */
  predicate Fits(total: int, agents: int) {
    total + agents - 1 < TWO63
  }

  function Major(total: int, agents: int): int
    requires Input(total, agents)
  {
    TruncDiv(Wrap(total + agents - 1), agents)
  }

  /** What is left for agent k when every agent before it gets `major`. */
  function Left(total: int, major: int, k: int): int {
    Wrap(total - Wrap(major * k))
  }

  /** The search for the last agent that still gets users, from index `k` downwards. */
  function LastIdx(total: int, major: int, k: int): (r: int)
    requires 0 <= total < TWO63 && 0 <= k
    ensures 0 <= r <= k && Left(total, major, r) >= 0
    ensures forall j | r < j <= k :: Left(total, major, j) < 0
    decreases k
  {
    if Left(total, major, k) < 0 then LastIdx(total, major, k - 1) else k
  }

  function CodeShare(total: int, agents: int, idx: int): int
    requires Valid(total, agents)
  {
    var major := Major(total, agents);
    var last := LastIdx(total, major, agents - 1);
    if idx < last then major else if idx == last then Left(total, major, last) else 0
  }

  /** The reference split, which does not search: fill the agents one after the other, each up to
      the ceiling of the average. */
  function Share(total: nat, agents: int, idx: nat): (r: nat)
    requires agents >= 1
    ensures r <= CeilDiv(total, agents)
  {
    Max(0, Min(CeilDiv(total, agents), total - idx * CeilDiv(total, agents)))
  }

  /** The guard under which the search ends, see SearchEndsIff. */
  predicate Ending(total: int, agents: int) { total >= 0 || total <= 1 - 2 * agents }

  method GetSessionUsers(total: int, agentCount: int, agentIdx: int) returns (users: int)
    requires Input(total, agentCount) && Ending(total, agentCount)
    ensures total >= 0 ==> users == CodeShare(total, agentCount, agentIdx)
    ensures total >= 0 && Fits(total, agentCount) && agentIdx >= 0 ==> users == Share(total, agentCount, agentIdx)
    ensures total < 0 && agentIdx >= 0 ==> users == 0
  {
    var major := Major(total, agentCount);
    var lastIdx := agentCount - 1;
    ghost var stop := SearchStops(total, agentCount);
    while Left(total, major, lastIdx) < 0
      invariant stop <= lastIdx < agentCount
      invariant total >= 0 ==> 0 <= lastIdx && LastIdx(total, major, agentCount - 1) == LastIdx(total, major, lastIdx)
      decreases lastIdx - stop
    {
      lastIdx := lastIdx - 1;
    }
    if total < 0 && lastIdx >= 0 { NegativeNeverFits(total, agentCount, lastIdx); }
    if agentIdx < lastIdx {
      users := major;
    } else if agentIdx == lastIdx {
      users := Left(total, major, lastIdx);
    } else {
      users := 0;
    }
    if total >= 0 { ReferenceStep(total, agentCount, agentIdx, users); }
  }

  lemma ReferenceStep(total: int, agents: int, idx: int, users: int)
    requires Valid(total, agents) && users == CodeShare(total, agents, idx)
    ensures Fits(total, agents) && idx >= 0 ==> users == Share(total, agents, idx)
  {
    if Fits(total, agents) && idx >= 0 { CodeMeetsReference(total, agents, idx); }
  }

  // ----- arithmetic of the ceiling -----

  lemma ProductFits(total: int, agents: int, k: int)
    requires Valid(total, agents) && Fits(total, agents) && 0 <= k <= agents
    ensures Major(total, agents) == CeilDiv(total, agents) >= 0
    ensures 0 <= Major(total, agents) * k <= total + agents - 1
  {
    CeilDivBounds(total, agents);
    MulMono(Major(total, agents), 0, k);
    MulMono(Major(total, agents), k, agents);
  }

  lemma LeftExact(total: int, agents: int, k: int)
    requires Valid(total, agents) && Fits(total, agents) && 0 <= k <= agents
    ensures Left(total, Major(total, agents), k) == total - Major(total, agents) * k
  {
    ProductFits(total, agents, k);
  }

  /** Without overflow the search lands on min(n - 1, T / major), the remainder lies between 0 and
      major, and no intermediate value leaves int64. */
  lemma SearchResult(total: int, agents: int)
    requires Valid(total, agents) && Fits(total, agents)
    ensures var major := Major(total, agents);
            var last := LastIdx(total, major, agents - 1);
            && major == CeilDiv(total, agents)
            && (forall k | 0 <= k < agents :: Int64(major * k) && Int64(total - major * k))
            && 0 <= total - major * last <= major
            && last == if major == 0 then agents - 1 else Min(agents - 1, total / major)
  {
    var major := Major(total, agents);
    var last := LastIdx(total, major, agents - 1);
    forall k | 0 <= k < agents ensures Int64(major * k) && Int64(total - major * k) {
      ProductFits(total, agents, k);
    }
    RemainderBounds(total, agents);
    ProductFits(total, agents, 0);
    if major > 0 { LastIsQuotient(total, agents, major, last); }
  }

  lemma RemainderBounds(total: int, agents: int)
    requires Valid(total, agents) && Fits(total, agents)
    ensures var major := Major(total, agents);
            var last := LastIdx(total, major, agents - 1);
            && 0 <= total - major * last <= major
            && (last < agents - 1 ==> total < major * last + major)
  {
    var major := Major(total, agents);
    var last := LastIdx(total, major, agents - 1);
    LeftExact(total, agents, last);
    MulStep(major, last);
    if last < agents - 1 {
      LeftExact(total, agents, last + 1);
    } else {
      ProductFits(total, agents, agents);
      CeilDivBounds(total, agents);
      assert major * agents == agents * major;
    }
  }

  lemma LastIsQuotient(total: int, agents: int, major: int, last: int)
    requires 0 < major && 0 <= last <= agents - 1 && 0 <= total - major * last <= major
    requires last < agents - 1 ==> total < major * last + major
    ensures last == Min(agents - 1, total / major)
  {
    var q := total / major;
    assert total == major * q + total % major;
    MulStep(major, q);
    MulStep(major, last);
    if q < last {
      MulMono(major, q + 1, last);
    } else if last < q && last < agents - 1 {
      MulMono(major, last + 1, q);
    }
  }

  lemma CodeMeetsReference(total: int, agents: int, idx: nat)
    requires Valid(total, agents) && Fits(total, agents)
    ensures CodeShare(total, agents, idx) == Share(total, agents, idx)
  {
    var major := Major(total, agents);
    var last := LastIdx(total, major, agents - 1);
    RemainderBounds(total, agents);
    LeftExact(total, agents, last);
    ProductFits(total, agents, last);
    FillBy(total, major, last, agents, idx);
  }

  /** Filling one agent after the other up to `major` gives `major` before index `last`, the rest at
      it, and nothing after it. */
  lemma FillBy(total: int, major: nat, last: nat, agents: int, idx: nat)
    requires 0 <= total - major * last <= major
    requires last < agents - 1 ==> total < major * last + major
    ensures Max(0, Min(major, total - idx * major)) ==
            if idx < last then major else if idx == last then total - major * last else 0
  {
    assert idx * major == major * idx;
    MulStep(major, idx);
    MulStep(major, last);
    if idx < last {
      MulMono(major, idx + 1, last);
    } else if last < idx {
      MulMono(major, last + 1, idx);
    }
  }

  // ----- the reference split -----

  function Shares(total: nat, agents: int): (s: seq<int>)
    requires agents >= 1
    ensures |s| == agents
    ensures forall i | 0 <= i < agents :: s[i] == Share(total, agents, i)
  {
    seq(agents, i requires 0 <= i < agents => Share(total, agents, i))
  }

  function Id(): int -> int { x => x }

  lemma {:induction false} SharesPrefix(total: nat, agents: int, k: nat)
    requires 1 <= agents && k <= agents
    ensures SumOf(Shares(total, agents)[..k], Id()) == Min(total, k * CeilDiv(total, agents))
  {
    var major := CeilDiv(total, agents);
    if k > 0 {
      SharesPrefix(total, agents, k - 1);
      var s := Shares(total, agents);
      assert s[..k][..k - 1] == s[..k - 1];
      PrefixStep(total, major, k - 1);
    }
  }

  lemma PrefixStep(total: nat, major: nat, k: nat)
    ensures Min(total, k * major) + Max(0, Min(major, total - k * major)) == Min(total, (k + 1) * major)
  {
  }

  /** The shares add up to the total, never increase along the agents, and no split of the same
      total over the same agents has a smaller largest share. */
  lemma SharesExact(total: nat, agents: int)
    requires agents >= 1
    ensures SumOf(Shares(total, agents), Id()) == total
    ensures forall i, j | 0 <= i <= j < agents :: Share(total, agents, i) >= Share(total, agents, j)
    ensures forall xs: seq<int> | |xs| == agents && SumOf(xs, Id()) == total ::
              exists j | 0 <= j < agents :: Share(total, agents, 0) <= xs[j]
  {
    var s := Shares(total, agents);
    assert s[..agents] == s;
    SharesPrefix(total, agents, agents);
    CeilDivBounds(total, agents);
    var major := CeilDiv(total, agents);
    assert agents * major == major * agents;
    forall i, j | 0 <= i <= j < agents ensures Share(total, agents, i) >= Share(total, agents, j) {
      MulMono(major, i, j);
      assert i * major == major * i && j * major == major * j;
    }
    forall xs: seq<int> | |xs| == agents && SumOf(xs, Id()) == total
      ensures exists j | 0 <= j < agents :: Share(total, agents, 0) <= xs[j]
    {
      LargestAtLeastCeiling(xs, total, agents);
    }
  }

  lemma LargestAtLeastCeiling(xs: seq<int>, total: nat, agents: int)
    requires agents >= 1 && |xs| == agents && SumOf(xs, Id()) == total
    ensures exists j | 0 <= j < agents :: CeilDiv(total, agents) <= xs[j]
  {
    var major := CeilDiv(total, agents);
    CeilDivBounds(total, agents);
    if forall j | 0 <= j < agents :: xs[j] <= major - 1 {
      SumScaledBound(xs, Id(), 1, xs, (x: int) => major - 1);
      MulStep(agents, major - 1);
      SumConstant(xs, major - 1);
      assert false;
    }
  }

  lemma {:induction false} SumConstant(xs: seq<int>, c: int)
    ensures SumOf(xs, (x: int) => c) == |xs| * c
  {
    if xs != [] {
      SumConstant(xs[..|xs| - 1], c);
      assert |xs| * c == (|xs| - 1) * c + c;
    }
  }

  // ----- what is left when the ceiling division overflows -----

  function CodeShares(total: int, agents: int): (s: seq<int>)
    requires Valid(total, agents)
    ensures |s| == agents
    ensures forall i | 0 <= i < agents :: s[i] == CodeShare(total, agents, i)
  {
    seq(agents, i requires 0 <= i < agents => CodeShare(total, agents, i))
  }

  lemma NegativeTruncDiv(a: int, b: int)
    requires a > 0 && b > 0
    ensures TruncDiv(-a, b) == -(a / b) <= 0
  {
    var q := a / b;
    assert a == b * q + a % b;
    if q < 0 { MulMono(b, q, -1); }
    assert -(-a) == a;
  }

  lemma OverflowMajor(total: int, agents: int)
    requires Valid(total, agents) && !Fits(total, agents)
    ensures total >= 2 && agents >= 2
    ensures var spill := TWO64 - total - agents + 1;
            0 < spill <= TWO63 && Major(total, agents) == -(spill / agents) <= 0
  {
    WrapsOnce(total + agents - 1);
    NegativeTruncDiv(TWO64 - total - agents + 1, agents);
  }

  lemma OverflowFacts(total: int, agents: int)
    requires Valid(total, agents) && !Fits(total, agents)
    ensures total >= 2 && agents >= 2
    ensures var major := Major(total, agents);
            var last := LastIdx(total, major, agents - 1);
            major <= 0 && Left(total, major, last) == total - last * major
  {
    var major := Major(total, agents);
    var last := LastIdx(total, major, agents - 1);
    OverflowMajor(total, agents);
    QuotientBounds(TWO64 - total - agents + 1, agents, -major, last);
    NegatedProduct(major, last);
    assert Wrap(major * last) == major * last;
    var x := total - major * last;
    if x >= TWO63 { WrapsOnce(x); }
  }

  lemma NegatedProduct(a: int, b: int)
    ensures a * b == b * a == -(-a * b)
  {
  }

  lemma QuotientBounds(a: int, b: int, q: int, k: int)
    requires 0 <= a <= TWO63 && b > 0 && q == a / b && 0 <= k < b
    ensures 0 <= q * k <= TWO63
  {
    assert a == b * q + a % b;
    MulMono(q, 0, k);
    MulMono(q, k, b);
    assert q * b == b * q;
  }

  /** Even when the ceiling division wraps around, the shares the code hands out add up to the
      total. */
  lemma CodeSharesSum(total: int, agents: int)
    requires Valid(total, agents)
    ensures SumOf(CodeShares(total, agents), Id()) == total
  {
    var s := CodeShares(total, agents);
    if Fits(total, agents) {
      forall i | 0 <= i < agents ensures s[i] == Shares(total, agents)[i] {
        CodeMeetsReference(total, agents, i);
      }
      assert s == Shares(total, agents);
      SharesExact(total, agents);
    } else {
      OverflowFacts(total, agents);
      var major := Major(total, agents);
      StaircaseSum(s, LastIdx(total, major, agents - 1), major, total);
    }
  }

  /** `major` up to `last`, then the rest, then nothing. */
  lemma StaircaseSum(s: seq<int>, last: nat, major: int, total: int)
    requires last < |s| && s[last] == total - last * major
    requires forall i | 0 <= i < last :: s[i] == major
    requires forall i | last < i < |s| :: s[i] == 0
    ensures SumOf(s, Id()) == total
  {
    var tail := s[last + 1..];
    assert s == (s[..last] + [s[last]]) + tail;
    SumConcat(s[..last] + [s[last]], tail, Id());
    SumAppend(s[..last], s[last]);
    SumZero(tail, Id());
    SumEqual(s[..last], Id(), s[..last], (x: int) => major);
    SumConstant(s[..last], major);
  }

  /** The largest share handed out is as small as possible. */
  ghost predicate Balanced(total: int, agents: int)
    requires Valid(total, agents)
  {
    forall i, xs: seq<int> | 0 <= i < agents && |xs| == agents && SumOf(xs, Id()) == total ::
      exists j | 0 <= j < agents :: CodeShare(total, agents, i) <= xs[j]
  }

  /** The split is balanced exactly when the ceiling division does not overflow; otherwise one
      agent gets the whole total or more. */
  lemma BalancedIffFits(total: int, agents: int)
    requires Valid(total, agents)
    ensures Balanced(total, agents) <==> total + agents - 1 <= 9_223_372_036_854_775_807
  {
    SharesExact(total, agents);
    if Fits(total, agents) {
      forall i, xs: seq<int> | 0 <= i < agents && |xs| == agents && SumOf(xs, Id()) == total
        ensures exists j | 0 <= j < agents :: CodeShare(total, agents, i) <= xs[j]
      {
        CodeMeetsReference(total, agents, i);
        LargestAtLeastCeiling(xs, total, agents);
        var j :| 0 <= j < agents && CeilDiv(total, agents) <= xs[j];
        assert CodeShare(total, agents, i) <= xs[j];
      }
    } else {
      OverflowFacts(total, agents);
      CeilBelowTotal(total, agents);
      var last := LastIdx(total, Major(total, agents), agents - 1);
      var xs := Shares(total, agents);
      MulMono(last, Major(total, agents), 0);
      assert CodeShare(total, agents, last) >= total;
      assert forall j | 0 <= j < agents :: xs[j] < CodeShare(total, agents, last);
      assert !Balanced(total, agents);
    }
  }

  lemma CeilBelowTotal(total: int, agents: int)
    requires total >= 2 && agents >= 2
    ensures CeilDiv(total, agents) < total
  {
    var major := CeilDiv(total, agents);
    CeilDivBounds(total, agents);
    if major >= total {
      MulMono(agents, total, major);
      assert (agents - 1) * (total - 1) == agents * total - agents - total + 1;
      MulMono(agents - 1, 1, total - 1);
    }
  }

  // ----- negative totals -----

  lemma SmallNegativeMajor(total: int, agents: int)
    requires Input(total, agents) && 1 - 2 * agents < total < 0
    ensures Major(total, agents) == 0
  {
    var x := total + agents - 1;
    if x >= 0 {
      DivUnique(x, agents, 0, x);
    } else {
      NegativeTruncDiv(-x, agents);
      DivUnique(-x, agents, 0, -x);
    }
  }

  lemma LargeNegativeMajor(total: int, agents: int) returns (q: int)
    requires Input(total, agents) && total <= 1 - 2 * agents
    ensures Major(total, agents) == -q && 1 <= q <= TWO63
    ensures agents * q <= -total - agents + 1
  {
    var a := -total - agents + 1;
    NegativeTruncDiv(a, agents);
    q := a / agents;
    assert a == agents * q + a % agents;
    if q <= 0 { MulMono(agents, q, 0); }
    MulMono(q, 1, agents);
    assert q * agents == agents * q && q * 1 == q;
  }

  /** No agent of a job with such a total comes out of the search. */
  lemma NegativeNeverFits(total: int, agents: int, k: int)
    requires Input(total, agents) && total < 0 && 0 <= k < agents
    ensures Left(total, Major(total, agents), k) < 0
  {
    if total <= 1 - 2 * agents {
      var q := LargeNegativeMajor(total, agents);
      MulMono(q, 0, k);
      MulMono(q, k, agents);
      assert q * agents == agents * q;
      NegatedProduct(-q, k);
      assert Wrap(-q * k) == -q * k;
    } else {
      SmallNegativeMajor(total, agents);
    }
  }

  /** One product further down the difference leaves int64 and comes back as a positive number. */
  lemma WrapsToPositive(total: int, q: int, j: int)
    requires -TWO63 <= total < 0 && 1 <= q <= TWO63 && 0 <= j && -TWO64 <= total - q * j < -TWO63
    ensures Left(total, -q, -j) >= 0
  {
    assert -q * -j == q * j;
    if q * j >= TWO63 { WrapsOnce(q * j); }
  }

  /** An index, still an int64, at which the search stops. */
  lemma SearchStops(total: int, agents: int) returns (k: int)
    requires Input(total, agents) && Ending(total, agents)
    ensures -TWO63 <= k < agents && Left(total, Major(total, agents), k) >= 0 && (total >= 0 ==> k == 0)
  {
    if total >= 0 {
      k := 0;
      assert Major(total, agents) * 0 == 0;
    } else {
      var q := LargeNegativeMajor(total, agents);
      var j := (total + TWO63) / q;
      assert total + TWO63 == q * j + (total + TWO63) % q;
      MulStep(q, j);
      if j > TWO63 - 1 { MulMono(q, TWO63, j); MulMono(TWO63, 1, q); }
      if j < 0 { MulMono(q, j, -1); }
      WrapsToPositive(total, q, j + 1);
      k := -(j + 1);
    }
  }

  /** The search ends if and only if the total is not negative or so far below zero that the ceiling
      division does not round it to zero; in between it runs forever. */
  lemma SearchEndsIff(total: int, agents: int)
    requires Input(total, agents)
    ensures (exists k | k < agents :: Left(total, Major(total, agents), k) >= 0) <==> Ending(total, agents)
  {
    if Ending(total, agents) {
      var k := SearchStops(total, agents);
    } else {
      SmallNegativeMajor(total, agents);
      forall k | k < agents ensures Left(total, Major(total, agents), k) < 0 { assert 0 * k == 0; }
    }
  }
}
