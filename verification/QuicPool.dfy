/** The QUIC connection pool (sessions/quic.go): filled once, then handed out round robin through an
    atomically incremented uint64. */
module QuicPool {
  import opened Arith
  import opened GoInts
  import opened Options

  type Connection = nat

  class QuicConnPool {
    const n: nat
    var conns: seq<Option<Connection>>
    var cnt: nat

    /** Every slot holds a connection. */
    ghost predicate Filled()
      reads this
    {
      |conns| == n && forall i | 0 <= i < n :: conns[i].Some?
    }

    constructor (n: nat)
      requires n < TWO64
      ensures this.n == n && conns == [] && cnt == 0
    {
      this.n := n;
      conns := [];
      cnt := 0;
    }

    /** `dialled[i]` is what the i-th dial returns, None for an error; the first error stops the loop
        and leaves the rest of the slots empty. */
    method Dial(dialled: seq<Option<Connection>>) returns (ok: bool)
      requires |dialled| == n
      modifies this`conns
      ensures |conns| == n
      ensures ok <==> forall i | 0 <= i < n :: dialled[i].Some?
      ensures ok ==> Filled() && conns == dialled
      ensures forall i | 0 <= i < n :: conns[i].Some? ==> conns[i] == dialled[i]
    {
      conns := seq(n, _ => None);
      for i := 0 to n
        invariant |conns| == n
        invariant forall j | 0 <= j < i :: conns[j] == dialled[j] && dialled[j].Some?
        invariant forall j | i <= j < n :: conns[j] == None
      {
        if dialled[i].None? {
          return false;
        }
        conns := conns[i := dialled[i]];
      }
      assert conns == dialled;
      return true;
    }

    /** The returned index and connection; a pool of size zero makes Go's `%` panic. */
    method Get() returns (idx: Option<nat>, conn: Option<Connection>)
      requires |conns| == n && cnt < TWO64
      modifies this`cnt
      ensures cnt == Bumped(old(cnt))
      ensures n == 0 ==> idx == None
      ensures n > 0 ==> Slot(n, cnt) < |conns| && idx == Some(Slot(n, cnt)) && conn == conns[Slot(n, cnt)]
      ensures n > 0 && Filled() ==> conn.Some?
    {
      cnt := Bumped(cnt);
      if n == 0 {
        return None, None;
      }
      SlotInRange(n, cnt);
      return Some(Slot(n, cnt)), conns[Slot(n, cnt)];
    }
  }

  function Bumped(cnt: nat): nat { (cnt + 1) % TWO64 }

  function Slot(n: nat, cnt: nat): nat
    requires n > 0
  {
    cnt % n
  }

  lemma SlotInRange(n: nat, cnt: nat)
    requires n > 0
    ensures 0 <= Slot(n, cnt) < n
  {
  }

  // ----- balance -----

  /** The counter after m more calls. */
  function After(cnt: nat, m: nat): nat {
    if m == 0 then cnt else Bumped(After(cnt, m - 1))
  }

  /** How many of the next m calls return slot r. */
  function Hits(n: nat, cnt: nat, m: nat, r: nat): nat
    requires n > 0
  {
    if m == 0 then 0 else Hits(n, cnt, m - 1, r) + if Slot(n, After(cnt, m)) == r then 1 else 0
  }

  /** How many numbers up to x are congruent to r: the closed form behind the count. */
  function Below(n: nat, x: nat, r: nat): nat
    requires n > 0 && r < n
  {
    (x + n - r) / n
  }

  lemma BelowStep(n: nat, x: nat, r: nat)
    requires n > 0 && r < n
    ensures Below(n, x + 1, r) == Below(n, x, r) + if (x + 1) % n == r then 1 else 0
  {
    var y := x + n - r;
    var q, rem := y / n, y % n;
    assert y == n * q + rem;
    MulStep(n, q);
    if rem == n - 1 {
      DivUnique(y + 1, n, q + 1, 0);
      DivUnique(x + 1, n, q, r);
    } else {
      DivUnique(y + 1, n, q, rem + 1);
      if (x + 1) % n == r {
        var p := (x + 1) / n;
        assert x + 1 == n * p + r;
        MulStep(n, p);
        DivUnique(y + 1, n, p + 1, 0);
      }
    }
  }

  /** The window's slots follow the unbounded count. */
  ghost predicate Regular(n: nat, cnt: nat, m: nat)
    requires n > 0
  {
    forall j | 1 <= j <= m :: Slot(n, After(cnt, j)) == (cnt + j) % n
  }

  lemma {:induction false} HitsClosed(n: nat, cnt: nat, m: nat, r: nat)
    requires 0 < n && r < n && Regular(n, cnt, m)
    ensures Hits(n, cnt, m, r) == Below(n, cnt + m, r) - Below(n, cnt, r)
  {
    if m > 0 {
      HitsClosed(n, cnt, m - 1, r);
      BelowStep(n, cnt + m - 1, r);
    }
  }

  lemma FloorOfSum(n: int, a: int, m: int)
    requires n > 0 && a >= 0 && m >= 0
    ensures (a + m) / n == a / n + m / n + if a % n + m % n < n then 0 else 1
  {
    var qa, ra, qm, rm := a / n, a % n, m / n, m % n;
    assert a == n * qa + ra && m == n * qm + rm;
    assert n * (qa + qm) == n * qa + n * qm;
    MulStep(n, qa + qm);
    if ra + rm < n {
      DivUnique(a + m, n, qa + qm, ra + rm);
    } else {
      DivUnique(a + m, n, qa + qm + 1, ra + rm - n);
    }
  }

  lemma CeilOf(n: int, m: int)
    requires n > 0 && m >= 0
    ensures CeilDiv(m, n) == m / n + if m % n == 0 then 0 else 1
  {
    var qm, rm := m / n, m % n;
    assert m == n * qm + rm;
    MulStep(n, qm);
    if rm == 0 { DivUnique(m + n - 1, n, qm, n - 1); } else { DivUnique(m + n - 1, n, qm + 1, rm - 1); }
  }

  ghost predicate Balanced(n: nat, cnt: nat, m: nat)
    requires n > 0
  {
    forall r | 0 <= r < n :: m / n <= Hits(n, cnt, m, r) <= CeilDiv(m, n)
  }

  lemma RegularIsBalanced(n: nat, cnt: nat, m: nat)
    requires 0 < n && Regular(n, cnt, m)
    ensures Balanced(n, cnt, m)
  {
    forall r | 0 <= r < n ensures m / n <= Hits(n, cnt, m, r) <= CeilDiv(m, n) {
      HitsClosed(n, cnt, m, r);
      assert cnt + m + n - r == (cnt + n - r) + m;
      FloorOfSum(n, cnt + n - r, m);
      CeilOf(n, m);
    }
  }

  lemma {:induction false} AfterWithoutWrap(cnt: nat, m: nat)
    requires cnt + m < TWO64
    ensures After(cnt, m) == cnt + m
  {
    if m > 0 { AfterWithoutWrap(cnt, m - 1); }
  }

  /** Over any window of m calls without wrap-around, every connection is returned floor(m/n) or
      ceil(m/n) times. Calls may be concurrent: each takes its own value of the counter. */
  lemma WindowIsBalanced(n: nat, cnt: nat, m: nat)
    requires 0 < n && cnt + m < TWO64
    ensures Balanced(n, cnt, m)
  {
    forall j | 1 <= j <= m ensures Slot(n, After(cnt, j)) == (cnt + j) % n { AfterWithoutWrap(cnt, j); }
    RegularIsBalanced(n, cnt, m);
  }

  lemma {:induction false} AfterDivides(n: nat, cnt: nat, m: nat)
    requires 0 < n && TWO64 % n == 0 && cnt < TWO64
    ensures After(cnt, m) < TWO64 && After(cnt, m) % n == (cnt + m) % n
  {
    if m > 0 {
      AfterDivides(n, cnt, m - 1);
      BumpedRemainder(n, After(cnt, m - 1));
      SameRemainderNext(n, After(cnt, m - 1), cnt + m - 1);
    }
  }

  lemma BumpedRemainder(n: nat, x: nat)
    requires 0 < n && TWO64 % n == 0 && x < TWO64
    ensures Bumped(x) < TWO64 && Bumped(x) % n == (x + 1) % n
  {
    if x + 1 == TWO64 { SmallRemainder(n); }
  }

  lemma SameRemainderNext(n: nat, x: nat, y: nat)
    requires n > 0 && x % n == y % n
    ensures (x + 1) % n == (y + 1) % n
  {
    FloorRemainder(n, x);
    FloorRemainder(n, y);
  }

  lemma FloorRemainder(n: nat, x: nat)
    requires n > 0
    ensures (x + 1) % n == if x % n == n - 1 then 0 else x % n + 1
  {
    var q := x / n;
    assert x == n * q + x % n;
    MulStep(n, q);
    if x % n == n - 1 { DivUnique(x + 1, n, q + 1, 0); } else { DivUnique(x + 1, n, q, x % n + 1); }
  }

  lemma {:induction false} HitsGrow(n: nat, cnt: nat, k: nat, m: nat, r: nat)
    requires n > 0 && k <= m
    ensures Hits(n, cnt, k, r) <= Hits(n, cnt, m, r)
  {
    if k < m { HitsGrow(n, cnt, k, m - 1, r); }
  }

  /** The window that ends with the first value after the wrap and starts with the last multiple of n
      before it returns slot 0 twice. */
  lemma WrapHitsTwice(n: nat)
    requires 0 < n < TWO64 && TWO64 % n != 0
    ensures var left := TWO64 % n;
            !Balanced(n, TWO64 - 1 - left, left + 1)
  {
    var left := TWO64 % n;
    var cnt: nat := TWO64 - 1 - left;
    assert TWO64 == n * (TWO64 / n) + left;
    DivUnique(TWO64 - left, n, TWO64 / n, 0);
    AfterWithoutWrap(cnt, left);
    assert After(cnt, left + 1) == 0;
    assert After(cnt, 0) == cnt && After(cnt, 1) == cnt + 1;
    assert Hits(n, cnt, 0, 0) == 0 && Hits(n, cnt, 1, 0) == 1;
    HitsGrow(n, cnt, 1, left, 0);
    SmallRemainder(n);
    assert Hits(n, cnt, left + 1, 0) >= 2;
    CeilOf(n, left + 1);
    if left + 1 < n { DivUnique(left + 1, n, 0, left + 1); } else { DivUnique(left + 1, n, 1, 0); }
  }

  lemma SmallRemainder(n: nat)
    requires n > 0
    ensures Slot(n, 0) == 0
  {
  }

  /** Every window, wrap-around included, is balanced exactly when the pool size divides 2^64. */
  lemma AlwaysBalancedIff(n: nat)
    requires 0 < n < TWO64
    ensures (forall cnt: nat, m: nat | cnt < TWO64 :: Balanced(n, cnt, m)) <==> 18_446_744_073_709_551_616 % n == 0
  {
    if TWO64 % n == 0 {
      forall cnt: nat, m: nat | cnt < TWO64 ensures Balanced(n, cnt, m) {
        forall j | 1 <= j <= m ensures Slot(n, After(cnt, j)) == (cnt + j) % n { AfterDivides(n, cnt, j); }
        RegularIsBalanced(n, cnt, m);
      }
    } else {
      WrapHitsTwice(n);
    }
  }
}
