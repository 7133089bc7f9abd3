/** Claiming the merge slot: a counted retry loop whose backoff is a shift of an int64. */
module MergeSlot {

  const SECOND: int := 1_000_000_000
  const CAP: int := 30 * SECOND
  const TWO63: int := 0x8000_0000_0000_0000
  const TWO64: int := 0x1_0000_0000_0000_0000

  /** The int64 that is congruent to `x`. */
  function Wrap(x: int): (r: int)
    ensures -TWO63 <= r < TWO63 && (r - x) % TWO64 == 0
  {
    var m := x % TWO64;
    if m >= TWO63 then m - TWO64 else m
  }

  /** `x << n` on int64: n shifts by one, each dropping the bit that leaves. */
  function Shl(x: int, n: nat): int { if n == 0 then x else Wrap(2 * Shl(x, n - 1)) }

  function Pow2(n: nat): nat { if n == 0 then 1 else 2 * Pow2(n - 1) }

  /** The wait before attempt `attempt`. */
  function Backoff(attempt: nat): int
    requires attempt > 0
  {
    var b := Shl(SECOND, attempt - 1);
    if b > CAP || b <= 0 then CAP else b
  }

  function Min(a: int, b: int): int { if a < b then a else b }

  lemma {:induction false} Pow2Grows(m: nat, n: nat)
    requires m <= n
    ensures Pow2(m) <= Pow2(n)
  {
    if m < n { Pow2Grows(m, n - 1); }
  }

  lemma LargePowers()
    ensures Pow2(26) == 0x400_0000 && Pow2(33) == 0x2_0000_0000
  {
    assert Pow2(8) == 0x100;
    assert Pow2(16) == 0x1_0000;
    assert Pow2(24) == 0x100_0000;
    assert Pow2(32) == 0x1_0000_0000;
  }

  lemma ShiftStep(n: nat)
    requires n > 0
    ensures Shl(SECOND, n) == Wrap(2 * Shl(SECOND, n - 1))
  {
    hide Wrap;
  }

  lemma ShiftStart()
    ensures Shl(SECOND, 0) == SECOND && Pow2(0) == 1
  {
  }

  /** While nothing is lost a shift is a multiplication. */
  lemma {:induction false} ShiftExact(n: nat)
    requires n <= 33
    ensures Shl(SECOND, n) == SECOND * Pow2(n)
  {
    hide Shl;
    hide Pow2;
    hide Wrap;
    if n == 0 {
      ShiftStart();
    } else {
      ShiftExact(n - 1);
      ShiftStep(n);
      Pow2Step(n);
      Pow2Grows(n, 33);
      LargePowers();
      SmallWraps(SECOND * Pow2(n));
    }
  }

  lemma Pow2Step(n: nat)
    requires n > 0
    ensures Pow2(n) == 2 * Pow2(n - 1)
  {
  }

  lemma SmallWraps(x: int)
    requires 0 <= x < TWO63
    ensures Wrap(x) == x
  {
  }

  /** From the 26th shift on every value, wrapped or not, is a multiple of 2^35, which is more than
      the cap. */
  lemma {:induction false} ShiftMultiple(n: nat)
    requires n >= 26
    ensures Shl(SECOND, n) % 0x8_0000_0000 == 0
  {
    hide Shl;
    hide Pow2;
    hide Wrap;
    if n == 26 {
      ShiftExact(26);
      LargePowers();
    } else {
      ShiftMultiple(n - 1);
      DoubleMultiple(Shl(SECOND, n - 1));
      ShiftStep(n);
    }
  }

  lemma DoubleMultiple(x: int)
    requires x % 0x8_0000_0000 == 0
    ensures Wrap(2 * x) % 0x8_0000_0000 == 0
  {
    assert x == 0x8_0000_0000 * (x / 0x8_0000_0000);
    assert 2 * x == 0x8_0000_0000 * (2 * (x / 0x8_0000_0000));
    WrapMultiple(2 * x);
  }

  lemma WrapMultiple(x: int)
    requires x % 0x8_0000_0000 == 0
    ensures Wrap(x) % 0x8_0000_0000 == 0
  {
    var k, q := x / 0x8_0000_0000, (Wrap(x) - x) / TWO64;
    assert Wrap(x) == 0x8_0000_0000 * (k + 0x2000_0000 * q);
  }

  /** The k-th wait is the capped doubling of a second, for every k, although the shift wraps. */
  lemma BackoffDoubles(attempt: nat)
    requires attempt > 0
    ensures Backoff(attempt) == Min(Pow2(attempt - 1) * 1_000_000_000, 30_000_000_000)
  {
    var n := attempt - 1;
    if n <= 26 {
      ShiftExact(n);
      assert Pow2(n) >= 1 by { Pow2Grows(0, n); }
    } else {
      ShiftMultiple(n);
      Pow2Grows(26, n);
      LargePowers();
    }
  }

  /** The wrap is real: the 35th wait is shifted into a negative number. */
  lemma ShiftWraps()
    ensures Shl(SECOND, 34) < 0
  {
    hide Shl;
    hide Pow2;
    ShiftExact(33);
    LargePowers();
    ShiftStep(34);
  }

  // ---- the loop ------------------------------------------------------------------------------

  datatype Outcome = Advisory | Acquired | Cancelled | Exhausted

  function Retries(requested: int): nat { if requested <= 0 then 3 else requested }

  function Sum(waits: seq<int>): int { if waits == [] then 0 else Sum(waits[..|waits| - 1]) + waits[|waits| - 1] }

  /** The waits of the first `r` retries. */
  function AllWaits(r: nat): seq<int> {
    if r == 0 then [] else AllWaits(r - 1) + [Min(Pow2(r - 1) * 1_000_000_000, 30_000_000_000)]
  }

  /** No claim before attempt `n` succeeds, and no wait before it is cut short. */
  ghost predicate NoLuck(ended: nat -> bool, claimed: nat -> bool, n: nat) {
    forall a: nat | a < n :: !claimed(a) && (a > 0 ==> !ended(a))
  }

  /** MergeSlotAcquire, where `ended(a)` says that the caller's context ends during the wait before
      attempt `a`, and `claimed(a)` that its claim succeeds. */
  method MergeSlotAcquire(available: bool, requested: int, ended: nat -> bool, claimed: nat -> bool)
    returns (outcome: Outcome, claims: nat, waits: seq<int>)
    ensures !available <==> outcome == Advisory
    ensures !available ==> claims == 0 && waits == []
    ensures claims <= (if requested <= 0 then 3 else requested) + 1
    ensures available ==> claims > 0 && waits == AllWaits(claims - 1)
    ensures outcome == Acquired ==> claims > 0 && NoLuck(ended, claimed, claims - 1) && claimed(claims - 1) && (claims > 1 ==> !ended(claims - 1))
    ensures outcome == Cancelled ==> claims <= (if requested <= 0 then 3 else requested) && NoLuck(ended, claimed, claims) && ended(claims)
    ensures outcome == Exhausted ==> claims == (if requested <= 0 then 3 else requested) + 1 && NoLuck(ended, claimed, claims)
  {
    claims, waits := 0, [];
    if !available {
      return Advisory, claims, waits;
    }
    var retries := Retries(requested);
    var attempt := 0;
    while attempt <= retries
      invariant 0 <= attempt <= retries + 1 && claims == attempt
      invariant waits == AllWaits(if attempt == 0 then 0 else attempt - 1)
      invariant NoLuck(ended, claimed, attempt)
    {
      if attempt > 0 {
        if ended(attempt) {
          return Cancelled, claims, waits;
        }
        BackoffDoubles(attempt);
        waits := waits + [Backoff(attempt)];
      }
      claims := claims + 1;
      if claimed(attempt) {
        return Acquired, claims, waits;
      }
      attempt := attempt + 1;
    }
    outcome := Exhausted;
  }

  /** What `r` retries wait altogether: 1 + 2 + 4 + 8 + 16 = 31 seconds for the first five, and 30 for
      each further one. */
  lemma {:induction false} TotalWait(r: nat)
    ensures Sum(AllWaits(r)) == if r < 5 then (Pow2(r) - 1) * SECOND else (31 + 30 * (r - 5)) * SECOND
  {
    if r > 0 {
      TotalWait(r - 1);
      assert AllWaits(r)[..|AllWaits(r)| - 1] == AllWaits(r - 1);
      if r > 5 {
        Pow2Grows(5, r - 1);
        assert Pow2(5) == 32;
      } else {
        assert Pow2(0) == 1 && Pow2(1) == 2 && Pow2(2) == 4 && Pow2(3) == 8 && Pow2(4) == 16 && Pow2(5) == 32;
      }
    }
  }

  /** So the waits of an acquire that was allowed `r` retries, however it ended, are bounded. */
  lemma {:induction false} WaitsBounded(k: nat, r: nat)
    requires k <= r && r >= 5
    ensures 0 <= Sum(AllWaits(k)) <= (31 + 30 * (r - 5)) * SECOND
  {
    TotalWait(k);
    Pow2Grows(0, k);
    if k < 5 {
      Pow2Grows(k, 5);
      assert Pow2(5) == 32;
    }
    hide Sum;
    hide AllWaits;
  }
}
