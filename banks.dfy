/**
 * Bank browsing while shift is held (`pending_bank_up`, `pending_bank_down`):
 * the pending bank steps through 1..BANK_COUNT with wraparound.
 */
module Banks {

  predicate InRange(b: int, bankCount: int) {
    1 <= b <= bankCount
  }

  /** Next bank: BANK_COUNT wraps to 1. */
  function BankUp(b: int, bankCount: int): (r: int)
    ensures InRange(b, bankCount) ==> InRange(r, bankCount)
    ensures b == bankCount ==> r == 1
    ensures b != bankCount ==> r == b + 1
  {
    if b == bankCount then 1 else b + 1
  }

  /** Previous bank: 1 wraps to BANK_COUNT. */
  function BankDown(b: int, bankCount: int): (r: int)
    ensures 1 <= bankCount && InRange(b, bankCount) ==> InRange(r, bankCount)
    ensures b == 1 ==> r == bankCount
    ensures b != 1 ==> r == b - 1
  {
    if b == 1 then bankCount else b - 1
  }

  /** Up then down, and down then up, return to the bank one started from. */
  lemma UpDownInverse(b: int, bankCount: int)
    requires InRange(b, bankCount)
    ensures BankDown(BankUp(b, bankCount), bankCount) == b
    ensures BankUp(BankDown(b, bankCount), bankCount) == b
  {
  }

  /** The bank reached after `k` presses of "next". */
  function UpTimes(b: int, bankCount: int, k: nat): int
    decreases k
  {
    if k == 0 then b else BankUp(UpTimes(b, bankCount, k - 1), bankCount)
  }

  /** `k` presses of "next" move the pending bank `k` places round the cycle 1..BANK_COUNT. */
  lemma {:induction false} UpTimesCycle(b: int, bankCount: int, k: nat)
    requires InRange(b, bankCount)
    ensures UpTimes(b, bankCount, k) == (b - 1 + k) % bankCount + 1
    decreases k
  {
    if k > 0 {
      UpTimesCycle(b, bankCount, k - 1);
      ModSuccessor(b - 1 + k - 1, bankCount);
    }
  }

  lemma ModSuccessor(a: int, n: int)
    requires n >= 1
    ensures (a + 1) % n == if a % n == n - 1 then 0 else a % n + 1
  {
    var q, m := a / n, a % n;
    assert a == q * n + m;
    if m == n - 1 {
      assert a + 1 == (q + 1) * n;
      ModOfMultiple(q + 1, n);
    } else {
      assert a + 1 == q * n + (m + 1);
      ModOfOffset(q, n, m + 1);
    }
  }

  lemma ModOfMultiple(q: int, n: int)
    requires n >= 1
    ensures (q * n) % n == 0
  {
    ModOfOffset(q, n, 0);
  }

  lemma ModOfOffset(q: int, n: int, m: int)
    requires n >= 1 && 0 <= m < n
    ensures (q * n + m) % n == m
  {
    var x := q * n + m;
    var q', m' := x / n, x % n;
    var d := q - q';
    assert d * n == q * n - q' * n;
    assert d * n == m' - m;
    if d >= 1 {
      MulAtLeast(d, n);
    } else if d <= -1 {
      MulAtLeast(-d, n);
    }
  }

  lemma {:induction false} MulAtLeast(d: int, n: int)
    requires d >= 1 && n >= 1
    ensures d * n >= n
    decreases d
  {
    if d > 1 {
      MulAtLeast(d - 1, n);
      assert d * n == (d - 1) * n + n;
    }
  }

  /** BANK_COUNT presses of "next" bring the pending bank back where it was. */
  lemma FullCycle(b: int, bankCount: int)
    requires InRange(b, bankCount)
    ensures UpTimes(b, bankCount, bankCount) == b
  {
    UpTimesCycle(b, bankCount, bankCount);
    ModOfOffset(1, bankCount, b - 1);
  }
}
