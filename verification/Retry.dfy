/** The delay before an outbound delivery is tried again. */
module Retry {
  import opened Prelude

  datatype Config = Config(base: int, max: int)

  /** What configuration validation admits, in the signed 64-bit range. */
  predicate ValidConfig(c: Config) {
    0 < c.base <= c.max <= I64_MAX
  }

  function Pow2(n: nat): nat {
    if n == 0 then 1 else 2 * Pow2(n - 1)
  }

  function Min(a: int, b: int): int {
    if a < b then a else b
  }

  /** The shift saturates at 62, so one shifted by it still fits. */
  function Shift(attempts: nat): nat {
    if attempts == 0 then 0 else if attempts - 1 < 62 then attempts - 1 else 62
  }

  function CheckedMul(a: int, b: int): Option<int> {
    if a * b <= I64_MAX then Some(a * b) else None
  }

  /** `retry_delay`. */
  function Delay(c: Config, attempts: nat): int {
    match CheckedMul(c.base, Pow2(Shift(attempts)))
    case Some(product) => Min(product, c.max)
    case None => Min(I64_MAX, c.max)
  }

  /** Doubling from the base, cut off at the maximum. */
  function Doubling(c: Config, attempts: nat): int
    requires 0 < attempts
  {
    Min(c.base * Pow2(attempts - 1), c.max)
  }

  lemma {:induction false} Pow2Monotone(m: nat, n: nat)
    requires m <= n
    ensures 0 < Pow2(m) <= Pow2(n)
    decreases n
  {
    if m < n {
      Pow2Monotone(m, n - 1);
    } else if 0 < m {
      Pow2Monotone(m - 1, m - 1);
    }
  }

  const TwoTo62: int := 0x4000_0000_0000_0000

  lemma {:induction false} Pow2Halves(n: nat)
    ensures Pow2(2 * n) == Pow2(n) * Pow2(n)
  {
    if 0 < n {
      Pow2Halves(n - 1);
      assert Pow2(2 * n) == 4 * Pow2(2 * (n - 1));
    }
  }

  lemma Pow2Of62()
    ensures Pow2(62) == TwoTo62
  {
    assert Pow2(15) == 0x8000;
    Pow2Halves(15);
    assert Pow2(31) == 2 * Pow2(30);
    Pow2Halves(31);
  }

  lemma ScaleMonotone(a: int, p: int, q: int)
    requires 0 < a && p <= q
    ensures a * p <= a * q
  {
  }

  /** For every attempt count the delay lies between base and maximum. */
  lemma DelayInRange(c: Config, attempts: nat)
    requires ValidConfig(c)
    ensures c.base <= Delay(c, attempts) <= c.max
  {
    Pow2Monotone(0, Shift(attempts));
    ScaleMonotone(c.base, 1, Pow2(Shift(attempts)));
    hide Pow2;
  }

  /** More attempts never wait less. */
  lemma DelayMonotone(c: Config, m: nat, n: nat)
    requires ValidConfig(c) && m <= n
    ensures Delay(c, m) <= Delay(c, n)
  {
    Pow2Monotone(Shift(m), Shift(n));
    ScaleMonotone(c.base, Pow2(Shift(m)), Pow2(Shift(n)));
    hide Pow2;
  }

  lemma DelayDoubles(c: Config, attempts: nat)
    requires ValidConfig(c) && 0 < attempts && (c.max <= TwoTo62 || 2 <= c.base)
    ensures Delay(c, attempts) == Doubling(c, attempts)
  {
    if 62 < attempts - 1 {
      Pow2Of62();
      Pow2Monotone(62, attempts - 1);
      ScaleMonotone(c.base, Pow2(62), Pow2(attempts - 1));
      assert c.max <= c.base * TwoTo62;
    }
    hide Pow2;
  }

  /** A base of one under a maximum above two to the sixty-second stops doubling for good. */
  lemma DoublingStops(c: Config, attempts: nat)
    requires ValidConfig(c) && c.base == 1 && TwoTo62 < c.max && 64 <= attempts
    ensures Delay(c, attempts) == TwoTo62 < Doubling(c, attempts)
  {
    Pow2Of62();
    Pow2Monotone(63, attempts - 1);
    assert Pow2(63) == 2 * Pow2(62);
    hide Pow2;
  }

  /**
    Despite the shift cap and the checked multiplication, the delay is the base
    doubled once per attempt and cut off at the maximum, for all attempts, exactly
    when the maximum is at most two to the sixty-second or the base is at least two.
  */
  lemma DelayIsDoublingExactlyWhen(c: Config)
    requires ValidConfig(c)
    ensures (forall attempts: nat :: 0 < attempts ==> Delay(c, attempts) == Doubling(c, attempts))
       <==> c.max <= TwoTo62 || 2 <= c.base
  {
    if c.max <= TwoTo62 || 2 <= c.base {
      forall attempts: nat | 0 < attempts ensures Delay(c, attempts) == Doubling(c, attempts) {
        DelayDoubles(c, attempts);
      }
    } else {
      DoublingStops(c, 64);
    }
  }
}
