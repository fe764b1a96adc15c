/** The workers' exponential back-off on 64-bit nanoseconds: base << (attempts - 1), capped. */
module Backoff {

  const TWO63: int := 0x8000_0000_0000_0000
  const TWO64: int := 0x1_0000_0000_0000_0000

  const SECOND: int := 1_000_000_000
  const CHECK_BASE: int := 10 * SECOND
  const CHECK_CAP: int := 300 * SECOND
  const REFUND_BASE: int := 2 * SECOND
  const REFUND_CAP: int := 60 * SECOND

  function Pow2(n: nat): (r: int)
    ensures r >= 1
  {
    if n == 0 then 1 else 2 * Pow2(n - 1)
  }

  /** The value of a signed 64-bit word. */
  function Wrap(v: int): int {
    (v + TWO63) % TWO64 - TWO63
  }

  /** Go's << on int64: bits fall off the top, and a count of 64 or more leaves nothing. */
  function ShiftLeft(x: int, n: nat): int {
    if n >= 64 then 0 else Wrap(x * Pow2(n))
  }

  /** ReconcileWorker.backoff and the same lines in RefundWorker.markFailed. */
  function Delay(base: int, cap: int, attempts: nat): int
    requires attempts >= 1
  {
    var d := ShiftLeft(base, attempts - 1);
    if d <= 0 || d > cap then cap else d
  }

  function Min(a: int, b: int): int {
    if a <= b then a else b
  }

  lemma {:induction false} Pow2Add(a: nat, b: nat)
    ensures Pow2(a + b) == Pow2(a) * Pow2(b)
  {
    if b > 0 {
      Pow2Add(a, b - 1);
      assert Pow2(a + b) == 2 * Pow2(a + (b - 1));
    }
  }

  lemma {:induction false} Pow2Monotone(a: nat, b: nat)
    requires a <= b
    ensures Pow2(a) <= Pow2(b)
  {
    if a < b { Pow2Monotone(a, b - 1); }
  }

  lemma Pow2Values()
    ensures Pow2(10) == 1024 && Pow2(30) == 0x4000_0000 && Pow2(29) == 0x2000_0000
    ensures Pow2(32) == 0x1_0000_0000 && Pow2(33) == 0x2_0000_0000
    ensures Pow2(40) == 0x100_0000_0000 && Pow2(43) == 0x800_0000_0000
    ensures Pow2(62) == TWO63 / 2 && Pow2(63) == TWO63 && Pow2(64) == TWO64
  {
    assert Pow2(5) == 32;
    Pow2Add(5, 5);
    Pow2Add(10, 10);
    Pow2Add(20, 10);
    assert 2 * Pow2(29) == Pow2(30);
    Pow2Add(30, 2);
    Pow2Add(32, 1);
    Pow2Add(30, 10);
    Pow2Add(40, 3);
    Pow2Add(32, 30);
    Pow2Add(32, 32);
    assert 2 * Pow2(63) == Pow2(64) && 2 * Pow2(62) == Pow2(63);
  }

  /** Wrapping keeps a number's divisibility by any power of two up to 2^64. */
  lemma WrapKeepsPowerOfTwo(q: int, e: nat)
    requires e <= 64
    ensures exists r :: Wrap(q * Pow2(e)) == r * Pow2(e)
  {
    Pow2Values();
    Pow2Add(e, 64 - e);
    var v, m, rest := q * Pow2(e), Pow2(e), Pow2(64 - e);
    var k := (v + TWO63) / TWO64;
    assert Wrap(v) == v - k * TWO64;
    assert k * TWO64 == (k * rest) * m by { MulSwap(k, m, rest); }
    assert Wrap(v) == (q - k * rest) * m by { Distribute(q, k * rest, m); }
  }

  lemma MulSwap(k: int, m: int, rest: int)
    ensures k * (m * rest) == (k * rest) * m
  {
  }

  lemma Distribute(a: int, b: int, m: int)
    ensures a * m - b * m == (a - b) * m
  {
  }

  lemma PositiveMultiple(r: int, m: int)
    requires m >= 1 && r * m > 0
    ensures r * m >= m
  {
  }

  /** With base = odd * 2^twos, the delay is the true minimum for every attempt as long as nothing
      overflows before the 2^(twos + shift) bit and the cap lies below that bit. */
  lemma DelayIsCappedDoubling(odd: int, twos: nat, cap: int, shift: nat, attempts: nat)
    requires attempts >= 1 && odd >= 1 && 1 <= cap < Pow2(twos + shift) && cap < TWO63
    requires shift >= 1 ==> odd * Pow2(twos) * Pow2(shift - 1) < TWO63
    ensures var base := odd * Pow2(twos);
      Delay(base, cap, attempts) == Min(base * Pow2(attempts - 1), cap)
  {
    var base, n := odd * Pow2(twos), attempts - 1;
    PositiveProduct(odd, Pow2(twos));
    AtLeastFactor(base, Pow2(n));
    if n >= 64 {
      Pow2Values();
      Pow2Monotone(64, n);
    } else if base * Pow2(n) >= TWO63 {
      if n < shift { SmallShift(base, n, shift); }
      BitsAbove(odd, twos, n, cap, shift);
    }
    DelayIsTrueIff(base, cap, attempts);
  }

  /** With any options, attempt by attempt: the delay is the true minimum if and only if the doubled value still fits
      the word, or all its bits are gone, or what is left of it is no positive number below the cap. */
  lemma {:induction false} DelayIsTrueIff(base: int, cap: int, attempts: nat)
    requires attempts >= 1 && base >= 1 && 1 <= cap < TWO63
    ensures var v := base * Pow2(attempts - 1);
      Delay(base, cap, attempts) == Min(v, cap)
      <==> attempts - 1 >= 64 || v < TWO63 || Wrap(v) <= 0 || Wrap(v) >= cap
  {
    var n := attempts - 1;
    var v := base * Pow2(n);
    AtLeastFactor(base, Pow2(n));
    if n >= 64 {
      Pow2Values();
      Pow2Monotone(64, n);
    } else if v < TWO63 {
      WrapFits(v);
    }
  }

  lemma WrapFits(v: int)
    requires 0 <= v < TWO63
    ensures Wrap(v) == v
  {
  }

  /** Before the given shift nothing reaches the sign bit. */
  lemma SmallShift(base: int, n: nat, shift: nat)
    requires base >= 1 && n < shift && base * Pow2(shift - 1) < TWO63
    ensures base * Pow2(n) < TWO63
  {
    Pow2Monotone(n, shift - 1);
    MulMonotone(base, Pow2(n), Pow2(shift - 1));
  }

  lemma PositiveProduct(a: int, b: int)
    requires a >= 1 && b >= 1
    ensures a * b >= 1
  {
  }

  lemma AtLeastFactor(a: int, b: int)
    requires a >= 1 && b >= 1
    ensures a * b >= b
  {
  }

  lemma MulMonotone(a: int, b: int, d: int)
    requires a >= 0 && b <= d
    ensures a * b <= a * d
  {
  }

  lemma BitsAbove(odd: int, twos: nat, n: nat, cap: int, shift: nat)
    requires odd >= 1 && shift <= n < 64 && cap < Pow2(twos + shift)
    ensures var w := Wrap(odd * Pow2(twos) * Pow2(n)); w <= 0 || w > cap
  {
    Pow2Add(twos, n);
    assert odd * Pow2(twos) * Pow2(n) == odd * Pow2(twos + n) by { Associate(odd, Pow2(twos), Pow2(n)); }
    Pow2Monotone(twos + shift, twos + n);
    if twos + n <= 64 {
      WrapKeepsPowerOfTwo(odd, twos + n);
      var r :| Wrap(odd * Pow2(twos + n)) == r * Pow2(twos + n);
      if r * Pow2(twos + n) > 0 { PositiveMultiple(r, Pow2(twos + n)); }
    } else {
      Pow2Values();
      Pow2Add(twos + n - 64, 64);
      var q := odd * Pow2(twos + n - 64);
      assert odd * Pow2(twos + n) == q * Pow2(64) by { Associate(odd, Pow2(twos + n - 64), Pow2(64)); }
      WrapOfMultiple(q);
    }
  }

  lemma Associate(a: int, b: int, d: int)
    ensures a * b * d == a * (b * d)
  {
  }

  lemma WrapOfMultiple(q: int)
    ensures Wrap(q * TWO64) == 0
  {
    assert (q * TWO64 + TWO63) % TWO64 == TWO63;
  }

  /** The stuck-payment worker as shipped: 10s doubling up to 5min, for every number of attempts. */
  lemma CheckDelay(attempts: nat)
    requires attempts >= 1
    ensures Delay(CHECK_BASE, CHECK_CAP, attempts) == Min(CHECK_BASE * Pow2(attempts - 1), CHECK_CAP)
  {
    Pow2Values();
    assert 9765625 * Pow2(10) == CHECK_BASE;
    DelayIsCappedDoubling(9765625, 10, CHECK_CAP, 30, attempts);
  }

  /** The refund worker as shipped: 2s doubling up to 1min. */
  lemma RefundDelay(attempts: nat)
    requires attempts >= 1
    ensures Delay(REFUND_BASE, REFUND_CAP, attempts) == Min(REFUND_BASE * Pow2(attempts - 1), REFUND_CAP)
  {
    Pow2Values();
    assert 1953125 * Pow2(10) == REFUND_BASE;
    DelayIsCappedDoubling(1953125, 10, REFUND_CAP, 33, attempts);
  }

  /** The constants matter: with other options a wrapped value can pass for a real delay. */
  lemma {:induction false} WrappedDelayCanBeShort()
    ensures Delay(5, TWO63 - 1, 63) == TWO63 / 2 < Min(5 * Pow2(62), TWO63 - 1)
  {
    Pow2Values();
    assert Wrap(5 * Pow2(62)) == TWO63 / 2;
  }

  // ----- the relay's pause

  const RELAY_INTERVAL: int := SECOND / 2
  const RELAY_CAP: int := 30 * SECOND

  /** nextBackoff in outbox_relay.go. */
  function NextBackoff(cur: int, base: int, cap: int): int {
    var next := if cur * 2 < base then base else cur * 2;
    if next > cap then cap else next
  }

  /** What one turn of OutboxRelay.Run ends with: an error, a full batch, or anything else. */
  datatype Turn = Errored | FullBatch | Idle

  /** The pause before the turn after these. */
  function Pause(turns: seq<Turn>): int {
    if turns == [] then RELAY_INTERVAL
    else
      match turns[|turns| - 1]
      case Errored => NextBackoff(Pause(turns[..|turns| - 1]), RELAY_INTERVAL, RELAY_CAP)
      case FullBatch => 0
      case Idle => RELAY_INTERVAL
  }

  /** Whether the errors after `before` start from no pause at all. */
  predicate AfterFullBatch(turns: seq<Turn>, n: nat)
    requires n <= |turns|
  {
    |turns| > n && turns[|turns| - n - 1].FullBatch?
  }

  lemma FirstError(turns: seq<Turn>)
    requires turns != [] && turns[|turns| - 1].Errored? && (|turns| == 1 || !turns[|turns| - 2].Errored?)
    ensures Pause(turns) == if AfterFullBatch(turns, 1) then RELAY_INTERVAL else 2 * RELAY_INTERVAL
  {
    var init := turns[..|turns| - 1];
    if init != [] { assert init[|init| - 1] == turns[|turns| - 2]; }
  }

  lemma NextError(cur: int, n: nat)
    requires cur == Min(RELAY_INTERVAL * Pow2(n), RELAY_CAP)
    ensures NextBackoff(cur, RELAY_INTERVAL, RELAY_CAP) == Min(RELAY_INTERVAL * Pow2(n + 1), RELAY_CAP)
  {
    var k := Pow2(n);
    assert Pow2(n + 1) == 2 * k && k >= 1;
  }

  lemma {:induction false} PauseAfterErrors(turns: seq<Turn>, n: nat)
    requires n <= |turns| && n >= 1 && forall i | |turns| - n <= i < |turns| :: turns[i].Errored?
    requires |turns| == n || !turns[|turns| - n - 1].Errored?
    ensures Pause(turns) == Min(RELAY_INTERVAL * Pow2(if AfterFullBatch(turns, n) then n - 1 else n), RELAY_CAP)
  {
    if n == 1 {
      FirstError(turns);
      assert Pow2(0) == 1 && Pow2(1) == 2;
    } else {
      var init := turns[..|turns| - 1];
      assert |init| > n - 1 ==> init[|init| - (n - 1) - 1] == turns[|turns| - n - 1];
      PauseAfterErrors(init, n - 1);
      NextError(Pause(init), if AfterFullBatch(init, n - 1) then n - 2 else n - 1);
    }
  }

  /** The n-th error in a row waits the interval doubled n times, at most the cap; the doubling starts
      one later after a full batch, which did not pause. */
  lemma RelayBacksOff(turns: seq<Turn>, n: nat)
    requires n >= 1 && |turns| >= n && forall i | |turns| - n <= i < |turns| :: turns[i].Errored?
    requires |turns| == n || !turns[|turns| - n - 1].Errored?
    ensures RELAY_INTERVAL <= Pause(turns) <= RELAY_CAP
    ensures |turns| == n || turns[|turns| - n - 1].Idle? ==> Pause(turns) == Min(RELAY_INTERVAL * Pow2(n), RELAY_CAP)
    ensures |turns| > n && turns[|turns| - n - 1].FullBatch? ==>
              Pause(turns) == Min(RELAY_INTERVAL * Pow2(n - 1), RELAY_CAP)
  {
    PauseAfterErrors(turns, n);
  }
}
