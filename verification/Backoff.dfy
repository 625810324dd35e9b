/** The retry schedule. Durations are nanoseconds in a signed 64-bit word. */
module Backoff {
  import opened Wrappers
  import opened Text

  const TWO_62 := 0x4000_0000_0000_0000
  const TWO_63 := 0x8000_0000_0000_0000
  const TWO_64 := 0x1_0000_0000_0000_0000

  const SECOND := 1_000_000_000
  const DEFAULT_RETRY_INITIAL := SECOND
  const DEFAULT_RETRY_MAX := 30 * SECOND

  /** Two's complement wrap-around of a duration. */
  function Wrap(x: int): int {
    (x + TWO_63) % TWO_64 - TWO_63
  }

  /** The value that follows `n` in the schedule. */
  function After(max: int, n: int): int {
    var doubled := Wrap(n * 2);
    if doubled > max then max else doubled
  }

  class Schedule {
    const initial: int
    const max: int
    var next: int

    constructor (initial: int, max: int)
      ensures this.initial == initial && this.max == max && next == initial
    {
      this.initial := initial;
      this.max := max;
      this.next := initial;
    }

    method Next() returns (current: int)
      modifies this
      ensures current == old(next) && next == After(max, old(next))
    {
      current := next;
      next := Wrap(next * 2);
      if next > max {
        next := max;
      }
    }

    method Reset()
      modifies this
      ensures next == initial
    {
      next := initial;
    }
  }

  /** The `k`-th wait of a schedule that is never reset. */
  function Wait(initial: int, max: int, k: nat): int {
    if k == 0 then initial else After(max, Wait(initial, max, k - 1))
  }

  function Pow2(k: nat): (r: int)
    ensures r >= 1
  {
    if k == 0 then 1 else 2 * Pow2(k - 1)
  }

  function Min(a: int, b: int): int {
    if a <= b then a else b
  }

  /** The schedule one has in mind: double every time, up to the maximum. */
  function CappedDoubling(initial: int, max: int, k: nat): int {
    Min(initial * Pow2(k), max)
  }

  lemma {:induction false} WaitIsCappedDoubling(initial: int, max: int, k: nat)
    requires 0 < initial <= max < TWO_62
    ensures Wait(initial, max, k) == CappedDoubling(initial, max, k)
    ensures initial <= Wait(initial, max, k) <= max
    ensures k > 0 ==> Wait(initial, max, k - 1) <= Wait(initial, max, k)
  {
    Grows(initial, k);
    if k > 0 {
      WaitIsCappedDoubling(initial, max, k - 1);
      Doubles(initial, k);
      AfterIsDoubled(max, Wait(initial, max, k - 1));
      MinDoubled(initial * Pow2(k - 1), max);
    }
  }

  lemma AfterIsDoubled(max: int, n: int)
    requires 0 < n <= max < TWO_63 && n < TWO_62
    ensures After(max, n) == Min(2 * n, max)
  {
    assert (n * 2 + TWO_63) % TWO_64 == n * 2 + TWO_63;
  }

  lemma MinDoubled(p: int, max: int)
    requires 0 < p && 0 < max
    ensures Min(2 * Min(p, max), max) == Min(2 * p, max)
  {
  }

  lemma Grows(initial: int, k: nat)
    requires 0 < initial
    ensures initial <= initial * Pow2(k) && Pow2(k) <= initial * Pow2(k)
  {
  }

  lemma Doubles(initial: int, k: nat)
    requires 0 < k
    ensures initial * Pow2(k) == 2 * (initial * Pow2(k - 1))
  {
  }

  /** Up to wait number `k` the schedule is capped doubling, or a wait number `j` was negative. */
  lemma {:induction false} ExactOrNegative(initial: int, max: int, k: nat) returns (j: nat)
    requires 0 < initial <= max < TWO_63
    ensures Wait(initial, max, k) == CappedDoubling(initial, max, k) || (j <= k && Wait(initial, max, j) < 0)
  {
    j := 0;
    if k > 0 {
      j := ExactOrNegative(initial, max, k - 1);
      var n := CappedDoubling(initial, max, k - 1);
      if Wait(initial, max, k - 1) == n {
        Grows(initial, k - 1);
        Doubles(initial, k);
        if n < TWO_62 {
          AfterIsDoubled(max, n);
          MinDoubled(initial * Pow2(k - 1), max);
        } else {
          WrapsBelowZero(n);
          j := k;
        }
      }
    }
  }

  /**
   The schedule is capped doubling for ever exactly when the maximum is below 2^62 nanoseconds. From
   2^62 on, and only then, the doubling overflows before it is capped and a wait becomes negative.
   */
  lemma ScheduleIsExact(initial: int, max: int)
    requires 0 < initial <= max < TWO_63
    ensures (forall k: nat :: Wait(initial, max, k) == CappedDoubling(initial, max, k)) <==> max < TWO_62
    ensures (exists k: nat :: Wait(initial, max, k) < 0) <==> max >= TWO_62
  {
    if max < TWO_62 {
      forall k: nat
        ensures Wait(initial, max, k) == CappedDoubling(initial, max, k) && Wait(initial, max, k) >= 0
      {
        WaitIsCappedDoubling(initial, max, k);
      }
    } else {
      var j := NegativeWait(initial, max);
      Grows(initial, j);
    }
  }

  lemma NegativeWait(initial: int, max: int) returns (j: nat)
    requires 0 < initial <= max < TWO_63 && max >= TWO_62
    ensures Wait(initial, max, j) < 0
  {
    Grows(initial, 62);
    PowersOfTwo();
    var n := CappedDoubling(initial, max, 62);
    assert TWO_62 <= n <= max;
    j := ExactOrNegative(initial, max, 62);
    if Wait(initial, max, 62) == n {
      WrapsBelowZero(n);
      j := 63;
    }
  }

  lemma WrapsBelowZero(n: int)
    requires TWO_62 <= n < TWO_63
    ensures Wrap(n * 2) < 0
  {
    assert (n * 2 + TWO_63) % TWO_64 == n * 2 - TWO_63;
  }

  lemma PowersOfTwo()
    ensures Pow2(62) == TWO_62 && Pow2(63) == TWO_63
  {
    assert Pow2(0) == 1 && Pow2(1) == 2;
    PowTimes(1, 1, 2, 2);
    PowTimes(2, 2, 4, 4);
    PowTimes(4, 4, 0x10, 0x10);
    PowTimes(8, 8, 0x100, 0x100);
    PowTimes(16, 16, 0x1_0000, 0x1_0000);
    PowTimes(16, 8, 0x1_0000, 0x100);
    PowTimes(24, 4, 0x100_0000, 0x10);
    PowTimes(28, 2, 0x1000_0000, 4);
    PowTimes(32, 30, 0x1_0000_0000, 0x4000_0000);
    PowTimes(62, 1, TWO_62, 2);
  }

  lemma PowTimes(a: nat, b: nat, x: nat, y: nat)
    requires Pow2(a) == x && Pow2(b) == y
    ensures Pow2(a + b) == x * y
  {
    PowAdd(a, b);
  }

  lemma {:induction false} PowAdd(a: nat, b: nat)
    ensures Pow2(a + b) == Pow2(a) * Pow2(b)
  {
    if b > 0 {
      PowAdd(a, b - 1);
    }
  }

  datatype RetryError = BadInitial | BadMax | InitialNotPositive | MaxBelowInitial

  datatype Durations = Durations(initial: int, max: int)

  /** `RetryDurations`; `parse` stands for `time.ParseDuration`. */
  function RetryDurations(initialText: string, maxText: string, parse: string -> Option<int>)
    : Result<Durations, RetryError>
  {
    var initial := if TrimSpace(initialText) != "" then parse(initialText) else Some(DEFAULT_RETRY_INITIAL);
    var max := if TrimSpace(maxText) != "" then parse(maxText) else Some(DEFAULT_RETRY_MAX);
    if initial.None? then Err(BadInitial)
    else if max.None? then Err(BadMax)
    else if initial.value <= 0 then Err(InitialNotPositive)
    else if max.value < initial.value then Err(MaxBelowInitial)
    else Ok(Durations(initial.value, max.value))
  }

  /** Accepted settings give waits that are positive, ordered and capped, if the maximum stays below 2^62. */
  lemma AcceptedDurationsSchedule(initialText: string, maxText: string, parse: string -> Option<int>, k: nat)
    requires RetryDurations(initialText, maxText, parse).Ok?
    ensures var d := RetryDurations(initialText, maxText, parse).value;
            && 0 < d.initial <= d.max
            && (d.max < TWO_62 ==> Wait(d.initial, d.max, k) == CappedDoubling(d.initial, d.max, k))
  {
    var d := RetryDurations(initialText, maxText, parse).value;
    if d.max < TWO_62 {
      WaitIsCappedDoubling(d.initial, d.max, k);
    }
  }

  /**
   Which settings are accepted, in nanoseconds: a blank initial wait is one second and a blank maximum thirty, the
   initial wait is positive, and the maximum is not below it.
   */
  lemma AcceptedDurationsIff(initialText: string, maxText: string, parse: string -> Option<int>)
    ensures var r := RetryDurations(initialText, maxText, parse);
            var initial, max := parse(initialText), parse(maxText);
            && (TrimSpace(initialText) == "" && TrimSpace(maxText) == "" ==>
                  r == Ok(Durations(1_000_000_000, 30_000_000_000)))
            && (TrimSpace(initialText) != "" && TrimSpace(maxText) == "" ==>
                  && (r.Ok? <==> initial.Some? && 0 < initial.value <= 30_000_000_000)
                  && (r.Ok? ==> r.value == Durations(initial.value, 30_000_000_000)))
            && (TrimSpace(initialText) == "" && TrimSpace(maxText) != "" ==>
                  && (r.Ok? <==> max.Some? && max.value >= 1_000_000_000)
                  && (r.Ok? ==> r.value == Durations(1_000_000_000, max.value)))
            && (TrimSpace(initialText) != "" && TrimSpace(maxText) != "" ==>
                  && (r.Ok? <==> initial.Some? && max.Some? && 0 < initial.value <= max.value)
                  && (r.Ok? ==> r.value == Durations(initial.value, max.value)))
  {
    hide TrimSpace;
  }
}
