/** Bucket arithmetic, saturating exponential backoff with equal jitter, and the rejection sampler
    behind the jitter. */
module Backoff {
  import opened Wrappers
  import opened Arithmetic
  import opened Bytes

  const MAX: nat := U64 - 1

  // ---------- Buckets ----------

  /** The bucket a time falls in; no bucket of zero width. */
  /** The bucket a time falls in; none for a width of zero. */
  function BucketNumber(t: u64, width: u64): (r: Option<u64>)
    ensures r.Some? <==> width > 0
    ensures r.Some? ==> r.value * width <= t < (r.value + 1) * width
  {
    if width == 0 then None
    else
      assert t == (t / width) * width + t % width;
      assert t / width <= t;
      Some(t / width)
  }

  function CeilingBucket(t: u64, width: u64): (r: Option<nat>)
    ensures r.Some? ==> r.value < U64
  {
    if width == 0 then None
    else
      var q, rest := t / width, t % width;
      if rest == 0 then Some(q) else if q + 1 < U64 then Some(q + 1) else None
  }

  function CheckedMul(a: nat, b: nat): Option<nat> {
    if a * b < U64 then Some(a * b) else None
  }

  /** The bucket a delayed job becomes eligible in, and when that bucket starts. */
  function Eligibility(t: u64, width: u64): Option<(nat, nat)> {
    match CeilingBucket(t, width)
    case None => None
    case Some(b) =>
      match CheckedMul(b, width)
      case None => None
      case Some(ns) => Some((b, ns))
  }

  /** Eligibility is never early and less than one bucket late, and it is refused only for a zero
      width or when the rounded-up time does not fit. */
  lemma EligibilityRoundsUp(t: u64, width: u64)
    ensures Eligibility(t, width).Some? ==>
              var (b, ns) := Eligibility(t, width).value; ns == b * width && t <= ns < t + width
    ensures Eligibility(t, width).None? <==> width == 0 || RoundUp(t, width) >= U64
  {
    if width > 0 {
      var q, rest := t / width, t % width;
      assert t == q * width + rest;
      assert (q + 1) * width == q * width + width;
      TimesAtLeast(width, q + 1);
    }
  }

  /** The least multiple of the width at or after `t`. */
  function RoundUp(t: nat, width: nat): (r: nat)
    requires width > 0
    ensures t <= r < t + width && r % width == 0
  {
    var q, rest := t / width, t % width;
    assert t == q * width + rest;
    if rest == 0 then t
    else
      MultipleOf(q + 1, width);
      assert (q + 1) * width == q * width + width;
      (q + 1) * width
  }

  lemma MultipleOf(n: nat, width: nat)
    requires width > 0
    ensures (n * width) % width == 0
  {
    DivModUnique(n * width, width, n, 0);
  }

  lemma DivModUnique(x: nat, w: nat, q: nat, r: nat)
    requires w > 0 && x == q * w + r && r < w
    ensures x / w == q && x % w == r
  {
    var q', r' := x / w, x % w;
    assert x == q' * w + r';
    Apart(q, q', w);
    Apart(q', q, w);
  }

  /** The watermark can only raise a floor. */
  function EffectiveFloor(floor: u64, bucket: u64, width: u64): (r: Option<nat>)
    ensures r.Some? <==> width > 0 && bucket * width < U64
    ensures r.Some? ==> r.value >= floor && r.value >= bucket * width && (r.value == floor || r.value == bucket * width)
  {
    if width == 0 then None
    else
      match CheckedMul(bucket, width)
      case None => None
      case Some(ns) => Some(Max(floor, ns))
  }

  // ---------- Saturating doubling ----------

  function Pow2(n: nat): (p: nat)
    ensures p > 0
  {
    if n == 0 then 1 else 2 * Pow2(n - 1)
  }

  lemma {:induction false} Pow2Adds(m: nat, n: nat)
    ensures Pow2(m + n) == Pow2(m) * Pow2(n)
  {
    if m > 0 {
      Pow2Adds(m - 1, n);
      assert Pow2(m + n) == 2 * Pow2(m - 1 + n);
      assert 2 * (Pow2(m - 1) * Pow2(n)) == (2 * Pow2(m - 1)) * Pow2(n);
    }
  }

  lemma Pow2Of64()
    ensures Pow2(64) == U64
  {
    assert Pow2(4) == 16;
    Pow2Adds(4, 4);
    Pow2Adds(8, 8);
    Pow2Adds(16, 16);
    Pow2Adds(32, 32);
  }

  lemma {:induction false} Pow2Grows(m: nat, n: nat)
    requires m <= n
    ensures Pow2(m) <= Pow2(n)
  {
    if m < n {
      Pow2Grows(m, n - 1);
    }
  }

  /** Doubling by shifts, with the guards the shifts need. */
  function SaturatingDouble(base: u64, exp: u32): nat {
    if exp == 0 || base == 0 then base
    else if exp > 64 then MAX
    else
      var shift := exp - 1;
      if base > MAX / Pow2(shift) then MAX else base * Pow2(shift)
  }

  lemma QuotientBound(x: nat, n: nat, w: nat)
    requires w > 0
    ensures x > n / w <==> x * w > n
  {
    var q, r := n / w, n % w;
    assert n == q * w + r;
    Apart(q, x, w);
    if x <= q {
      TimesGrows(w, x, q);
    }
  }

  /** For every base and every attempt from one on: the exact power, capped at the word size. */
  lemma SaturatingDoubleIsCapped(base: u64, exp: u32)
    requires exp >= 1
    ensures SaturatingDouble(base, exp) == Min(MAX, base * Pow2(exp - 1))
  {
    hide Pow2;
    if base > 0 {
      var p := Pow2(exp - 1);
      if exp > 64 {
        Pow2Grows(64, exp - 1);
        Pow2Of64();
        TimesAtLeast(base, p);
      } else {
        QuotientBound(base, MAX, p);
      }
    }
  }

  // ---------- Delays ----------

  datatype Policy = Policy(base: u64, cap: u64, jitter: bool, maxDelay: Option<u64>)

  function EffectiveCap(p: Policy): nat {
    if p.maxDelay.Some? then Min(p.cap, p.maxDelay.value) else p.cap
  }

  predicate Valid(p: Policy) {
    p.base > 0 && EffectiveCap(p) >= p.base
  }

  function Ceiling(p: Policy, attempt: u32): nat {
    Min(EffectiveCap(p), SaturatingDouble(p.base, attempt))
  }

  /** Later attempts never wait for less. */
  lemma CeilingGrows(p: Policy, a: u32, b: u32)
    requires 1 <= a <= b
    ensures Ceiling(p, a) <= Ceiling(p, b)
  {
    hide Pow2, SaturatingDouble;
    SaturatingDoubleIsCapped(p.base, a);
    SaturatingDoubleIsCapped(p.base, b);
    Pow2Grows(a - 1, b - 1);
    TimesGrows(p.base, Pow2(a - 1), Pow2(b - 1));
  }

  function Lower(ceiling: nat): nat {
    (ceiling + 1) / 2
  }

  /** A policy is usable when its positive base is within both caps; the ceiling of an attempt is then
      the least of the caps and the base doubled per attempt, and half of it is rounded up. */
  lemma CeilingExactly(p: Policy, attempt: u32)
    requires attempt >= 1
    ensures Valid(p) <==> 0 < p.base <= p.cap && (p.maxDelay.Some? ==> p.base <= p.maxDelay.value)
    ensures var c, doubled := Ceiling(p, attempt), p.base * Pow2(attempt - 1);
            && c <= p.cap && (p.maxDelay.Some? ==> c <= p.maxDelay.value) && c <= doubled
            && (c == p.cap || c == doubled || p.maxDelay == Some(c)) && c <= 2 * Lower(c) <= c + 1
  {
    hide Pow2, SaturatingDouble;
    SaturatingDoubleIsCapped(p.base, attempt);
  }

  // ---------- Rejection sampling ----------

  const ROUNDS: nat := 64

  /** Samples below this are biased. */
  function Threshold(span: nat): nat
    requires 0 < span <= U64
  {
    (U64 - span) % span
  }

  /** The offset for a run of samples: the first unbiased one, or the midpoint after 64 misses. */
  function Offset(span: nat, draws: seq<u64>): (r: nat)
    requires 0 < span <= U64
    ensures r < span
  {
    if draws == [] then span / 2
    else if draws[0] >= Threshold(span) then draws[0] % span
    else Offset(span, draws[1..])
  }

  /** The sampling loop over the samples for counters 0 to 63. */
  method SampleOffset(span: nat, draws: seq<u64>) returns (r: nat)
    requires 0 < span <= U64 && |draws| == ROUNDS
    ensures r == Offset(span, draws) && r < span
  {
    var threshold := (U64 - span) % span;
    var counter := 0;
    assert draws[0..] == draws;
    while true
      invariant counter < ROUNDS && Offset(span, draws) == Offset(span, draws[counter..])
      decreases ROUNDS - counter
    {
      var x := draws[counter];
      if x >= threshold {
        return x % span;
      }
      assert draws[counter..][1..] == draws[counter + 1..];
      counter := counter + 1;
      if counter >= ROUNDS {
        return span / 2;
      }
    }
  }

  /** The retry delay: nothing before the first attempt, the ceiling without jitter, and with
      jitter a delay between half the ceiling, rounded up, and the ceiling. */
  method RetryDelay(p: Policy, attempt: u32, draws: seq<u64>) returns (r: Option<nat>)
    requires |draws| == ROUNDS
    ensures r.Some? <==> Valid(p)
    ensures r.Some? && attempt == 0 ==> r.value == 0
    ensures r.Some? && attempt > 0 && !p.jitter ==> r.value == Ceiling(p, attempt)
    ensures r.Some? && attempt > 0 && p.jitter ==>
              && Lower(Ceiling(p, attempt)) <= r.value <= Ceiling(p, attempt)
              && r.value
                == Lower(Ceiling(p, attempt)) + Offset(Ceiling(p, attempt) - Lower(Ceiling(p, attempt)) + 1, draws)
  {
    if !Valid(p) {
      return None;
    }
    if attempt == 0 {
      return Some(0);
    }
    var ceiling := Ceiling(p, attempt);
    if !p.jitter {
      return Some(ceiling);
    }
    var lower := Lower(ceiling);
    var span := ceiling - lower + 1;
    var offset := SampleOffset(span, draws);
    r := Some(lower + offset);
  }

  // ---------- The sampler is fair ----------

  lemma AcceptedIsMultiple(span: nat) returns (n: nat)
    requires 0 < span <= U64
    ensures Threshold(span) < span && U64 - Threshold(span) == n * span && n > 0
  {
    var q, t := (U64 - span) / span, (U64 - span) % span;
    assert U64 - span == q * span + t;
    n := q + 1;
    assert n * span == q * span + span;
  }

  /** The accepted samples with a given offset. */
  ghost function Preimage(from: nat, to: nat, span: nat, offset: nat): set<nat>
    requires span > 0
  {
    set x: nat | from <= x < to && x % span == offset
  }

  lemma FindResidue(from: nat, span: nat, offset: nat) returns (x: nat)
    requires offset < span
    ensures from <= x < from + span && x % span == offset
  {
    var q, r := from / span, from % span;
    assert from == q * span + r;
    if offset >= r {
      x := from + (offset - r);
      DivModUnique(x, span, q, offset);
    } else {
      x := from + span - (r - offset);
      assert (q + 1) * span == q * span + span;
      DivModUnique(x, span, q + 1, offset);
    }
  }

  /** Any `span` consecutive samples contain exactly one with each offset. */
  lemma OneInEachBlock(from: nat, span: nat, offset: nat) returns (x: nat)
    requires offset < span
    ensures Preimage(from, from + span, span, offset) == {x}
  {
    x := FindResidue(from, span, offset);
    var s := Preimage(from, from + span, span, offset);
    forall y | y in s ensures y == x {
      SameResidue(x, y, span);
    }
    assert x in s;
  }

  lemma SameResidue(x: nat, y: nat, span: nat)
    requires span > 0 && x % span == y % span && x < y + span && y < x + span
    ensures x == y
  {
    var p, q, r := x / span, y / span, x % span;
    assert x == p * span + r && y == q * span + r;
    Apart(p, q, span);
    Apart(q, p, span);
  }

  lemma {:induction false} PreimageSize(from: nat, n: nat, span: nat, offset: nat)
    requires offset < span
    ensures |Preimage(from, from + n * span, span, offset)| == n
    decreases n
  {
    if n == 0 {
      assert Preimage(from, from, span, offset) == {};
    } else {
      var middle := from + (n - 1) * span;
      assert n * span == (n - 1) * span + span;
      PreimageSize(from, n - 1, span, offset);
      var x := OneInEachBlock(middle, span, offset);
      var first, last := Preimage(from, middle, span, offset), Preimage(middle, middle + span, span, offset);
      assert Preimage(from, from + n * span, span, offset) == first + last;
      assert x in last;
      assert x !in first;
    }
  }

  /** The accepted samples split evenly: every offset has equally many of them. */
  lemma JitterIsFair(span: nat, a: nat, b: nat)
    requires 0 < span <= U64 && a < span && b < span
    ensures (U64 - Threshold(span)) % span == 0
    ensures |Preimage(Threshold(span), U64, span, a)| == |Preimage(Threshold(span), U64, span, b)| > 0
  {
    var n := AcceptedIsMultiple(span);
    MultipleOf(n, span);
    PreimageSize(Threshold(span), n, span, a);
    PreimageSize(Threshold(span), n, span, b);
  }
}
