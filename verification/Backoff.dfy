/** Retry delays (kojin-core/src/backoff.rs:16-38) in 64-bit saturating arithmetic, against the
    exact power. */
module Backoff {
  import opened Messages
  import opened Powers

  const U64_MAX: nat := 0xFFFF_FFFF_FFFF_FFFF

  type U64 = n: nat | n <= U64_MAX

  datatype BackoffStrategy = Fixed(delaySecs: U64) | Exponential(baseSecs: U64, maxSecs: U64)

  /** `1u64.checked_shl(n)`: refused only when the shift is the word size or more. */
  function CheckedShl(n: nat): (r: Option<U64>)
    requires n < U32
  {
    if n >= 64 then None else ShlFits(n); Some(Pow2(n))
  }

  lemma ShlFits(n: nat)
    ensures n < 64 ==> Pow2(n) <= U64_MAX
    ensures n >= 64 ==> Pow2(n) > U64_MAX
  {
    Pow2Of64();
    if n < 64 { Pow2Grows(n, 63); } else { Pow2Grows(64, n); }
  }

  function SaturatingMul(a: U64, b: U64): U64 {
    if a * b > U64_MAX then U64_MAX else a * b
  }

  function Min(a: nat, b: nat): nat {
    if a <= b then a else b
  }

  function DelayFor(s: BackoffStrategy, retry: nat): U64
    requires retry < U32
  {
    match s
    case Fixed(delay) => delay
    case Exponential(base, max) =>
      var shifted := CheckedShl(retry);
      var exp := if shifted.Some? then shifted.value else U64_MAX;
      Min(SaturatingMul(base, exp), max)
  }

  const DEFAULT := Exponential(1, 300)

  lemma TimesAtLeast(a: nat, p: nat, bound: nat)
    requires a > 0 && p >= bound
    ensures a * p >= bound
  {
  }

  /** Neither saturation nor the refused shift shows: for every retry the delay is the exact
      exponential, capped. */
  lemma DelayIsExact(base: U64, max: U64, retry: nat)
    requires retry < U32
    ensures DelayFor(Exponential(base, max), retry) == Min(base * Pow2(retry), max)
  {
    ShlFits(retry);
    if retry >= 64 && base > 0 {
      TimesAtLeast(base, Pow2(retry), U64_MAX + 1);
      TimesAtLeast(base, U64_MAX, U64_MAX);
    }
  }

  lemma DelaysGrow(s: BackoffStrategy, retry: nat, later: nat)
    requires retry <= later < U32
    ensures DelayFor(s, retry) <= DelayFor(s, later)
    ensures s.Exponential? ==> DelayFor(s, later) <= s.maxSecs
    ensures s.Fixed? ==> DelayFor(s, retry) == s.delaySecs
  {
    if s.Exponential? {
      DelayIsExact(s.baseSecs, s.maxSecs, retry);
      DelayIsExact(s.baseSecs, s.maxSecs, later);
      Pow2Grows(retry, later);
      TimesGrow(s.baseSecs, Pow2(retry), Pow2(later));
    }
  }

  lemma TimesGrow(a: nat, p: nat, q: nat)
    requires p <= q
    ensures a * p <= a * q
  {
  }

  /** What the first `retries` retries of a message sleep in all, the `k`-th 2^(k - 1) seconds and
      five minutes at most. */
  function Slept(retries: nat): nat {
    if retries == 0 then 0 else Slept(retries - 1) + Min(Pow2(retries - 1), 300)
  }

  /** Doubling up to nine retries, five minutes each after that. */
  lemma {:induction false} SleptInAll(retries: nat)
    ensures Slept(retries) == if retries <= 9 then Pow2(retries) - 1 else 511 + 300 * (retries - 9)
  {
    if retries > 0 {
      SleptInAll(retries - 1);
      assert Pow2(8) == 256 && Pow2(9) == 512;
      if retries <= 9 { Pow2Grows(retries - 1, 8); } else { Pow2Grows(9, retries - 1); }
    }
  }
}
