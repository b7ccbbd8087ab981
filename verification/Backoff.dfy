/** The retry delays, over the reals. */
module Backoff {

  const BASE: real := 1.0
  const CAP: real := 14400.0

  function Pow2(n: nat): nat {
    if n == 0 then 1 else 2 * Pow2(n - 1)
  }

  /** `min(cap, base * 2^n) + jitter`, where the jitter is a uniform draw from
      [0, base]. */
  function Delay(attempt: nat, jitter: real): real {
    var exponential := BASE * Pow2(attempt) as real;
    (if CAP < exponential then CAP else exponential) + jitter
  }

  predicate Draw(jitter: real) {
    0.0 <= jitter <= BASE
  }

  lemma {:induction false} Pow2Grows(n: nat, m: nat)
    requires n <= m
    ensures Pow2(n) <= Pow2(m)
  {
    if n < m {
      Pow2Grows(n, m - 1);
    }
  }

  lemma {:induction false} Pow2Of13()
    ensures Pow2(13) == 8192 && Pow2(14) == 16384
  {
    assert Pow2(5) == 32;
    assert Pow2(9) == 512;
    assert Pow2(13) == 8192;
  }

  /** The cap bites from attempt 14 on, and not before. */
  lemma {:induction false} CapFrom14(n: nat)
    ensures Delay(n, 0.0) == (if n <= 13 then Pow2(n) as real else 14400.0)
  {
    Pow2Of13();
    if n <= 13 {
      Pow2Grows(n, 13);
    } else {
      Pow2Grows(14, n);
    }
  }

  /** Delays of attempts 1, .., k with the given draws. */
  function Total(k: nat, jitters: nat -> real): real {
    if k == 0 then 0.0 else Total(k - 1, jitters) + Delay(k, jitters(k))
  }

  function JitterSum(k: nat, jitters: nat -> real): real {
    if k == 0 then 0.0 else JitterSum(k - 1, jitters) + jitters(k)
  }

  /** The delays without their jitter, in closed form. */
  function Nominal(k: nat): real {
    if k <= 13 then (Pow2(k + 1) - 2) as real else 16382.0 + 14400.0 * (k - 13) as real
  }

  lemma {:induction false} TotalIsNominalPlusJitter(k: nat, jitters: nat -> real)
    ensures Total(k, jitters) == Nominal(k) + JitterSum(k, jitters)
  {
    if k > 0 {
      TotalIsNominalPlusJitter(k - 1, jitters);
      CapFrom14(k);
      Pow2Of13();
      assert Delay(k, jitters(k)) == Delay(k, 0.0) + jitters(k);
    }
  }

  lemma {:induction false} JitterSumBounds(k: nat, jitters: nat -> real)
    requires forall i: nat :: Draw(jitters(i))
    ensures 0.0 <= JitterSum(k, jitters) <= k as real
  {
    if k > 0 {
      JitterSumBounds(k - 1, jitters);
      assert Draw(jitters(k));
    }
  }

  /** The whole retry window of attempts 1, .., k: closed form plus at most a second
      of jitter per attempt. */
  lemma {:induction false} WindowBounds(k: nat, jitters: nat -> real)
    requires forall i: nat :: Draw(jitters(i))
    ensures Nominal(k) <= Total(k, jitters) <= Nominal(k) + k as real
  {
    TotalIsNominalPlusJitter(k, jitters);
    JitterSumBounds(k, jitters);
  }

  /** With 15 attempts there are 14 delays: between 8.55 and 8.56 hours, whatever is
      drawn. */
  lemma {:induction false} DefaultWindow(jitters: nat -> real)
    requires forall i: nat :: Draw(jitters(i))
    ensures 8.55 * 3600.0 <= Total(14, jitters) <= 8.56 * 3600.0
  {
    WindowBounds(14, jitters);
  }

  /** Below the cap no draw reorders consecutive attempts; at the cap two draws
      differ by less than the base either way. */
  lemma {:induction false} DelaysDoNotShrink(n: nat, j: real, j': real)
    requires Draw(j) && Draw(j')
    ensures n < 14 ==> Delay(n, j) <= Delay(n + 1, j')
    ensures n >= 14 ==> Delay(n, j) - 1.0 <= Delay(n + 1, j')
    ensures Delay(n, j) > 0.0 && Delay(n, j) <= 14401.0
  {
    CapFrom14(n);
    CapFrom14(n + 1);
    Pow2Of13();
    Pow2Grows(0, n);
    if n <= 13 {
      Pow2Grows(n, 13);
    }
  }
}
