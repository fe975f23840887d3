/** The golden-ratio constant of the page and the powers of it that the
    spiral recurrences shrink by. PHI is the page's truncated literal, not the
    irrational number: PHI * PHI == PHI + 1.0 does NOT hold for it, so only
    facts that follow from the literal itself are proved here. */
module Golden {

  /** The page's constant, exactly as written in the source. */
  const PHI: real := 1.618033988749

  /** Math.min on two numbers. */
  function Min(a: real, b: real): (m: real)
    ensures m <= a && m <= b
    ensures m == a || m == b
  {
    if a <= b then a else b
  }

  /** b raised to the n-th power. */
  function Pow(b: real, n: nat): (r: real)
    ensures b > 0.0 ==> r > 0.0
    ensures b >= 1.0 ==> r >= 1.0
  {
    if n == 0 then 1.0 else b * Pow(b, n - 1)
  }

  /** The side left after dividing s0 by PHI n times: s0 / PHI^n. */
  function Shrink(s0: real, n: nat): (s: real)
    ensures s0 > 0.0 ==> 0.0 < s <= s0
  {
    s0 / Pow(PHI, n)
  }

  /** One more division by PHI is one more step of the closed form. */
  lemma ShrinkStep(s0: real, n: nat)
    ensures Shrink(s0, n + 1) == Shrink(s0, n) / PHI
    ensures Shrink(s0, n + 1) * PHI == Shrink(s0, n)
  {
  }

  /** The shrinking is strict: every step leaves a strictly smaller side. */
  lemma ShrinkDecreasing(s0: real, n: nat)
    requires s0 > 0.0
    ensures 0.0 < Shrink(s0, n + 1) < Shrink(s0, n)
  {
  }
}
