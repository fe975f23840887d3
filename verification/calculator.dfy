/** The ratio calculator: the two golden companions of a number. */
module Calculator {
  import opened Golden

  /** What parseFloat gives back: not-a-number, or a finite number. */
  datatype Parsed = NaN | Number(value: real)

  /** The calculator's displayed pair. */
  datatype Ratio = Ratio(smaller: real, larger: real)

  /** calculateGoldenRatio on an already parsed input: a missing or
      non-positive number gives the zero pair, any positive number gives the
      value divided by and multiplied by PHI. */
  function CalculateGoldenRatio(input: Parsed): (r: Ratio)
    // degenerate input and only degenerate input gives the zero pair
    ensures (input.NaN? || input.value <= 0.0) <==> r == Ratio(0.0, 0.0)
    // multiplying back / dividing back by PHI recovers the input
    ensures input.Number? && input.value > 0.0 ==>
      r.smaller * PHI == input.value && r.larger / PHI == input.value
    ensures input.Number? && input.value > 0.0 ==>
      0.0 < r.smaller < input.value < r.larger
    ensures input.Number? && input.value > 0.0 ==> r.larger / r.smaller == PHI * PHI
    ensures r.larger == r.smaller * PHI * PHI
  {
    match input
    case NaN => Ratio(0.0, 0.0)
    case Number(num) =>
      if num <= 0.0 then Ratio(0.0, 0.0)
      else Ratio(num / PHI, num * PHI)
  }

  /** The page's default input "100" and the degenerate inputs "0" and "abc". */
  lemma Examples()
    ensures CalculateGoldenRatio(Number(100.0)).larger == 161.8033988749
    ensures 61.803 < CalculateGoldenRatio(Number(100.0)).smaller < 61.804
    ensures CalculateGoldenRatio(Number(0.0)) == Ratio(0.0, 0.0)
    ensures CalculateGoldenRatio(NaN) == Ratio(0.0, 0.0)
  {
  }
}
