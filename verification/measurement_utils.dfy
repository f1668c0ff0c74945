/**
 * The stateless helpers of frontend/utils/measurement-utils.ts: inch to
 * centimetre conversion, the size band of an upper-body width, and the fit
 * suggested by the gap between upper-body width and midsection.
 */
module MeasurementUtils {
  import JsNumber

  // ---------------------------------------------------------------- inchesToCm

  /**
   * `inchesToCm`: centimetres rounded to one decimal place (`Math.round` of
   * tenths, halves up). The result is the multiple of 0.1 nearest to
   * `2.54 * inches`, ties resolved upward.
   */
  function InchesToCm(inches: real): (cm: real)
    ensures JsNumber.IsIntegral(cm * 10.0)
    ensures inches * 2.54 - 0.05 < cm <= inches * 2.54 + 0.05
  {
    JsNumber.Round(inches * 2.54 * 10.0) as real / 10.0
  }

  lemma InchesToCmZero()
    ensures InchesToCm(0.0) == 0.0
  {
  }

  lemma InchesToCmTen()
    ensures InchesToCm(10.0) == 25.4
  {
    assert 10.0 * 2.54 * 10.0 == 254.0;
    JsNumber.RoundIntegral(254);
  }

  /** A value already an exact number of millimetres is converted without error. */
  lemma InchesToCmExact(inches: real)
    requires JsNumber.IsIntegral(inches * 25.4)
    ensures InchesToCm(inches) == inches * 2.54
  {
    var n := (inches * 25.4).Floor;
    assert inches * 2.54 * 10.0 == n as real;
    JsNumber.RoundIntegral(n);
  }

  lemma InchesToCmMonotone(x: real, y: real)
    requires x <= y
    ensures InchesToCm(x) <= InchesToCm(y)
  {
    JsNumber.RoundMonotone(x * 2.54 * 10.0, y * 2.54 * 10.0);
  }

  // ----------------------------------------------------------- getSizeCategory

  /** `getSizeCategory`: four bands split at 38, 42 and 46, each closed below. */
  function GetSizeCategory(upperBodyWidth: real): (size: string)
    ensures size in {"XS-S", "M", "L", "XL+"}
    ensures size == "XS-S" <==> upperBodyWidth < 38.0
    ensures size == "M" <==> 38.0 <= upperBodyWidth < 42.0
    ensures size == "L" <==> 42.0 <= upperBodyWidth < 46.0
    ensures size == "XL+" <==> 46.0 <= upperBodyWidth
  {
    if upperBodyWidth < 38.0 then "XS-S"
    else if upperBodyWidth < 42.0 then "M"
    else if upperBodyWidth < 46.0 then "L"
    else "XL+"
  }

  /** Position of a size label in the order XS-S < M < L < XL+. */
  function SizeRank(size: string): nat {
    if size == "XS-S" then 0
    else if size == "M" then 1
    else if size == "L" then 2
    else 3
  }

  /** A wider upper body never gets a smaller size. */
  lemma SizeCategoryMonotone(w1: real, w2: real)
    requires w1 <= w2
    ensures SizeRank(GetSizeCategory(w1)) <= SizeRank(GetSizeCategory(w2))
  {
  }

  /** The band edges: each threshold belongs to the band above it. */
  lemma SizeCategoryBoundaries()
    ensures GetSizeCategory(37.9) == "XS-S" && GetSizeCategory(38.0) == "M"
    ensures GetSizeCategory(41.9) == "M" && GetSizeCategory(42.0) == "L"
    ensures GetSizeCategory(45.9) == "L" && GetSizeCategory(46.0) == "XL+"
  {
  }

  // ------------------------------------------------------- getFitRecommendation

  /**
   * `getFitRecommendation`: classifies `upperBodyWidth - midsection` as more
   * than 10 (tapered), more than 6 (regular), or at most 6 (relaxed).
   */
  function GetFitRecommendation(upperBodyWidth: real, midsection: real): (fit: string)
    ensures fit in {"tapered fit", "regular fit", "relaxed fit"}
    ensures fit == "tapered fit" <==> upperBodyWidth - midsection > 10.0
    ensures fit == "regular fit" <==> 6.0 < upperBodyWidth - midsection <= 10.0
    ensures fit == "relaxed fit" <==> upperBodyWidth - midsection <= 6.0
  {
    var difference := upperBodyWidth - midsection;
    if difference > 10.0 then "tapered fit"
    else if difference > 6.0 then "regular fit"
    else "relaxed fit"
  }

  /** Only the difference matters: shifting both measurements by the same amount changes nothing. */
  lemma FitShiftInvariant(upperBodyWidth: real, midsection: real, shift: real)
    ensures GetFitRecommendation(upperBodyWidth + shift, midsection + shift)
         == GetFitRecommendation(upperBodyWidth, midsection)
  {
  }

  /** The thresholds themselves fall into the looser band. */
  lemma FitBoundaries()
    ensures GetFitRecommendation(48.0, 38.0) == "regular fit"
    ensures GetFitRecommendation(44.0, 38.0) == "relaxed fit"
    ensures GetFitRecommendation(50.0, 38.0) == "tapered fit"
    ensures GetFitRecommendation(45.0, 38.0) == "regular fit"
    ensures GetFitRecommendation(40.0, 38.0) == "relaxed fit"
  {
  }
}
