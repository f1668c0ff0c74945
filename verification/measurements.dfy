/**
 * The `Measurement` record of frontend/app/page.tsx and the synthesizer that
 * fabricates a measurement set: seven named entries whose values are random
 * draws in fixed per-name intervals, rounded to whole inches.
 *
 * `Math.random()` is not modelled as a source of randomness: each call is
 * replaced by an explicit draw in [0, 1) supplied by the caller.
 */
module Measurements {
  import JsNumber

  /** One named body measurement. */
  datatype Measurement = Measurement(name: string, value: real, unit: string, description: string)

  /** A result of `Math.random()`. */
  type Draw = r: real | 0.0 <= r < 1.0 witness 0.0

  /** `Math.pow(10, precision)` for the non-negative precisions the application uses. */
  function Pow10(precision: nat): (m: nat)
    ensures m >= 1
  {
    if precision == 0 then 1 else 10 * Pow10(precision - 1)
  }

  /** Multiplying by a draw shrinks a non-negative width. */
  lemma ScaleBelowWidth(r: Draw, width: real)
    requires 0.0 <= width
    ensures 0.0 <= r * width <= width
  {
  }

  /** `Math.random() * width`: a point of [0, width] when the width is non-negative. */
  function Scale(r: Draw, width: real): (s: real)
    ensures 0.0 <= width ==> 0.0 <= s <= width
  {
    if 0.0 <= width then ScaleBelowWidth(r, width); r * width else r * width
  }

  /**
   * `v` is `x` rounded to a whole number of `1 / m` steps: measured in those
   * steps, `v` is a whole number within half a step of `x`, halves going up.
   */
  predicate RoundedToSteps(x: real, m: real, v: real) {
    x * m - 0.5 < v * m <= x * m + 0.5 && JsNumber.IsIntegral(v * m)
  }

  /** `Math.round(x * m) / m`. */
  function RoundToSteps(x: real, m: real): (v: real)
    requires m >= 1.0
    ensures RoundedToSteps(x, m, v)
  {
    var n := JsNumber.Round(x * m);
    assert (n as real / m) * m == n as real;
    n as real / m
  }

  /**
   * `getRandomValue`: scale the draw into [min, max), then round to
   * `precision` decimal places.
   */
  function GetRandomValue(min: real, max: real, precision: nat, r: Draw): (v: real)
    ensures RoundedToSteps(Scale(r, max - min) + min, Pow10(precision) as real, v)
  {
    var value := Scale(r, max - min) + min;
    var multiplier := Pow10(precision) as real;
    RoundToSteps(value, multiplier)
  }

  /**
   * With the default precision 0 and integer bounds, the value is an integer
   * in the closed interval [min, max]; `max` itself is reachable only through
   * rounding.
   */
  lemma RandomValueInRange(min: int, max: int, r: Draw)
    requires min <= max
    ensures var v := GetRandomValue(min as real, max as real, 0, r);
            JsNumber.IsIntegral(v) && min <= v.Floor <= max
  {
    var raw := Scale(r, max as real - min as real) + min as real;
    var v := GetRandomValue(min as real, max as real, 0, r);
    assert Pow10(0) == 1;
    assert v * 1.0 == v && raw * 1.0 == raw;
    JsNumber.RoundMonotone(min as real, raw);
    JsNumber.RoundMonotone(raw, max as real);
    JsNumber.RoundIntegral(min);
    JsNumber.RoundIntegral(max);
  }

  /** The name, interval and description the synthesizer uses for one entry. */
  datatype FieldSpec = FieldSpec(name: string, min: int, max: int, description: string)

  /** The seven entries of a measurement set, in display order. */
  const Catalogue: seq<FieldSpec> := [
    FieldSpec("Upper Body Width", 36, 48,
      "The horizontal measurement around the widest part of the upper body"),
    FieldSpec("Midsection", 28, 42,
      "The horizontal measurement around the narrowest part of the natural waistline"),
    FieldSpec("Lower Body Width", 34, 50,
      "The horizontal measurement around the widest part of the lower body"),
    FieldSpec("Shoulder Span", 15, 20,
      "The horizontal distance across the back from shoulder point to shoulder point"),
    FieldSpec("Arm Measurement", 22, 28,
      "The length from shoulder point to wrist"),
    FieldSpec("Torso Measurement", 16, 22,
      "The vertical distance from the base of the neck to the natural waistline"),
    FieldSpec("Leg Measurement", 28, 36,
      "The vertical distance from the top of the leg to the ankle")
  ]

  /** The unit every generated entry carries. */
  const Inches: string := "inches"

  /** `m` is an entry generated for `spec`: its name, unit and description, and an integral value in range. */
  predicate Conforms(m: Measurement, spec: FieldSpec) {
    && m.name == spec.name
    && m.unit == Inches
    && m.description == spec.description
    && JsNumber.IsIntegral(m.value)
    && spec.min as real <= m.value <= spec.max as real
  }

  /** A well-formed measurement set: one conforming entry per catalogue field, in catalogue order. */
  predicate IsMeasurementSet(ms: seq<Measurement>) {
    |ms| == |Catalogue| && forall i :: 0 <= i < |ms| ==> Conforms(ms[i], Catalogue[i])
  }

  /** One entry of `generateMeasurements`. */
  function Synthesize(spec: FieldSpec, r: Draw): (m: Measurement)
    requires spec.min <= spec.max
    ensures Conforms(m, spec)
  {
    RandomValueInRange(spec.min, spec.max, r);
    Measurement(spec.name, GetRandomValue(spec.min as real, spec.max as real, 0, r), Inches, spec.description)
  }

  /** `generateMeasurements`, with one draw per entry. */
  function GenerateMeasurements(draws: seq<Draw>): (ms: seq<Measurement>)
    requires |draws| == |Catalogue|
    ensures IsMeasurementSet(ms)
    ensures |ms| == 7
    ensures ms[0].name == "Upper Body Width" && 36.0 <= ms[0].value <= 48.0
    ensures ms[1].name == "Midsection" && 28.0 <= ms[1].value <= 42.0
    ensures ms[2].name == "Lower Body Width" && 34.0 <= ms[2].value <= 50.0
    ensures ms[3].name == "Shoulder Span" && 15.0 <= ms[3].value <= 20.0
    ensures ms[4].name == "Arm Measurement" && 22.0 <= ms[4].value <= 28.0
    ensures ms[5].name == "Torso Measurement" && 16.0 <= ms[5].value <= 22.0
    ensures ms[6].name == "Leg Measurement" && 28.0 <= ms[6].value <= 36.0
    ensures forall i :: 0 <= i < |ms| ==> ms[i].unit == "inches" && JsNumber.IsIntegral(ms[i].value)
    ensures forall i, j :: 0 <= i < j < |ms| ==> ms[i].name != ms[j].name
  {
    var ms := seq(|Catalogue|, i requires 0 <= i < |Catalogue| => Synthesize(Catalogue[i], draws[i]));
    MeasurementSetNamesDistinct(ms);
    ms
  }

  /** No two catalogue fields share a name. */
  lemma CatalogueNamesDistinct()
    ensures forall i, j :: 0 <= i < j < |Catalogue| ==> Catalogue[i].name != Catalogue[j].name
  {
  }

  /** A measurement set names each field exactly once. */
  lemma MeasurementSetNamesDistinct(ms: seq<Measurement>)
    requires IsMeasurementSet(ms)
    ensures forall i, j :: 0 <= i < j < |ms| ==> ms[i].name != ms[j].name
  {
    CatalogueNamesDistinct();
    forall i, j | 0 <= i < j < |ms|
      ensures ms[i].name != ms[j].name
    {
      assert Conforms(ms[i], Catalogue[i]) && Conforms(ms[j], Catalogue[j]);
    }
  }
}
