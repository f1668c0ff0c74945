/**
 * The two-step pipeline `processImage` runs once the simulated delay is
 * over (frontend/app/page.tsx): synthesize a measurement set, then derive
 * the advice from that same set.
 */
module Page {
  import JsNumber
  import opened Measurements
  import opened Recommendations

  /** What the page stores after processing: the measurements and the advice built from them. */
  datatype Results = Results(measurements: seq<Measurement>, recommendations: seq<string>)

  /** `processImage` without the UI state: one draw per measurement, and the number formatter. */
  function ProcessImage(draws: seq<Draw>, fmt: real -> string): (out: Results)
    requires |draws| == |Catalogue|
    ensures IsMeasurementSet(out.measurements)
    ensures |out.recommendations| == 4 && out.recommendations[..3] == FixedAdvice
    ensures out.recommendations == GenerateRecommendations(out.measurements, fmt)
  {
    var generatedMeasurements := GenerateMeasurements(draws);
    Results(generatedMeasurements, GenerateRecommendations(generatedMeasurements, fmt))
  }

  /** In a measurement set every catalogue field is found at its own position. */
  lemma MeasurementSetLookup(ms: seq<Measurement>, i: nat)
    requires IsMeasurementSet(ms) && i < |ms|
    ensures IsFirstMatch(ms, Catalogue[i].name, i)
    ensures ValueOf(ms, Catalogue[i].name) == ms[i].value
  {
    MeasurementSetNamesDistinct(ms);
    assert Conforms(ms[i], Catalogue[i]);
  }

  /**
   * After processing, the fourth sentence names a whole number of inches
   * between 15 and 20: the generated Shoulder Span.
   */
  lemma ProcessedShoulderAdvice(draws: seq<Draw>, fmt: real -> string)
    requires |draws| == |Catalogue| && FormatsIntegers(fmt)
    ensures var out := ProcessImage(draws, fmt);
            var k := out.measurements[3].value.Floor;
            && 15 <= k <= 20
            && out.recommendations[3] == ShoulderAdvice(JsNumber.IntText(k))
  {
    var out := ProcessImage(draws, fmt);
    var ms := out.measurements;
    MeasurementSetLookup(ms, 3);
    assert Conforms(ms[3], Catalogue[3]);
    var k := ms[3].value.Floor;
    assert WrittenInDigits(k);
    assert fmt(k as real) == JsNumber.IntText(k);
  }
}
