/**
 * `generateRecommendations` of frontend/app/page.tsx: four advice sentences,
 * of which only the last depends on the measurements, through the value of
 * the first entry named "Shoulder Span".
 *
 * How a number is written inside a template literal is a parameter `fmt`;
 * `FormatsIntegers(fmt)` says it writes integral values the way JavaScript
 * does.
 */
module Recommendations {
  import opened Wrappers
  import JsNumber
  import opened Measurements

  // ------------------------------------------------------------------ lookup

  /** `i` is the position of the first entry of `ms` named `name`. */
  predicate IsFirstMatch(ms: seq<Measurement>, name: string, i: int) {
    && 0 <= i < |ms|
    && ms[i].name == name
    && forall j :: 0 <= j < i ==> ms[j].name != name
  }

  /** `Array.prototype.findIndex` with the predicate `m.name === name`, with `None` for "not found". */
  function FindIndex(ms: seq<Measurement>, name: string): (r: Option<nat>)
    ensures r.Some? ==> IsFirstMatch(ms, name, r.value)
    ensures r.None? ==> forall i :: 0 <= i < |ms| ==> ms[i].name != name
  {
    if |ms| == 0 then None
    else if ms[0].name == name then Some(0)
    else match FindIndex(ms[1..], name)
         case Some(k) => Some(k + 1)
         case None => None
  }

  /** `Array.prototype.find` with the predicate `m.name === name`. */
  function Find(ms: seq<Measurement>, name: string): Option<Measurement> {
    match FindIndex(ms, name)
    case Some(i) => Some(ms[i])
    case None => None
  }

  /**
   * `measurements.find((m) => m.name === name)?.value || 0`. The `|| 0` also
   * replaces a found value of 0 by 0, which changes nothing; NaN does not
   * arise in this model.
   */
  function ValueOf(ms: seq<Measurement>, name: string): (v: real)
    ensures (forall i :: 0 <= i < |ms| ==> ms[i].name != name) ==> v == 0.0
    ensures forall i :: IsFirstMatch(ms, name, i) ==> v == ms[i].value
  {
    match Find(ms, name)
    case Some(m) => m.value
    case None => 0.0
  }

  /** The values of the entries named `name`, in order. */
  function ValuesNamed(ms: seq<Measurement>, name: string): (vs: seq<real>)
    ensures |vs| <= |ms|
  {
    if |ms| == 0 then []
    else if ms[0].name == name then [ms[0].value] + ValuesNamed(ms[1..], name)
    else ValuesNamed(ms[1..], name)
  }

  /** The lookup reads the first of the values named `name`, or 0 when there is none. */
  lemma {:induction false} ValueOfFirstNamed(ms: seq<Measurement>, name: string)
    ensures ValueOf(ms, name) == (if |ValuesNamed(ms, name)| == 0 then 0.0 else ValuesNamed(ms, name)[0])
    decreases |ms|
  {
    if |ms| > 0 && ms[0].name != name {
      ValueOfFirstNamed(ms[1..], name);
      assert Find(ms, name) == Find(ms[1..], name);
    }
  }

  // ------------------------------------------------------------------- advice

  const ShoulderSpan: string := "Shoulder Span"

  const UpperBodyAdvice: string :=
    "Based on your upper body measurements, garments with a relaxed fit in the chest/shoulder area would provide optimal comfort."
  const ProportionAdvice: string :=
    "Your proportions suggest balanced dimensions. Consider clothing styles that maintain your natural silhouette."
  const LowerBodyAdvice: string :=
    "For lower body garments, look for items that provide comfortable room while maintaining a streamlined appearance."
  const ShoulderPrefix: string := "Consider tops with a shoulder width of approximately "
  const ShoulderSuffix: string := " inches for the most comfortable fit."

  /** The sentences that do not depend on the measurements, in display order. */
  const FixedAdvice: seq<string> := [UpperBodyAdvice, ProportionAdvice, LowerBodyAdvice]

  /** The fourth sentence, around the text of a shoulder width. */
  function ShoulderAdvice(shoulderText: string): string {
    ShoulderPrefix + shoulderText + ShoulderSuffix
  }

  /**
   * The magnitude from which JavaScript writes an integral number in exponent
   * notation (`1e+21`) instead of plain digits.
   */
  const ExponentThreshold: int := 1000000000000000000000

  /** An integer JavaScript writes in plain decimal digits. */
  predicate WrittenInDigits(n: int) {
    -ExponentThreshold < n < ExponentThreshold
  }

  /**
   * `fmt` writes every integral number below the exponent threshold as its
   * decimal text, as a template literal does.
   */
  ghost predicate FormatsIntegers(fmt: real -> string) {
    forall n: int :: WrittenInDigits(n) ==> fmt(n as real) == JsNumber.IntText(n)
  }

  /**
   * `generateRecommendations`. The upper-body, midsection and lower-body
   * values are looked up too, but no sentence uses them.
   */
  function GenerateRecommendations(ms: seq<Measurement>, fmt: real -> string): (recs: seq<string>)
    ensures |recs| == 4
    ensures recs[..3] == FixedAdvice
    ensures forall i :: IsFirstMatch(ms, ShoulderSpan, i) ==> recs[3] == ShoulderAdvice(fmt(ms[i].value))
    ensures (forall i :: 0 <= i < |ms| ==> ms[i].name != ShoulderSpan) ==> recs[3] == ShoulderAdvice(fmt(0.0))
  {
    var upperBodyWidth := ValueOf(ms, "Upper Body Width");
    var midsection := ValueOf(ms, "Midsection");
    var lowerBodyWidth := ValueOf(ms, "Lower Body Width");
    var shoulderSpan := ValueOf(ms, ShoulderSpan);
    FixedAdvice + [ShoulderAdvice(fmt(shoulderSpan))]
  }

  // --------------------------------------------------------------- properties

  /**
   * Both sets lack a Shoulder Span entry, or the first Shoulder Span entries
   * of both carry the same value.
   */
  predicate SameFirstShoulderSpan(ms1: seq<Measurement>, ms2: seq<Measurement>) {
    var vs1 := ValuesNamed(ms1, ShoulderSpan);
    var vs2 := ValuesNamed(ms2, ShoulderSpan);
    || (|vs1| == 0 && |vs2| == 0)
    || (|vs1| > 0 && |vs2| > 0 && vs1[0] == vs2[0])
  }

  /**
   * Two measurement sets whose first Shoulder Span entries carry the same
   * value get the same advice, whatever their other entries are (later
   * Shoulder Span entries included) and in whatever order those stand.
   */
  lemma OnlyShoulderSpanMatters(ms1: seq<Measurement>, ms2: seq<Measurement>, fmt: real -> string)
    requires SameFirstShoulderSpan(ms1, ms2)
    ensures GenerateRecommendations(ms1, fmt) == GenerateRecommendations(ms2, fmt)
  {
    ValueOfFirstNamed(ms1, ShoulderSpan);
    ValueOfFirstNamed(ms2, ShoulderSpan);
  }

  /** Replacing an entry by one of another name keeps the values of `name`, when the old entry had another name too. */
  lemma {:induction false} UpdateKeepsValuesNamed(ms: seq<Measurement>, j: nat, m: Measurement, name: string)
    requires j < |ms| && ms[j].name != name && m.name != name
    ensures ValuesNamed(ms[j := m], name) == ValuesNamed(ms, name)
    decreases j
  {
    if j > 0 {
      UpdateKeepsValuesNamed(ms[1..], j - 1, m, name);
      assert ms[j := m][1..] == ms[1..][j - 1 := m];
    }
  }

  /** Changing any entry that is not a Shoulder Span into another non-Shoulder-Span entry leaves the advice unchanged. */
  lemma UpdateOtherEntry(ms: seq<Measurement>, j: nat, m: Measurement, fmt: real -> string)
    requires j < |ms| && ms[j].name != ShoulderSpan && m.name != ShoulderSpan
    ensures GenerateRecommendations(ms[j := m], fmt) == GenerateRecommendations(ms, fmt)
  {
    UpdateKeepsValuesNamed(ms, j, m, ShoulderSpan);
    OnlyShoulderSpanMatters(ms[j := m], ms, fmt);
  }

  /**
   * Any entry after the first Shoulder Span entry, a later Shoulder Span
   * entry included, can be replaced by anything without changing the advice.
   */
  lemma UpdateAfterFirstShoulderSpan(ms: seq<Measurement>, i: nat, j: nat, m: Measurement, fmt: real -> string)
    requires IsFirstMatch(ms, ShoulderSpan, i) && i < j < |ms|
    ensures GenerateRecommendations(ms[j := m], fmt) == GenerateRecommendations(ms, fmt)
  {
    assert IsFirstMatch(ms[j := m], ShoulderSpan, i);
  }

  /** Exchanging two neighbouring entries, one of which is not named `name`, keeps the values of `name`. */
  lemma {:induction false} SwapKeepsValuesNamed(ms: seq<Measurement>, j: nat, name: string)
    requires j + 1 < |ms| && (ms[j].name != name || ms[j + 1].name != name)
    ensures ValuesNamed(ms[j := ms[j + 1]][j + 1 := ms[j]], name) == ValuesNamed(ms, name)
    decreases j
  {
    var swapped := ms[j := ms[j + 1]][j + 1 := ms[j]];
    if j > 0 {
      SwapKeepsValuesNamed(ms[1..], j - 1, name);
      assert swapped[1..] == ms[1..][j - 1 := ms[j + 1]][j := ms[j]];
    } else {
      assert swapped[2..] == ms[2..];
      assert swapped == [ms[1], ms[0]] + ms[2..];
      assert ms == [ms[0], ms[1]] + ms[2..];
      ValuesNamedConcat([ms[1], ms[0]], ms[2..], name);
      ValuesNamedConcat([ms[0], ms[1]], ms[2..], name);
    }
  }

  lemma {:induction false} ValuesNamedConcat(a: seq<Measurement>, b: seq<Measurement>, name: string)
    ensures ValuesNamed(a + b, name) == ValuesNamed(a, name) + ValuesNamed(b, name)
    decreases |a|
  {
    if |a| > 0 {
      ValuesNamedConcat(a[1..], b, name);
      assert (a + b)[1..] == a[1..] + b;
    } else {
      assert a + b == b;
    }
  }

  /** Moving an entry past a neighbour that is not a Shoulder Span leaves the advice unchanged. */
  lemma SwapNeighbours(ms: seq<Measurement>, j: nat, fmt: real -> string)
    requires j + 1 < |ms| && (ms[j].name != ShoulderSpan || ms[j + 1].name != ShoulderSpan)
    ensures GenerateRecommendations(ms[j := ms[j + 1]][j + 1 := ms[j]], fmt) == GenerateRecommendations(ms, fmt)
  {
    SwapKeepsValuesNamed(ms, j, ShoulderSpan);
    OnlyShoulderSpanMatters(ms[j := ms[j + 1]][j + 1 := ms[j]], ms, fmt);
  }

  /** Without a Shoulder Span entry the fourth sentence says "approximately 0 inches". */
  lemma MissingShoulderSpan(ms: seq<Measurement>, fmt: real -> string)
    requires forall i :: 0 <= i < |ms| ==> ms[i].name != ShoulderSpan
    requires FormatsIntegers(fmt)
    ensures GenerateRecommendations(ms, fmt)[3] == ShoulderPrefix + "0" + ShoulderSuffix
  {
    assert fmt(0 as real) == JsNumber.IntText(0);
  }

  /**
   * When the first Shoulder Span entry holds a whole number, the text between
   * the fixed parts of the fourth sentence reads back as that number.
   */
  lemma ShoulderSentenceReadsBack(ms: seq<Measurement>, i: nat, fmt: real -> string)
    requires IsFirstMatch(ms, ShoulderSpan, i) && JsNumber.IsIntegral(ms[i].value)
    requires WrittenInDigits(ms[i].value.Floor)
    requires FormatsIntegers(fmt)
    ensures var s := GenerateRecommendations(ms, fmt)[3];
            && |ShoulderPrefix| + |ShoulderSuffix| <= |s|
            && s[..|ShoulderPrefix|] == ShoulderPrefix
            && s[|s| - |ShoulderSuffix|..] == ShoulderSuffix
            && JsNumber.ParseInt(s[|ShoulderPrefix|..|s| - |ShoulderSuffix|]) == Some(ms[i].value.Floor)
  {
    var n := ms[i].value.Floor;
    assert fmt(n as real) == JsNumber.IntText(n);
    var s := GenerateRecommendations(ms, fmt)[3];
    assert s == ShoulderPrefix + JsNumber.IntText(n) + ShoulderSuffix;
    assert s[|ShoulderPrefix|..|s| - |ShoulderSuffix|] == JsNumber.IntText(n);
    JsNumber.IntTextRoundTrip(n);
  }
}
