# SmartSize AI measurement core, in Dafny

SmartSize AI is a demonstration web client: the user uploads a photo and is
shown body measurements and clothing advice. No image analysis takes place.
The measurements are random values drawn in fixed per-name intervals. This
project models the small amount of real logic in the client and proves
properties of it:

- the unit and classification helpers of `frontend/utils/measurement-utils.ts`:
  inch-to-centimetre conversion, the size band of an upper-body width, and the
  fit suggested by the gap between upper-body width and midsection;
- the measurement synthesizer of `frontend/app/page.tsx`: the `Measurement`
  record, `getRandomValue` and `generateMeasurements`;
- the recommendation generator of `frontend/app/page.tsx`
  (`generateRecommendations`): first-match lookup by name with a default of 0,
  and four sentences, of which only the last depends on the data;
- the two-step composition in `processImage`: generate, then recommend from
  the same set.

Modules, one per concern:

| file | module | models |
|---|---|---|
| `wrappers.dfy` | `Wrappers` | `Option`, standing for JavaScript's `undefined` from a search |
| `js_number.dfy` | `JsNumber` | `Math.round` on exact reals; the decimal text of an integer, with a parser as its partner |
| `measurement_utils.dfy` | `MeasurementUtils` | `inchesToCm`, `getSizeCategory`, `getFitRecommendation` |
| `measurements.dfy` | `Measurements` | `Measurement`, `getRandomValue`, `generateMeasurements` |
| `recommendations.dfy` | `Recommendations` | `find` by name, `generateRecommendations` |
| `page.dfy` | `Page` | `processImage`, lines 120-122 |

Modelling choices:

- JavaScript numbers are exact `real`s. `Math.round(x)` is `(x + 0.5).Floor`,
  which rounds to the nearest integer with halves going toward +infinity, as
  JavaScript does.
- `Math.random()` is an explicit parameter of subset type `Draw`, a real in
  [0, 1). Each generated field takes its own draw.
- Number-to-string conversion inside the template literal of sentence 4 is a
  parameter `fmt: real -> string`. The predicate `FormatsIntegers(fmt)` says
  that `fmt` writes each integral value of magnitude below 10^21 as its
  decimal text (`IntText`). JavaScript does this for such integers and uses
  exponent notation (`1e+21`) from 10^21 up. Generated values are always
  integers between 15 and 50.
- The size and fit helpers return strings, as the source does. `SizeRank`
  orders the size labels XS-S < M < L < XL+.
- `find(...)?.value || 0` is a first-match lookup that defaults to 0. The
  `|| 0` would also map a found 0, -0 or NaN to 0. With exact reals this
  changes nothing.
- `getRandomValue` (`frontend/app/page.tsx:24`) draws the raw value in the
  half-open interval [min, max), because `Math.random()` excludes 1.
  `Math.round` at line 26 can then round a raw value just below `max` up to
  `max`. So the final value lies in the closed interval [min, max]
  (`Measurements.RandomValueInRange`).

## Model

| member | source | states |
|---|---|---|
| JsNumber.Round | frontend/utils/measurement-utils.ts:3 | `Math.round`: the result is the unique integer in (x - 1/2, x + 1/2], so halves round up |
| JsNumber.IntTextRoundTrip | frontend/app/page.tsx:88 | the decimal text written for an integer parses back to that integer |
| MeasurementUtils.InchesToCm | frontend/utils/measurement-utils.ts:2-4 | the result is a whole number of tenths, within 0.05 cm of 2.54 × inches for every input (nearest tenth, ties up) |
| MeasurementUtils.InchesToCmZero | frontend/utils/measurement-utils.ts:3 | 0 inches is 0 cm |
| MeasurementUtils.InchesToCmTen | frontend/utils/measurement-utils.ts:3 | 10 inches is 25.4 cm |
| MeasurementUtils.InchesToCmExact | frontend/utils/measurement-utils.ts:3 | an input that is a whole number of millimetres converts exactly |
| MeasurementUtils.InchesToCmMonotone | frontend/utils/measurement-utils.ts:3 | the conversion never decreases as the input grows |
| MeasurementUtils.GetSizeCategory | frontend/utils/measurement-utils.ts:7-12 | the result is one of XS-S, M, L, XL+; each holds exactly on its band: below 38, [38, 42), [42, 46), 46 and above |
| MeasurementUtils.SizeCategoryMonotone | frontend/utils/measurement-utils.ts:7-12 | a wider upper body never gets an earlier size in XS-S < M < L < XL+ |
| MeasurementUtils.SizeCategoryBoundaries | frontend/utils/measurement-utils.ts:8-11 | each threshold (38, 42, 46) belongs to the band above it; values just under it stay below |
| MeasurementUtils.GetFitRecommendation | frontend/utils/measurement-utils.ts:15-21 | the result is one of three fits; tapered exactly when the gap exceeds 10, regular when it is in (6, 10], relaxed when it is at most 6 |
| MeasurementUtils.FitShiftInvariant | frontend/utils/measurement-utils.ts:16 | adding the same amount to both measurements leaves the fit unchanged |
| MeasurementUtils.FitBoundaries | frontend/utils/measurement-utils.ts:18-20 | a gap of exactly 10 is regular, exactly 6 is relaxed; gaps 12, 7 and 2 give tapered, regular, relaxed |
| Measurements.Scale | frontend/app/page.tsx:24 | a draw times a non-negative width lies in [0, width] |
| Measurements.RoundToSteps | frontend/app/page.tsx:25-26 | `Math.round(x * m) / m` is a whole number of 1/m steps, within half a step of x |
| Measurements.GetRandomValue | frontend/app/page.tsx:23-27 | the value is the scaled draw rounded to `precision` decimal places |
| Measurements.RandomValueInRange | frontend/app/page.tsx:23-26 | with precision 0 and integer bounds min ≤ max, the value is an integer in the closed interval [min, max] |
| Measurements.Synthesize | frontend/app/page.tsx:32-37 | a generated entry has its field's name, unit "inches", its field's description and an integral value in its field's interval |
| Measurements.GenerateMeasurements | frontend/app/page.tsx:30-75 | exactly 7 entries with pairwise distinct names, in the fixed order Upper Body Width, Midsection, Lower Body Width, Shoulder Span, Arm, Torso, Leg; each value is an integer in [36,48], [28,42], [34,50], [15,20], [22,28], [16,22], [28,36] respectively; unit and description fixed per name |
| Measurements.CatalogueNamesDistinct | frontend/app/page.tsx:33-69 | the seven field names are pairwise distinct |
| Measurements.MeasurementSetNamesDistinct | frontend/app/page.tsx:30-75 | a well-formed measurement set names no field twice |
| Recommendations.FindIndex | frontend/app/page.tsx:79-82 | the search result is the position of the first entry with the name, and is absent only when no entry has it |
| Recommendations.ValueOf | frontend/app/page.tsx:79-82 | the looked-up value is the first matching entry's value, or 0 when no entry has the name |
| Recommendations.ValueOfFirstNamed | frontend/app/page.tsx:79-82 | the lookup is the head of the values carried by entries of that name, or 0 if there are none |
| Recommendations.GenerateRecommendations | frontend/app/page.tsx:78-90 | always exactly four sentences; the first three are the same fixed advice for every input; the fourth is the template around the formatted value of the first Shoulder Span entry, or around the formatted 0 when there is none |
| Recommendations.OnlyShoulderSpanMatters | frontend/app/page.tsx:79-88 | inputs whose first Shoulder Span entries carry the same value (or that both lack one) get identical advice, whatever the other entries are, later Shoulder Span entries included |
| Recommendations.UpdateOtherEntry | frontend/app/page.tsx:79-88 | replacing a non-Shoulder-Span entry (Midsection, Lower Body Width, ...) by another non-Shoulder-Span entry leaves the advice unchanged |
| Recommendations.UpdateAfterFirstShoulderSpan | frontend/app/page.tsx:82-88 | replacing any entry after the first Shoulder Span entry, by anything, leaves the advice unchanged |
| Recommendations.SwapNeighbours | frontend/app/page.tsx:79-88 | swapping two neighbouring entries, unless both are Shoulder Span entries, leaves the advice unchanged |
| Recommendations.MissingShoulderSpan | frontend/app/page.tsx:82-88 | with no Shoulder Span entry, sentence 4 says "approximately 0 inches" |
| Recommendations.ShoulderSentenceReadsBack | frontend/app/page.tsx:88 | when the first Shoulder Span value is whole and below 10^21 in magnitude, the text between the fixed parts of sentence 4 parses back to it |
| Page.ProcessImage | frontend/app/page.tsx:120-122 | the stored measurements form a well-formed set and the stored advice is generated from that same set |
| Page.MeasurementSetLookup | frontend/app/page.tsx:79-82 | in a well-formed set, the lookup of each field's name finds that field's own entry |
| Page.ProcessedShoulderAdvice | frontend/app/page.tsx:120-122 | after processing, sentence 4 names a whole number of inches between 15 and 20, the generated Shoulder Span |

## Left out

- The `SmartSizeAI` component body (React state, file reading, the 3-second `setTimeout`, tabs, JSX) is UI plumbing. Only the composition at lines 120-122 of `frontend/app/page.tsx` is modelled.
- The three.js components under `frontend/components/3d/` are decorative rendering with no stateable contract. The tooltip wrapper `frontend/components/measurement-info.tsx` is presentational.
- `backend/mediapipe_pose_estimator.py` is file I/O and calls into OpenCV and MediaPipe, whose code is not part of this model.
- IEEE-754 doubles are not modelled. Reals are exact, so products such as `inches * 2.54 * 10` carry no representation error.
- `Math.random()` is not a source of randomness here. Each call is an explicit `Draw` parameter, so independence between calls is not expressed.
- Recommendations.GenerateRecommendations: JavaScript's text for non-integral numbers, and its exponent notation for integers of magnitude 10^21 or more, are not modelled. The formatter is a parameter, pinned down only on integers below 10^21 in magnitude. Those are the only values the synthesizer produces.
- The upper-body, midsection and lower-body lookups in `generateRecommendations` are evaluated but reach no sentence. The model keeps them, and they have no effect on the output.
- Repeated calls giving identical advice (determinism of `generateRecommendations`) is not stated separately: every function in the model is deterministic by construction.
