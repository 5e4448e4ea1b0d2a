# Manufacturing performance prediction — a Dafny model of the scoring core

The page `ManufacturingPredictionForm` collects 25 text fields about a manufacturing
operation and, on submit, turns them into a heuristic performance score from 0 to
100. The score is shown with one of four bands ("Sangat Baik", "Baik", "Sedang",
"Rendah"). Each band has a fixed recommendation and a colour token. This project
models the only logic on the page:

- `FormModel` (form_data.dfy): the form record of 25 strings, reading and replacing one
  field, and the blank record.
- `Scoring` (scoring.dfy): the score. It starts at 50 and applies six guarded
  adjustments: capacity utilisation, production efficiency, defect rate, customer
  satisfaction, profit margin and market demand. Then it rounds (`Math.round`, ties
  toward +infinity) and clamps to [0, 100]. `Score` is the reference definition.
  `CalculatePerformanceScore` is the source's accumulator, proved equal to it.
- `Banding` (banding.dfy): the 80/60/40 ladder and the result record.
- `Utilization` (utilization.dfy): the utilisation percentage `(output / capacity) * 100`.
- `Session` (session.dfy): the page state (`formData`, `predictionResult`) as the class
  `FormSession`. Its methods are `SetField`, `RecomputeUtilization`, `Submit` and
  `Reset`. `Evaluate` is submit's validation and scoring as a value.

Numbers are exact Dafny `real`s. The host's number reader (`Number.parseFloat`) and
one-decimal rendering (`toFixed(1)`) are function parameters, held by `FormSession`
as `parse` and `fixed1`, so they stay uninterpreted. `parse` is applied only to
non-empty strings. A numeric field is present exactly when its string is non-empty,
which is JavaScript truthiness of the string. So `"0"` is present: a utilisation of
`"0"` costs 15 points.

Facts about the page that the model keeps:
- The band labels, recommendations and colour tokens are the page's own Indonesian
  strings and Tailwind tokens.
- A non-empty optional field is always read as a number; it is never treated as
  absent.
- When capacity is not positive, the utilisation field keeps whatever it held.
- The "moderate" demand value is skipped by the guard, which is indistinguishable
  from adding its table value 0 (`DemandNeutralKeys`).

## Model

| member | source | states |
|---|---|---|
| FormModel.FormData.With | app/page.tsx:94-99 | the new record holds `v` in field `f` and every other field unchanged |
| FormModel.Blank | app/page.tsx:44-70 | the initial record has every one of the 25 fields equal to "" |
| FormModel.WithSameValue | app/page.tsx:94-99 | writing a field with the value it already holds gives back the same record |
| FormModel.WithOverwrite | app/page.tsx:94-99 | of two writes to one field the last wins |
| Scoring.RoundHalfUp | app/page.tsx:140 | `Math.round` gives the integer n with n - 0.5 <= x < n + 0.5 (ties go up) |
| Scoring.ClampPercent | app/page.tsx:140 | the result is in [0, 100]; in-range values are kept, below 0 gives 0, above 100 gives 100 |
| Scoring.Score | app/page.tsx:101-141 | the score is an integer in [0, 100] |
| Scoring.CalculatePerformanceScore | app/page.tsx:101-141 | the accumulator with its six guarded steps returns exactly the reference score, hence a value in [0, 100] |
| Scoring.ScoreIsRoundedRawClamped | app/page.tsx:140 | score 0 iff raw < 0.5, score 100 iff raw >= 99.5, otherwise the score is the integer nearest the raw score |
| Scoring.ScoreMonotone | app/page.tsx:102-140 | a higher raw score never gives a lower final score |
| Scoring.NeutralFormScoresFifty | app/page.tsx:102-140 | with the six scoring fields empty the score is exactly 50 |
| Scoring.ZeroUtilizationCounts | app/page.tsx:105-107 | the string "0" is present: it lowers the raw score by 15 compared with an empty utilisation |
| Scoring.DemandNeutralKeys | app/page.tsx:128-138 | any demand key other than very_low, low, high, very_high ("moderate", unknown) scores as an empty demand |
| Scoring.DemandShifts | app/page.tsx:128-138 | very_low, low, high, very_high shift the raw score by -10, -5, +5, +10 against an empty demand |
| Scoring.DefectRateAntitone | app/page.tsx:114-116 | raising a present defect rate, all else fixed, never raises the score |
| Scoring.EfficiencyMonotone | app/page.tsx:109-111 | raising a present production efficiency, all else fixed, never lowers the score |
| Scoring.OtherFactorsMonotone | app/page.tsx:105-125 | the same monotonicity for utilisation, satisfaction and profit margin |
| Scoring.BestInputsScoreHundred | app/page.tsx:101-141 | top marks in every factor clamp to exactly 100 |
| Scoring.WorstInputsScoreZero | app/page.tsx:101-141 | full defects with zero efficiency and utilisation clamp to exactly 0 |
| Banding.Classify | app/page.tsx:156-174 | the result record is the score together with the category, recommendation and colour token of the band whose range contains it, for every score |
| Banding.BandOfExact | app/page.tsx:156-172 | the ladder picks band b exactly when the score is in b's range (>= 80, 60-79, 40-59, < 40): total and exclusive |
| Banding.BandStringsDistinct | app/page.tsx:156-172 | different bands have different category labels and different colour tokens |
| Banding.ClassifyBoundaries | app/page.tsx:156-172 | 80, 60 and 40 belong to the upper band, 79, 59 and 39 to the lower one; 80 gets the green token |
| Banding.BandOfRawScore | app/page.tsx:140-172 | the band as a condition on the unrounded score: >= 79.5, [59.5, 79.5), [39.5, 59.5), < 39.5 |
| Utilization.DerivedUtilization | app/page.tsx:82-88 | a percentage exists iff capacity > 0, and then percentage * capacity = output * 100 |
| Utilization.UtilizationWithinCapacity | app/page.tsx:85-88 | the percentage is >= 0 iff output >= 0, and <= 100 iff output <= capacity |
| Utilization.UtilizationExamples | app/page.tsx:82-91 | 5000 over 10000 gives 50; a zero or empty capacity gives no percentage |
| Session.Evaluate | app/page.tsx:143-174 | failure iff one of companyName, industryType, monthlyOutput, productionCapacity is empty; otherwise the reference score together with the category, recommendation and colour token of the band whose range contains it |
| Session.BlankFormFails | app/page.tsx:147-150 | a blank form fails validation |
| Session.NeutralCompleteForm | app/page.tsx:147-172 | a complete form with empty scoring fields gets score 50 in the "Sedang" band |
| Session.RecomputedUtilization | app/page.tsx:81-92 | the effect writes a value iff the capacity, empty read as 0, is positive |
| Session.AfterRecompute | app/page.tsx:81-92 | the effect changes no field but capacityUtilization, and changes nothing when capacity <= 0 |
| Session.RecomputeReadsOnlyItsInputs | app/page.tsx:81-92 | what the effect writes does not depend on the utilisation field it overwrites |
| Session.RecomputeIdempotent | app/page.tsx:81-92 | running the effect twice gives the same form as running it once |
| Session.FormSession.constructor | app/page.tsx:44-78 | a session starts with the blank form and no prediction |
| Session.FormSession.SetField | app/page.tsx:94-99 | field f becomes v, every other field and the prediction are unchanged |
| Session.FormSession.RecomputeUtilization | app/page.tsx:80-92 | with positive capacity only capacityUtilization changes, to the rendered percentage; otherwise the form is unchanged |
| Session.FormSession.Submit | app/page.tsx:143-175 | the form is unchanged; a missing required field keeps the earlier prediction, otherwise the prediction is the score and its band |
| Session.FormSession.Reset | app/page.tsx:177-206 | every field becomes "" and the prediction is cleared |
| Session.ResetFillSubmit | app/page.tsx:81-175 | reset, fill the four required fields (1000 against 2000), recompute and submit: prediction 50, "Sedang" |

## Left out

- JSX rendering, the help text and the help-modal toggle `showHelp` (app/page.tsx:208-1512): presentation, with no behaviour to state.
- `alert(...)` and `e.preventDefault()` in submit: user-interface effects. A failed validation is modelled as "state unchanged" plus the `MissingRequiredFields` result of `Evaluate`.
- React state scheduling: `useEffect` runs again whenever `monthlyOutput` or `productionCapacity` changes. The model makes it the explicit method `RecomputeUtilization`, which the caller runs after such a change.
- `Number.parseFloat` and NaN: the reader is the parameter `parse` on non-empty strings. A non-empty unparseable string gives NaN in the source, and NaN then flows through `Math.round`, `min` and `max`. That case is not modelled. The `|| 0` fallback is modelled as "empty reads as 0".
- IEEE-754 rounding of the arithmetic, and the decimal rendering of `toFixed(1)`: numbers are exact reals, and the rendering is the uninterpreted parameter `fixed1`.
- Keys of `Object.prototype` (e.g. "toString") used as a market-demand value: they would look up a function, not a number. The select offers only the five table keys, and the model treats every key outside the table as absent.
- The fields collected but never scored (reworkRate, monthlyRevenue, seasonality, additionalNotes and the rest) are kept only as strings in the record.
