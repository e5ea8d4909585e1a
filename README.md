# Financial-impact simulation of the sustainability-disclosure dashboard

This project models the only computation in the dashboard's script,
`web-app/script.js`. It covers two parts:

- **Impact projection** (`updateSimChart`). This is a pure calculator. Its
  inputs are a carbon price, a climate-scenario name, the Scope 3 reduction
  percentages and the number of active categories. Its output is the impact
  series for 2025, 2030, …, 2050 and the chart label. It lives in module
  `Simulation` (file `simulation.dfy`). The slider and selector reads become
  parameters, with the page's defaults ($140, `"1.5℃"`) used when a control
  is missing. Arithmetic is exact: values are `real`, and `Math.round` is
  `Floor(x + 0.5)`.
- **Active Scope 3 categories** (the add-category handler and
  `activeCategoriesCount`). The page mutates this list in place, so it is the
  class `Scope3.ActiveCategories`, with a `seq` of items and an `Add` method.
  Adding a category id that is already listed is rejected. Otherwise a new
  item is appended, carrying the id, its short name and a counted slider at 0
  (file `scope3.dfy`).

The JavaScript string operations the code depends on are defined in module
`Text` (file `text.dfy`): `includes`, integer-to-decimal rendering in a
template literal, and `split(sep)[0]`. Each is proved against a reference
definition or an inverse.

Two facts about the code are worth stating up front:

- `count * 100 || 1` is 1, not 100, when the count is 0, so with counted
  sliders present zero categories do not behave like one
  (`Simulation.Denominator`). Every slider the add-category handler creates
  sits inside a new category item, so when all items come from that handler
  a zero count means no sliders, a sum of 0 and a weight of 1.
- A higher whole-dollar carbon price strictly deepens every value, even after
  rounding (`Simulation.HigherCarbonPriceDeepensLoss`).

Items already on the page when it loads are not created by the handler, and
the script does not show whether their input carries the class that the sum
reads (`scope3-dyn-slider`) or whether they have a `data-cat` id. Each item
therefore records its optional id and whether its slider is counted. Only
counted sliders enter the sum, while every item enters the count.

## Model

| member | source | states |
|---|---|---|
| `Simulation.ReadParams` | web-app/script.js:167-172 | the carbon price is the slider's value or 140 when there is no slider; the scenario is the selector's value or "1.5℃"; the reductions and the count are passed through |
| `Simulation.SumBounds` | web-app/script.js:171-172 | the `reduce` sum of slider values, each in 0..100 (the range at line 221), lies between 0 and 100 times their number |
| `Text.IncludesIffOccurs` | web-app/script.js:174 | `includes` is true exactly when the substring occurs at some position (both directions) |
| `Simulation.BaseImpactByScenario` | web-app/script.js:174 | base impact is -50 when the scenario contains "1.5℃" (checked first), else -30 when it contains "2.0℃", else -10; no scenario fails |
| `Simulation.Denominator` | web-app/script.js:176 | `count*100 \|\| 1` is never zero: it is `count*100` for a positive count and 1 for zero |
| `Simulation.ReductionWeightBounds` | web-app/script.js:176 | with a reduction sum between 0 and `count*100`, the damping weight lies in [0.5, 1] (the zero-count case included) |
| `Simulation.JsRound` | web-app/script.js:180 | `Math.round(x)` is the integer within half a unit of `x`, with halves rounded up |
| `Simulation.JsRoundMonotone` | web-app/script.js:180 | `Math.round` preserves order |
| `Simulation.JsRoundSeparates` | web-app/script.js:180 | inputs at least one unit apart round to different integers, in the same order |
| `Simulation.Project` | web-app/script.js:178-184 | the new dataset has one point per year of the fixed list, in that order |
| `Simulation.ProjectionYears` | web-app/script.js:178-181 | exactly six points, with years 2025, 2030, …, 2050, strictly increasing |
| `Simulation.RawImpactLinearInYear` | web-app/script.js:179-180 | with year factor `(i+1)*2`, the unrounded value at position i is `i+1` times the value at position 0 |
| `Simulation.ImpactIsRoundedToTenth` | web-app/script.js:180 | each value times 10 equals `Floor(raw*10 + 0.5)`, so it is a multiple of 0.1 within 0.05 of the unrounded product |
| `Simulation.ImpactNonPositiveAndGrowing` | web-app/script.js:174-181 | for a non-negative price and at most `count` reductions in 0..100, every value is ≤ 0 and no year's value exceeds the previous year's (the loss never shrinks) |
| `Simulation.HigherCarbonPriceDeepensLoss` | web-app/script.js:175-180 | with the carbon weight `mainSliderVal / 100` (`CarbonWeight`) and the same conditions, a higher whole-dollar carbon price gives a strictly lower value in every year, even after rounding |
| `Simulation.LabelLayout` | web-app/script.js:184 | the label is the scenario, then " / 炭素価格 $", then the price in decimal, then " 時の利益影響"; the price parses back from the middle part |
| `Text.NatToDecimal` | web-app/script.js:184 | a natural number renders as one or more decimal digits, with a leading zero only for 0 |
| `Text.NatDecimalRoundTrip` | web-app/script.js:184 | reading back the rendered digits gives the original number |
| `Text.IntDecimalRoundTrip` | web-app/script.js:184 | parsing the rendered integer, sign included, gives the original integer |
| `Simulation.DefaultProjection` | web-app/script.js:168-184 | with no slider, no selector and no categories, the series is -140, -280, …, -840 and the label is "1.5℃ / 炭素価格 $140 時の利益影響" |
| `Simulation.TwoCategoryProjection` | web-app/script.js:172-180 | at $140 under "1.5℃", two categories reduced by 40% and 60% damp the 2025 value to -105 |
| `Text.TextBefore` | web-app/script.js:210 | `split(sep)[0]` is the longest prefix free of `sep`; it stops at the first `sep` or at the end |
| `Scope3.ShortText` | web-app/script.js:210 | a category's short name is the option text up to its first "：" |
| `Scope3.Reductions` | web-app/script.js:171-172 | the values of the counted (`scope3-dyn-slider`) sliders in document order: never more than the items, all within 0..100 when the items' sliders are, and exactly one per item, in order, when every item is counted |
| `Scope3.ReductionsAppend` | web-app/script.js:171-172 | appending an item adds its slider value at the end of the summed values exactly when the item is counted |
| `Scope3.ActiveCategories.constructor` | web-app/script.js:233-240 | the list starts with the items the page renders: each may lack a `data-cat` id or a counted slider, the ids present are distinct, and sliders are in range |
| `Scope3.ActiveCategories.Count` | web-app/script.js:188 | `activeCategoriesCount()` is the number of items in the list |
| `Scope3.ActiveCategories.Add` | web-app/script.js:206-223 | an id already present is rejected and nothing changes; otherwise exactly one item (id, short name, counted slider at 0) is appended at the end, the count grows by one and the summed values gain a 0; ids stay distinct and sliders stay in range |
| `Scope3.ActiveCategories.Slide` | web-app/script.js:221 | moving the slider at one position sets its value, clamped to the input's 0..100 range, and leaves every other item unchanged |
| `Scope3.ActiveCategories.Simulate` | web-app/script.js:165-186 | the chart is the projection of the list's counted sliders and item count; with a non-negative price every value is ≤ 0 and the loss deepens year by year |

## Left out

- Chart.js construction, dataset assignment and `update()` calls: a foreign display library. The model returns the dataset instead.
- Navigation, view switching, modals, panels, chat messages, the scripted demo and every `setTimeout` delay: presentation only.
- The generative-AI call and its initialisation, Google Drive wiring, the file-upload listing and the Word export: network and file I/O.
- `parseInt` on slider strings, and the `NaN` it would give for a non-numeric value: slider values are modelled as integers.
- Text.IntToDecimal: renders every integer as plain decimal digits. JavaScript writes magnitudes of 10^21 and above in exponent form (`1e+21`), and integers above 2^53 are not exact. The price slider keeps prices far below both limits.
- IEEE-754 rounding in `raw * 10`, and the `-0` that `Math.round` returns for small negative values: arithmetic is exact over the reals.
- Which element `document.querySelector('.slider')` finds: category sliders also carry the class `slider`. The DOM decides which one comes first, so the model takes the carbon price (or its absence) as a parameter.
- The duplicate check is a CSS attribute selector, `[data-cat="…"]`. The model compares ids exactly and ignores the effect of quote characters inside an id.
- The `alert` shown on a rejected add: it becomes the `false` result of `Add`.
- The label text of each category slider (`"<short name>: N% 削減"`) and its updates on `input` events: cosmetic. Only the short name is kept.
- Determinism of the calculator is not stated as a lemma: every Dafny function is deterministic by construction.
