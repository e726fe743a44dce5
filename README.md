# Painting-cost estimator, modelled in Dafny

This project models the arithmetic core of a painting-cost estimator for the UAE market. It has two parts.

- **Coating-physics helpers** (module `Engine`):
  - theoretical and practical spread rate;
  - litres per m² per coat;
  - wet-film thickness from dry-film thickness;
  - the dew-point safety check;
  - cost per m² from a gallon price.
- **The calculator's estimation pass**, in four modules:
  - `CalculatorModel`: the inputs and results as datatypes, the production-rate table, and the surface and environment factor tables.
  - `Pricing`: the composite crew's hourly rate, the simple hourly rate, and the recomputation of the material price per m².
  - `Estimation`: the hours of each stage in the three productivity modes, the walk over the stage list, and labour, materials, overhead, profit and duration.
  - `StageList`: removing a stage, appending a new stage, and moving a stage by drag and drop.

`Sums` holds a generic left-to-right sum over sequences. `Wrappers` holds `Option`.

The pure helpers, the tables, removing a stage and adding a stage are Dafny functions. Two parts of the original work step by step and are modelled as methods:

- **`Estimation.CalculateCost`** walks the stages with a loop (`WalkStages`). It builds each scientific stage's hours with the original's `+=` and `*=` steps (`ApplyStandards`), then computes the totals (`ComputeTotals`). It is proved equal to the specification function `Estimation.Estimate`, and the properties of the estimate are lemmas about `Estimate`.
- **`StageList.HandleDrop`** splices the list as the original's two `splice` calls do.

React state is replaced by snapshots. A setter that stores a new stage list or a new material record is a function returning the new value.

Numbers are Dafny `real`s, so nothing rounds and nothing overflows. Where the original divides its way to an infinity or NaN, the model returns `None`:
- a simple hourly rate with zero working hours, and with it the whole estimate (see "Left out");
- daily productivity with zero total hours;
- days required with zero working hours;
- a dew point at one of its formula's poles.

The engineering branch of the price recomputation throws in the original (see "Findings"). `Pricing.CalculatePricePerSqmAsWritten` models that code as it stands. `Pricing.CalculatePricePerSqm` is the intended computation. `Pricing.PriceAfterMaterialChange` and the price lemmas use it; `Estimation.Estimate` takes the price per m² as an input and calls neither.

`Bounds` proves that no figure of an estimate is negative when none of its inputs is.

## Model

| member | source | states |
|---|---|---|
| Engine.TheoreticalSpreadRate | bbbbbbbbuddy-daily-crew-vercel-fixed4/src/lib/engine.ts:4-7 | 0 when solids or film thickness is not positive; otherwise positive, and rate × dft == vs × 10 |
| Engine.EffectiveLossFactor | bbbbbbbbuddy-daily-crew-vercel-fixed4/src/lib/engine.ts:10 | the loss factor when it lies in (0, 1], otherwise exactly 0.85; always in (0, 1] |
| Engine.PracticalSpreadRate | bbbbbbbbuddy-daily-crew-vercel-fixed4/src/lib/engine.ts:8-12 | 0 for a non-positive theoretical rate; otherwise 0 < psr ≤ tsr, and psr == tsr × effective loss factor |
| Engine.LitersPerSqmPerCoat | bbbbbbbbuddy-daily-crew-vercel-fixed4/src/lib/engine.ts:13-16 | 0 for a non-positive spread rate; otherwise positive, and litres × psr == 1 |
| Engine.WftFromDft | bbbbbbbbuddy-daily-crew-vercel-fixed4/src/lib/engine.ts:17-20 | 0 on any non-positive input; otherwise positive, and wft × vs == dft |
| Engine.DewPointC | bbbbbbbbuddy-daily-crew-vercel-fixed4/src/lib/engine.ts:21-26 | a value exists exactly when the relative humidity lies in (0, 100] and neither division is by zero (the temperature pole b + T, and γ = a); that value dp satisfies the Magnus relation dp × (a − γ) = b × γ |
| Engine.IsWithinDewPointSafety | bbbbbbbbuddy-daily-crew-vercel-fixed4/src/lib/engine.ts:27-32 | an invalid dew point gives not-ok with no delta; otherwise delta == temperature − dew point, and ok exactly when delta ≥ 3 |
| Engine.CostPerSqmFromGallon | bbbbbbbbuddy-daily-crew-vercel-fixed4/src/lib/engine.ts:33-36 | 0 for non-positive coverage; otherwise cost × coverage == gallon price |
| Engine.TheoreticalSpreadRateIncreasesWithSolids | bbbbbbbbuddy-daily-crew-vercel-fixed4/src/lib/engine.ts:4-7 | at a fixed positive film thickness, more solids give a strictly higher spread rate |
| Engine.TheoreticalSpreadRateDecreasesWithFilm | bbbbbbbbuddy-daily-crew-vercel-fixed4/src/lib/engine.ts:4-7 | at fixed positive solids, a thicker film gives a strictly lower spread rate |
| Engine.SpreadRateRoundTrip | bbbbbbbbuddy-daily-crew-vercel-fixed4/src/lib/engine.ts:4-16 | for positive solids and film, the litres per m² of the practical rate are dft / (10 × vs × effective loss factor) |
| Engine.WetFilmAtLeastDry | bbbbbbbbuddy-daily-crew-vercel-fixed4/src/lib/engine.ts:17-20 | with solids in (0, 1] the wet film is at least as thick as the dry film |
| CalculatorModel.ProductionRate | 77777777777777-vercel-fixed3/src/components/PaintingCalculator.tsx:16-62 | every entry of the hours-per-m² table is positive |
| CalculatorModel.TimberAndMetalUseWallsRow | 77777777777777-vercel-fixed3/src/components/PaintingCalculator.tsx:406-407 | timber and metal are not rows of the table and read the walls row |
| CalculatorModel.RowsOrderedBySurface | 77777777777777-vercel-fixed3/src/components/PaintingCalculator.tsx:16-62 | for every stage, walls < ceilings < textured |
| CalculatorModel.SurfaceFactor | 77777777777777-vercel-fixed3/src/components/PaintingCalculator.tsx:247-253 | every factor is at least 1, and it is exactly 1 only for walls |
| CalculatorModel.EnvironmentFactor | 77777777777777-vercel-fixed3/src/components/PaintingCalculator.tsx:240-244 | every factor is at least 1, and it is exactly 1 only for interior work |
| Pricing.CrewHours | 77777777777777-vercel-fixed3/src/components/PaintingCalculator.tsx:352 | the crew day is never 0 hours: the working hours when set, 8 otherwise |
| Pricing.CrewHourlyRate | 77777777777777-vercel-fixed3/src/components/PaintingCalculator.tsx:351-361 | rate × crew hours == painter + rH × helper + rF × foreman + admin + transport, each absent cost 0 and each absent ratio at its default |
| Pricing.SpreadOverHours | 77777777777777-vercel-fixed3/src/components/PaintingCalculator.tsx:353-360 | proof step for CrewHourlyRate: adding the daily costs each divided by H, then multiplying by H, gives the day's cost |
| Pricing.ZeroRatiosAreKept | 77777777777777-vercel-fixed3/src/components/PaintingCalculator.tsx:358-359 | a ratio set to 0 is kept, not replaced by its default: only painter, administration and transport are paid |
| Pricing.HourlyRate | 77777777777777-vercel-fixed3/src/components/PaintingCalculator.tsx:385 | a rate exists exactly in crew mode or with non-zero working hours; in crew mode it is the crew rate; otherwise rate × working hours == daily wage |
| Pricing.DefaultCrewRate | 77777777777777-vercel-fixed3/src/components/PaintingCalculator.tsx:351-361 | a crew of 220/160/350/100/80 per day over 8 hours, at ratios 0.30/0.15 or unset, costs 62.5625 per hour |
| Pricing.LossFactor | 77777777777777-vercel-fixed3/src/components/PaintingCalculator.tsx:364-366 | the application loss lies in (0, 1], so the engine uses it unchanged |
| Pricing.CalculatePricePerSqm | 77777777777777-vercel-fixed3/src/components/PaintingCalculator.tsx:362-375 | as intended, with the engine helper's litres per m²: only the price changes. Engineering mode with all three inputs set: price × 3.785 × 10 × vs × loss == gallon price × dft for positive inputs, and 0 for a negative solids or film value. Otherwise gallon mode with both inputs set: price × coverage == gallon price. Otherwise nothing changes |
| Pricing.EngineeringPriceClosedForm | 77777777777777-vercel-fixed3/src/components/PaintingCalculator.tsx:363-369 | as intended: the engineering price, multiplied by 3.785 × 10 × vs × loss factor, is the gallon price times the film thickness |
| Pricing.PriceAfterMaterialChange | 77777777777777-vercel-fixed3/src/components/PaintingCalculator.tsx:377-381 | as intended: the price is recomputed only while the gallon calculator is on, whatever the engineering switch says |
| Pricing.EngineeringPriceExample | 77777777777777-vercel-fixed3/src/components/PaintingCalculator.tsx:363-370 | as intended: 40 % solids, 35 µm, a roller and 70 per gallon price a coat at between 190.3 and 190.5 per m² |
| Pricing.CalculatePricePerSqmAsWritten | 77777777777777-vercel-fixed3/src/components/PaintingCalculator.tsx:362-375 | as written: no record is produced exactly when the engineering branch is taken, because line 368 reads its own uninitialised constant and throws. Otherwise gallon mode gives price × coverage == gallon price, and with neither nothing changes |
| Pricing.AsWrittenDiffersOnlyInEngineering | 77777777777777-vercel-fixed3/src/components/PaintingCalculator.tsx:362-375 | the code as written and the intended computation agree on every input outside the engineering branch, and differ on every input inside it |
| Pricing.EngineeringBranchThrowsExample | 77777777777777-vercel-fixed3/src/components/PaintingCalculator.tsx:368 | with the default engineering inputs (40 % solids, 35 µm, roller, 70 per gallon) the code as written stores no price, where the intended one is about 190.4 per m² |
| Pricing.PriceAfterMaterialChangeAsWritten | 77777777777777-vercel-fixed3/src/components/PaintingCalculator.tsx:377-381 | as written: the recalculation throws exactly when the gallon calculator is on and the engineering branch applies; otherwise it gives the intended record |
| Estimation.Basis | 77777777777777-vercel-fixed3/src/components/PaintingCalculator.tsx:396-405 | the hourly custom rate applies exactly in hourly mode with a non-zero (truthy, possibly negative) rate, the daily one exactly in daily mode with a non-zero rate, each carrying the stage's own figure; otherwise the standards apply |
| Estimation.UnitHoursAtLeastTableRate | 77777777777777-vercel-fixed3/src/components/PaintingCalculator.tsx:417-423 | the factors never shorten the work: one coat takes at least the table's hours, which are positive |
| Estimation.CeilingsScaledTwice | 77777777777777-vercel-fixed3/src/components/PaintingCalculator.tsx:405-423 | a ceiling is slowed by its own row and by its factor: more than 1.25 times the same coat on a wall |
| Estimation.ScaledHours | 77777777777777-vercel-fixed3/src/components/PaintingCalculator.tsx:414-423 | proof step for ApplyStandards: scaling base × coats by both factors is coats times the scaled unit |
| Estimation.ScaledRepaintHours | 77777777777777-vercel-fixed3/src/components/PaintingCalculator.tsx:409-423 | proof step for ApplyStandards: scaling base + extra × 0.8 × base by both factors is (1 + 0.8 × extra) times the scaled unit |
| Estimation.AdditionalCoatHours | 77777777777777-vercel-fixed3/src/components/PaintingCalculator.tsx:413-423 | by the standards, one more coat of any stage but the topcoat adds exactly one unit of hours |
| Estimation.TopcoatRepaintDiscount | 77777777777777-vercel-fixed3/src/components/PaintingCalculator.tsx:409-423 | one topcoat coat takes one unit; each further coat adds 0.8 of a unit, strictly less than a unit |
| Estimation.CustomRatesIgnoreConditions | 77777777777777-vercel-fixed3/src/components/PaintingCalculator.tsx:396-404 | a stage timed by a custom productivity takes the same hours on every surface and in every environment |
| Estimation.StageHoursByBasis | 77777777777777-vercel-fixed3/src/components/PaintingCalculator.tsx:396-424 | hourly mode: hours × rate == coats; daily mode: hours × rate == working hours × coats; otherwise the coats' worth of scaled table hours |
| Estimation.EnabledStages | 77777777777777-vercel-fixed3/src/components/PaintingCalculator.tsx:457-458 | exactly the enabled stages of the list, and no more of them than the list has |
| Estimation.EnabledStagesCount | 77777777777777-vercel-fixed3/src/components/PaintingCalculator.tsx:457-458 | the filter keeps every enabled stage as many times as the list holds it, and no disabled stage |
| Estimation.EnabledStagesAppend | 77777777777777-vercel-fixed3/src/components/PaintingCalculator.tsx:457-458 | filtering a concatenation concatenates the filtered pieces, so the filter keeps list order |
| Estimation.MaterialCost | 77777777777777-vercel-fixed3/src/components/PaintingCalculator.tsx:453-462 | nothing when materials are excluded |
| Estimation.Aggregate | 77777777777777-vercel-fixed3/src/components/PaintingCalculator.tsx:447-495 | the result carries the walk's lines and total hours unchanged |
| Estimation.AggregateCosts | 77777777777777-vercel-fixed3/src/components/PaintingCalculator.tsx:447-465 | basic labour == hours × rate; labour == basic × (1 + burden/100); burden == labour − basic; the materials are as given; cost per m² == labour + materials |
| Estimation.AggregateMarkup | 77777777777777-vercel-fixed3/src/components/PaintingCalculator.tsx:467-476 | price == cost × (1 + overhead/100) × (1 + profit/100); overhead + profit == price − cost; project total == price × area |
| Estimation.AggregateDuration | 77777777777777-vercel-fixed3/src/components/PaintingCalculator.tsx:473-476 | productivity exists exactly when there are hours, and productivity × hours == working hours; days exist exactly for a non-zero working day: area × hours / working hours, or 0 when no hours are needed |
| Estimation.Estimate | 77777777777777-vercel-fixed3/src/components/PaintingCalculator.tsx:383-496 | there is an estimate exactly when the hourly rate is defined |
| Estimation.LinesCostTotal | 77777777777777-vercel-fixed3/src/components/PaintingCalculator.tsx:426-448 | whatever each stage's hours, the line costs add up to the total hours at the rate |
| Estimation.CostsAtRate | 77777777777777-vercel-fixed3/src/components/PaintingCalculator.tsx:426-448 | lines that each cost their hours at the rate cost, together, their total hours at the rate |
| Estimation.EstimateLines | 77777777777777-vercel-fixed3/src/components/PaintingCalculator.tsx:391-445 | one line per enabled stage, in list order, each with that stage's hours and cost at the rate; the line hours add up to the total hours |
| Estimation.EstimateLaborIsSumOfLines | 77777777777777-vercel-fixed3/src/components/PaintingCalculator.tsx:426-448 | the costs of the stage lines add up to the basic labour cost |
| Estimation.BreakdownCost | 77777777777777-vercel-fixed3/src/components/PaintingCalculator.tsx:426-448 | the line costs add up to the total hours times the rate |
| Estimation.TotalCoatsOfEnabled | 77777777777777-vercel-fixed3/src/components/PaintingCalculator.tsx:457-459 | counting coats stage by stage, disabled stages as 0, equals filtering the enabled stages and summing their coats |
| Estimation.EstimateMaterials | 77777777777777-vercel-fixed3/src/components/PaintingCalculator.tsx:453-462 | materials are 0 when excluded, otherwise price × (1 + waste/100) × the coats of the enabled stages; the breakdown repeats the figure |
| Estimation.ComputeStageHours | 77777777777777-vercel-fixed3/src/components/PaintingCalculator.tsx:394-424 | the step-by-step hours of a stage equal its specified hours in every mode |
| Estimation.ComputeScientificHours | 77777777777777-vercel-fixed3/src/components/PaintingCalculator.tsx:405-423 | the table lookup followed by the accumulation gives the coats' worth of scaled unit hours |
| Estimation.ApplyStandards | 77777777777777-vercel-fixed3/src/components/PaintingCalculator.tsx:409-423 | the `+=` and `*=` steps give the coats' worth (1 + 0.8 × (coats − 1) for a repainted topcoat) times base × surface × environment |
| Estimation.CalculateCost | 77777777777777-vercel-fixed3/src/components/PaintingCalculator.tsx:383-496 | the whole pass yields exactly the specified estimate, and no result when the hourly rate is undefined |
| Estimation.WalkStages | 77777777777777-vercel-fixed3/src/components/PaintingCalculator.tsx:388-445 | the loop's lines are the lines of the enabled stages, and its total is the sum of their hours |
| Estimation.ComputeTotals | 77777777777777-vercel-fixed3/src/components/PaintingCalculator.tsx:447-495 | the labour, material, markup and duration steps give the aggregate, with materials over the coats of the enabled stages |
| Estimation.DaysFromProductivity | 77777777777777-vercel-fixed3/src/components/PaintingCalculator.tsx:474-475 | proof step for the duration: the area over (working hours / total hours) is area × total hours / working hours |
| Estimation.LinesFollowEnabledStages | 77777777777777-vercel-fixed3/src/components/PaintingCalculator.tsx:391-445 | the k-th line is the line of the k-th enabled stage, and there are as many lines as enabled stages |
| Estimation.LinesHours | 77777777777777-vercel-fixed3/src/components/PaintingCalculator.tsx:427-441 | the line hours add up to the hours of all stages, disabled ones counting 0 |
| Estimation.LinesRemoveAt | 77777777777777-vercel-fixed3/src/components/PaintingCalculator.tsx:391-445 | taking one stage out of the list takes exactly its line (none when disabled) out of the lines |
| Estimation.LinesPermutation | 77777777777777-vercel-fixed3/src/components/PaintingCalculator.tsx:391-445 | reordering the stages gives the same lines, only reordered |
| Estimation.LineCostIsHoursAtRate | 77777777777777-vercel-fixed3/src/components/PaintingCalculator.tsx:426 | every line costs its hours at the rate |
| StageList.RemoveStage | 77777777777777-vercel-fixed3/src/components/PaintingCalculator.tsx:305-308 | drops exactly the element at the index and keeps the others in order; an index outside the list drops nothing |
| StageList.AddNewStage | 77777777777777-vercel-fixed3/src/components/PaintingCalculator.tsx:290-303 | the existing stages are unchanged, followed by one enabled custom stage of one coat |
| StageList.HandleDrop | 77777777777777-vercel-fixed3/src/components/PaintingCalculator.tsx:323-342 | no drag, or a drop on the stage's own row, leaves the list as it was; otherwise the length and the multiset of stages are kept, the moved stage lands at the drop index (or at the end), and the others keep their order |
| StageList.RemoveStageTotals | 77777777777777-vercel-fixed3/src/components/PaintingCalculator.tsx:305-308 | removing a stage takes exactly its hours and its coats out of the totals |
| StageList.AddNewStageTotals | 77777777777777-vercel-fixed3/src/components/PaintingCalculator.tsx:290-303 | the new stage adds one coat and one standard unit of custom-stage hours |
| StageList.LinesSkipDisabled | 77777777777777-vercel-fixed3/src/components/PaintingCalculator.tsx:391-392 | taking a disabled stage out leaves the lines unchanged |
| StageList.DisabledStageIsInert | 77777777777777-vercel-fixed3/src/components/PaintingCalculator.tsx:391-462 | removing a disabled stage leaves the whole estimate unchanged |
| StageList.ReorderKeepsTotals | 77777777777777-vercel-fixed3/src/components/PaintingCalculator.tsx:323-342 | any reordering of the stages keeps the total hours and the total coats |
| StageList.ReorderKeepsEstimate | 77777777777777-vercel-fixed3/src/components/PaintingCalculator.tsx:323-342 | any reordering, such as a drop, keeps whether there is an estimate and every figure other than the lines: each cost, the price, the total and the duration |
| StageList.ReorderKeepsLines | 77777777777777-vercel-fixed3/src/components/PaintingCalculator.tsx:323-342 | after any reordering the estimate's lines are the same lines, only in another order |
| Sums.SumRealNonNegative | 77777777777777-vercel-fixed3/src/components/PaintingCalculator.tsx:427-441 | a sum of non-negative hours or coats is non-negative |
| Bounds.HourlyRateNonNegative | 77777777777777-vercel-fixed3/src/components/PaintingCalculator.tsx:351-385 | with no negative wage, crew cost or ratio, and non-negative working hours, any hourly rate is non-negative |
| Bounds.StageHoursNonNegative | 77777777777777-vercel-fixed3/src/components/PaintingCalculator.tsx:396-424 | a stage with a non-negative coat count and custom rates, and non-negative working hours, takes non-negative hours in all three modes |
| Bounds.HoursOfNonNegative | 77777777777777-vercel-fixed3/src/components/PaintingCalculator.tsx:391-424 | every stage of a list with non-negative inputs has non-negative hours |
| Bounds.LinesNonNegative | 77777777777777-vercel-fixed3/src/components/PaintingCalculator.tsx:426-441 | at a non-negative rate, every line has non-negative hours and a non-negative cost |
| Bounds.AggregateNonNegative | 77777777777777-vercel-fixed3/src/components/PaintingCalculator.tsx:446-478 | non-negative hours, rate, burden, material cost, area, overhead and margin give a non-negative labour, material and total cost, overhead, profit, price, project total, productivity and days |
| Bounds.EstimateNonNegative | 77777777777777-vercel-fixed3/src/components/PaintingCalculator.tsx:383-478 | with no negative input and a working day that is non-zero outside crew mode, the total hours, every line's hours and cost, and every figure of the estimate are non-negative |

## Left out

- Floating point is not modelled. Reals never round, and the `isFinite` guards of the engine always pass. Results that are infinite or NaN in the original are `None` here.
- Estimation.Estimate: with the simple hourly rate and zero working hours, the whole estimate is `None`.
  - In that case the original still computes finite figures: the total hours, each line's hours, the material cost per m² (also in the breakdown), and a daily productivity of 0 when there are hours.
  - Only the figures derived from the rate are infinite or NaN there: line costs, labour, cost per m², overhead, profit, price and project total. The days required are non-finite for the zero working day in any case.
  - The model does not return the finite figures in this case. `Estimation.CalculateCost` inherits this.
- The natural logarithm in the dew-point formula is a parameter `ln` of `Engine.DewPointC`. The Magnus constants and the formula's structure are kept.
- `Engine.DewPointC`: its contract states the value only through the Magnus relation dp × (a − γ) = b × γ, not as a number, because γ involves the uninterpreted logarithm. It does state exactly when a value exists.
- Stage names, surface types, environments, modes and application methods are closed datatypes. An unknown stage name makes the original throw at the table lookup, and such a name cannot be built here.
- An absent custom productivity is modelled as 0. The original tests truthiness, so absent and 0 behave the same.
- A stage's `coats` is any integer. The inputs' `parseInt(...) || 1` coercion turns 0 into 1 but lets negative values through. Allowing 0 is a generalisation of the model.
- Input coercion is not modelled: `parseFloat(...) || 0`, `parseInt(...) || 1` and the select handlers. The model takes the coerced values as its inputs.
- JSX, tabs, formatting and the text of each line are not modelled. This covers `toFixed` and the Arabic productivity and description strings. A line keeps the stage's description, its coat count and which productivity basis timed it.
- React scheduling and state are not modelled. The effects that re-run the recalculation and the setters are replaced by functions from one snapshot of the inputs to the next.
- `Pricing.CalculatePricePerSqm` writes the material record through its setter. It is modelled as a function returning the updated record, not as an update in place.
- `updateStage` is not modelled. It is a field-by-field edit of one stage with no calculation of its own.
- The brand paint-coverage table is not modelled. Only a select handler uses it.
- The drag-event plumbing is not modelled: `dataTransfer`, the drag-over and drag-end handlers, and storing the dragged index. `StageList.HandleDrop` receives the dragged index as a parameter.
- `StageList.HandleDrop` requires the dragged index to lie within the list. In the original it always does, because it is the index of a rendered row.
- `StageList.HandleDrop`: its contract places the moved stage at the end when the drop index lies past the shortened list. This matches `splice` clamping the index.
- The engineering input panel is not modelled. It only holds input state and calls the engine helpers.
- `CalculatorModel.ProductionRate`: its contract only states that the entries are positive. The entries themselves are the table, and the lemmas about the hours use them through the function.
- `Estimation.MaterialCost`: its own contract states only the excluded case. `Estimation.EstimateMaterials` states the full figure on the estimate.

## Findings

| source | as written | input that shows it | evidently intended | confidence | as-written member | corrected member |
|---|---|---|---|---|---|---|
| 77777777777777-vercel-fixed3/src/components/PaintingCalculator.tsx:368 | the local constant `litersPerSqmPerCoat` shadows the imported engine helper of the same name, so its own initialiser calls it before initialisation and throws; no price per m² is stored | gallon calculator and engineering materials on, vs 0.4, dft 35, roller, gallon price 70 | the engine helper's litres per m² per coat, giving about 190.4 per m² | high; not executed | Pricing.CalculatePricePerSqmAsWritten (with Pricing.EngineeringBranchThrowsExample) | Pricing.CalculatePricePerSqm (with Pricing.EngineeringPriceClosedForm) |
