# ATAP Solar Calculator — a verified model of its calculation core

The ATAP Solar Calculator is a React application that sizes rooftop solar
systems with optional batteries for Malaysian households. This project
models, in Dafny, the logic that sits around its billing engine:

- **Price and discount tables** (`constants.dfy`). The rate constants, the
  16 energy-efficiency discount bands and the 51 price tiers (6 to 56
  panels) are stored as constant sequences. Their invariants are proved as
  lemmas: the bands are contiguous and negative, and the prices rise
  monotonically.
- **Daily energy flow** (`daily_flow.dfy`). This is the flow diagram's split
  of one day's solar output: it goes to the home, then to the batteries,
  then to the grid. The night demand is met by the batteries and then by
  the grid. The monthly import and export figures are also shown.
- **Bill/usage binding** (`bill_sync.dfy`). The usage field and the bill
  field are kept in step by the same handlers in all four views. A bill
  in the tariff "blind spot" raises a warning and snaps the usage to
  1501 kWh. The fix buttons clear the warning. The handlers are written
  twice:
  - as pure steps on a state value, with an invariant kept by any sequence
    of user actions;
  - as methods of a class whose fields they update in place, proved
    against those steps.
- **Savings percentage of the calculator page** (`app.dfy`).
- **Plan optimiser** (`plan_recommender.dfy`). This covers:
  - one scenario per (panels, batteries) cell, with the three-phase
    surcharge and the divide-by-zero guards;
  - the grid search with its export-over-import filter, as nested loops
    proved equal to a specification of the kept cells;
  - the four picks on the cards;
  - the manual plan.
- **Recommendation card** (`recommendation_card.dfy`). This covers the
  roof-angle classifier and the ladder of neighbouring bills the card
  simulates.
- **Savings graphs** (`savings_graph.dfy`). This covers one series per
  battery count, 49 points from 6 to 54 panels, and the first panel count
  at which export exceeds import.

The billing engine (`calculateBill`, `getKwhFromBill`, `simulateSolar`,
`calculateSystemCost`) is not part of this model. Every operation that uses
it takes an `Engine` value, whose four fields are those functions, and
nothing is known about what they return. Quantities are exact `real`s.
`Math.round` is `(x + 0.5).Floor`, `Math.ceil` is `-((-x).Floor)`, and
`parseFloat(x.toFixed(n))` is modelled as half-up rounding to `n` decimals (`RoundTo`).
A `number | ''` form field is a `Field<T>` that is either `Blank` or
`Num(v)`. In the record types, `export` and `import` are spelled
`exported` and `imported`.

The code and the obvious reading of the scenario ladder differ. For a
positive bill below 50 the anchor rounds to 0, so the ladder has only the
three rungs 100, 200 and 300. Its length is therefore 3 to 7, and 4 to 7
from a bill of 50 up. The model follows the code.

## Model

| member | source | states |
|---|---|---|
| Types.OrZero | src/App.tsx:134 | An empty field counts as 0 and a numeric field as its value. |
| Types.ExportUnitsOrZero | src/components/PlanRecommender.tsx:142 | `exportUnits \|\| 0`: an absent export count reads as 0. |
| JsMath.Round | src/components/DailyFlowDiagram.tsx:414 | `Math.round` lies within half a unit of its argument. |
| JsMath.Ceil | components/SavingsGraphGenerator.tsx:83 | `Math.ceil` is the least integer not below its argument. |
| JsMath.Min | src/components/DailyFlowDiagram.tsx:92 | `Math.min` is one of its arguments and below both. |
| JsMath.Max | src/components/DailyFlowDiagram.tsx:95 | `Math.max` is one of its arguments and above both. |
| JsMath.Abs | src/components/PlanRecommender.tsx:191 | `Math.abs` is non-negative and is `x` or `-x`. |
| JsMath.RoundTo | src/App.tsx:34 | `parseFloat(x.toFixed(n))` is a whole number of `10^-n` steps, namely `x * 10^n` rounded half-up, and lies within half a step of `x`. |
| Text.ToLower | src/components/PlanRecommender.tsx:587 | Lower-casing keeps the length and lowers each character. |
| Text.ContainsTail | src/components/PlanRecommender.tsx:588-590 | A string that includes `t` also includes every tail of `t`. |
| Text.MissingChar | src/components/PlanRecommender.tsx:588-590 | A string lacking one character of `t` does not include `t`. |
| Text.LowerKeepsNonLetter | src/components/PlanRecommender.tsx:587 | Lower-casing neither adds nor removes digits and spaces. |
| Constants.DiscountTableShape | constants.ts:26-44 | 16 contiguous bands, each non-empty, from 1 to 1000 kWh. |
| Constants.DiscountBandUnique | constants.ts:26-44 | A usage is in some band exactly when it is 1..1000 kWh, and then in exactly one. |
| Constants.DiscountRatesRiseTowardZero | constants.ts:27-42 | Every discount is negative, and the discounts strictly rise from -25 to -0.5 sen. |
| Constants.ContiguousBandsCover | constants.ts:26-44 | Contiguous bands cover every usage from the first minimum to the last maximum. |
| Constants.PricingTableShape | constants.ts:51-103 | One tier per panel count, consecutive from 6 to 56. |
| Constants.FirstTierPanels | src/components/PlanRecommender.tsx:161 | `SYSTEM_PRICING[0].panels` is 6. |
| Constants.LastTierPanels | src/components/PlanRecommender.tsx:159 | `SYSTEM_PRICING[SYSTEM_PRICING.length - 1].panels` is 56. |
| Constants.TierKwpMatchesPanels | constants.ts:20-102 | Each tier's kWp is its panels times 620 W / 1000, i.e. 0.62 per panel. |
| Constants.TierInverters | constants.ts:52-102 | Each tier's inverter is 5 kWac up to 14 panels, 8 kWac to 22, 10 kWac to 26, 12 kWac to 32, 15 kWac to 40, and 20 kWac above. |
| Constants.CashPricesIncrease | constants.ts:52-102 | The cash price strictly increases with the panel count. |
| Constants.CreditPricesIncrease | constants.ts:52-102 | The instalment price strictly increases with the panel count. |
| Constants.CreditAboveCash | constants.ts:52-102 | In every tier the instalment price exceeds the cash price. |
| Constants.TierAt | constants.ts:51-103 | The tier for `p` panels sits at index `p - 6` and carries `p`'s inverter. |
| Constants.InverterPhase | constants.ts:52-102 | An inverter label says "Three Phase" exactly from 23 panels up. |
| Constants.ThreePhaseFrom23Panels | constants.ts:52-102 | A tier's inverter is three-phase exactly when the tier has 23 panels or more. |
| DailyFlow.ComputeDailyStats | src/components/DailyFlowDiagram.tsx:72-140 | The day demand is `daytimePercent` per cent of usage/30, and the night demand is the rest. Solar splits without loss into home, battery and grid, in that order: the home's day demand is met before anything is stored, and nothing is exported while the batteries have room. Storage stays within capacity. At night the batteries give back up to 0.9 of what they stored, and the grid supplies only what they cannot. The grid makes up exactly what solar (by day) or the batteries (by night) leave. |
| DailyFlow.DayDemand | src/components/DailyFlowDiagram.tsx:77 | The day demand is not negative for a non-negative usage and a share between 0 and 100. |
| DailyFlow.NightDemand | src/components/DailyFlowDiagram.tsx:76-78 | The day and night demands add back up to the daily usage, and the night demand is not negative for a non-negative usage and a share between 0 and 100. |
| DailyFlow.RoutingIsGreedy | src/components/DailyFlowDiagram.tsx:87-124 | The routing order fixes every flow: the home takes min(solar, day demand), the batteries min(surplus, capacity), and the night discharge is min(0.9 × stored, night demand). |
| DailyFlow.FlowsNonNegative | src/components/DailyFlowDiagram.tsx:76-124 | With non-negative inputs and a daytime share of 0..100 %, every demand and flow is non-negative. |
| DailyFlow.NoPanelsAllFromGrid | src/components/DailyFlowDiagram.tsx:82-124 | Without panels there is no generation, storage, export or discharge, and the grid supplies both demands. |
| DailyFlow.NoBatteriesExportSurplus | src/components/DailyFlowDiagram.tsx:85-105 | Without batteries nothing is stored and the whole surplus is exported. |
| DailyFlow.MonthlyImportShown | src/components/DailyFlowDiagram.tsx:414 | The import shown is within half a kWh of 30 times the daily grid supply. |
| DailyFlow.MonthlyExportShown | src/components/DailyFlowDiagram.tsx:425 | The export shown is within half a kWh of 30 times the daily export. |
| DailyFlow.NoPanelsImportIsUsage | src/components/DailyFlowDiagram.tsx:414-425 | Without panels the import shown is the monthly usage rounded, and the export shown is 0. |
| BillSync.DisplayedBill | src/App.tsx:99-100 | The bill shown for a usage lies within half a cent of the engine's bill. |
| BillSync.FixedBill | src/App.tsx:127 | The fixed bill lies within 0.05 of the bill for 1501 kWh. |
| BillSync.UsageChanged | src/App.tsx:94-105 | The usage takes the value and the warning clears. A numeric usage sets the bill shown for it. An empty usage empties the bill, and only then. |
| BillSync.BillChanged | src/App.tsx:107-124 | The bill takes the value. The warning rises exactly for a number strictly between the bills for 1500 and 1501 kWh, and the usage then snaps to 1501. Any other number sets the usage to `getKwhFromBill`. An empty bill empties the usage, and only then. |
| BillSync.AppFix | src/App.tsx:126-130 | The calculator's fix clears the warning, sets the usage to 1501 and puts the bill within 0.05 of the upper gap bound. |
| BillSync.ComponentFix | components/SavingsGraphGenerator.tsx:66-69 | The components' fix clears the warning and sets the same bill, but keeps the usage. |
| BillSync.HandlersSync | src/App.tsx:94-130 | Each handler, from any state, leaves the usage and the bill in agreement. |
| BillSync.FixesAgreeUnderWarning | components/SavingsGraphGenerator.tsx:66-69 | While the warning shows, the components' fix and the calculator's fix give the same state. |
| BillSync.RunStaysSynced | src/App.tsx:94-130 | Any sequence of edits and fix clicks keeps the fields in agreement. The warning shows only with the usage at 1501 kWh. |
| BillSync.AppInitial | src/App.tsx:30-35 | The calculator starts at 1200 kWh with the bill for it to the cent, in agreement. |
| BillSync.ComponentInitial | src/components/DailyFlowDiagram.tsx:28-32 | A component starts at its initial usage with the bill for it to the cent, in agreement. |
| BillSync.BillUsageSync.ForApp | src/App.tsx:30-35 | The calculator's form fields start in the initial state. |
| BillSync.BillUsageSync.ForComponent | src/components/DailyFlowDiagram.tsx:28-32 | A component's fields, after its first effect, hold the initial usage and its bill. |
| BillSync.BillUsageSync.HandleUsageChange | src/App.tsx:94-105 | The fields are updated in place to `UsageChanged` and stay in agreement. |
| BillSync.BillUsageSync.HandleBillChange | src/App.tsx:107-124 | The fields are updated in place to `BillChanged` and stay in agreement. |
| BillSync.BillUsageSync.FixBillAmount | src/App.tsx:126-130 | The fields are updated in place to `AppFix` and stay in agreement. |
| BillSync.BillUsageSync.FixBillAmountKeepUsage | components/SavingsGraphGenerator.tsx:66-69 | Only the bill and the warning change; the usage stays at 1501, and the fields stay in agreement. |
| App.SavingsPercent | src/App.tsx:139-141 | The percentage is 0 without a positive original bill, and otherwise 100 times savings over the original bill. |
| App.SavingsPercentBounds | src/App.tsx:139-141 | When savings are the bill reduction, the percentage is at most 100. It is non-negative exactly when the bill did not rise, and equals 100 exactly when the new bill is 0. |
| PlanRecommender.EffectiveBill | src/components/PlanRecommender.tsx:90-92 | While the warning shows, percentages are taken of the bill for 1501 kWh, and otherwise of the bill field (0 when empty). |
| PlanRecommender.ThreePhaseSurcharge | src/components/PlanRecommender.tsx:104-115 | Three phase adds 3350 for 6-14 panels and 1600 for 15-22 panels, and nothing otherwise. |
| PlanRecommender.SurchargeExactlyOnSinglePhaseTiers | src/components/PlanRecommender.tsx:104-115 | Across the price table, three phase costs extra exactly on tiers whose inverter is not three-phase. |
| PlanRecommender.CalculateScenario | src/components/PlanRecommender.tsx:86-148 | The result is empty exactly when the price lookup fails. Otherwise both prices carry the surcharge, the label becomes "10 kWac Three Phase" when surcharged, and the energy figures are the simulation's for the same cell. |
| PlanRecommender.ScenarioRatios | src/components/PlanRecommender.tsx:117-140 | Payback times annual savings gives back the price, or 999 without savings. The saved share is of the effective bill, or 0. Battery utilisation is the daytime surplus over monthly capacity, or 0 without batteries. ROI times cash price is 100 times the annual savings. |
| PlanRecommender.PaybackCashNotLater | src/components/PlanRecommender.tsx:119-120 | With savings, and a cash price no higher than the instalment price, cash pays back no later. |
| PlanRecommender.ThreePhaseCardsShowThreePhaseInverters | src/components/PlanRecommender.tsx:101-115 | In three-phase mode every card priced from the table shows a three-phase inverter. |
| PlanRecommender.Kept | src/components/PlanRecommender.tsx:166-175 | A kept cell has a price, exports no more than it imports, and is the scenario of its own cell. |
| PlanRecommender.KeptCells | src/components/PlanRecommender.tsx:163-176 | The search's view of every cell is `Kept` for that cell. |
| PlanRecommender.MaxPanels | src/components/PlanRecommender.tsx:153-160 | The panel limit is at most 56, at most 22 in single phase, and at most the roof limit. It equals one of them. |
| PlanRecommender.SearchSound | src/components/PlanRecommender.tsx:151-177 | Every result lies within the panel limit and 0..20 batteries, has a price, is the scenario of its own cell and does not export more than it imports. |
| PlanRecommender.SearchComplete | src/components/PlanRecommender.tsx:151-177 | Every cell within the panel limit and 0..20 batteries that passes the filter is a result. |
| PlanRecommender.SearchInOrder | src/components/PlanRecommender.tsx:163-177 | The results come in search order: by panels, then by batteries. |
| PlanRecommender.SmallRoofNoCells | src/components/PlanRecommender.tsx:153-179 | A roof limit below 6 panels leaves no results. |
| PlanRecommender.GridCellsOrdered | src/components/PlanRecommender.tsx:163-177 | The rows of kept cells, concatenated, are in search order. |
| PlanRecommender.GridCellsComplete | src/components/PlanRecommender.tsx:163-177 | Every kept cell in range appears among the rows. |
| PlanRecommender.SearchGrid | src/components/PlanRecommender.tsx:151-177 | The nested search loops return exactly the kept cells, row by row. |
| PlanRecommender.SearchRow | src/components/PlanRecommender.tsx:164-176 | The inner loop appends exactly the kept cells of one row, in battery order. |
| PlanRecommender.SearchRows | src/components/PlanRecommender.tsx:163-177 | The outer loop appends exactly the kept cells of each row in turn, rows in panel order. |
| PlanRecommender.StableMinIndex | src/components/PlanRecommender.tsx:182-183 | The front of a stable ascending sort has a smallest key, and every earlier position has a strictly larger key. |
| PlanRecommender.FirstOfStableSort | src/components/PlanRecommender.tsx:182-183 | `sorted[0]` is empty exactly for no input, and is otherwise the element at that position. |
| PlanRecommender.EarliestAmongTies | src/components/PlanRecommender.tsx:182-195 | Over cells in search order, the front of the sort comes before every other cell with the same key. |
| PlanRecommender.LowestBreakeven | src/components/PlanRecommender.tsx:182-183 | The pick is one of the results with the shortest cash payback. |
| PlanRecommender.LowestBreakevenEarliest | src/components/PlanRecommender.tsx:182-183 | Over any results in search order, the pick comes before every other result with the same payback. |
| PlanRecommender.LowestBreakevenPrefersSmallest | src/components/PlanRecommender.tsx:182-183 | Ties on the payback go to the earliest cell: fewest panels, then fewest batteries. |
| PlanRecommender.TargetPanels | src/components/PlanRecommender.tsx:185-186 | The target panel count generates exactly the daily usage. |
| PlanRecommender.TargetBatteries | src/components/PlanRecommender.tsx:187-188 | The target battery count stores exactly the daily night usage. |
| PlanRecommender.MatchDistance | src/components/PlanRecommender.tsx:191-192 | The distance is non-negative, and 0 exactly at the target. |
| PlanRecommender.MatchKwh | src/components/PlanRecommender.tsx:190-195 | The pick is one of the results nearest the targets. |
| PlanRecommender.MatchKwhEarliest | src/components/PlanRecommender.tsx:190-195 | Over any results in search order, the pick comes before every other result at the same distance. |
| PlanRecommender.MatchKwhPrefersSmallest | src/components/PlanRecommender.tsx:190-195 | Ties on the distance go to the earliest cell in search order. |
| PlanRecommender.HighOffsetCandidates | src/components/PlanRecommender.tsx:197 | The filter keeps exactly the results saving 90 to 99 per cent. |
| PlanRecommender.HighOffset | src/components/PlanRecommender.tsx:197-199 | Empty exactly when no result saves 90-99 %. Otherwise it is such a result with the lowest cash price. |
| PlanRecommender.Recommend | src/components/PlanRecommender.tsx:151-210 | Without results all four cards are empty. Otherwise three cards are the picks above over the search results, and `maxSaving` is one of the results. |
| PlanRecommender.ManualResult | src/components/PlanRecommender.tsx:214-218 | Nothing for an empty or sub-6 panel count. Otherwise it is `calculateScenario` for those panels and the given batteries (0 when empty): empty exactly when the price lookup fails, and otherwise a card for that very cell. |
| PlanRecommender.ManualMatchesSearch | src/components/PlanRecommender.tsx:151-218 | Choosing by hand a cell the search keeps shows the same card the search found for it, and that card is among the search results. |
| RecommendationCard.RoofSpecsAsWritten | src/components/PlanRecommender.tsx:586-592 | The classifier as written answers 2, 3 or 4. |
| RecommendationCard.FifteenReadsAsFive | src/components/PlanRecommender.tsx:586-592 | Any label containing "15 kwac" also contains "5 kwac", and so gets 2. |
| RecommendationCard.FourOnlyForTwenty | src/components/PlanRecommender.tsx:586-592 | The answer 4 is reached only for labels containing "20 kwac" and not "15 kwac". |
| RecommendationCard.FifteenKwacReadsAsFive | src/components/PlanRecommender.tsx:586-592 | The table's "15 kWac Three Phase" inverter gets 2 roof angles. |
| RecommendationCard.TwentyKwacReadsAsFour | src/components/PlanRecommender.tsx:586-592 | As written, the table's "20 kWac Three Phase" inverter gets 4 roof angles. |
| RecommendationCard.RoofAngles | src/components/PlanRecommender.tsx:586-592 | The corrected classifier, with the 15/20 test first, answers 2, 3 or 4. |
| RecommendationCard.RoofAnglesAgreeOffFifteen | src/components/PlanRecommender.tsx:586-592 | The correction changes nothing on labels naming neither 15 nor 20 kWac. |
| RecommendationCard.RoofAnglesSmallInverters | src/components/PlanRecommender.tsx:586-592 | The corrected classifier gives 2 for the 5 and 8 kWac labels of the table. |
| RecommendationCard.RoofAnglesTenKwac | src/components/PlanRecommender.tsx:586-592 | The corrected classifier gives 3 for the 10 kWac label. |
| RecommendationCard.RoofAnglesTwelveKwac | src/components/PlanRecommender.tsx:586-592 | The corrected classifier gives 3 for the 12 kWac label. |
| RecommendationCard.RoofAnglesLargeInverters | src/components/PlanRecommender.tsx:586-592 | The corrected classifier gives 4 for the 15 and 20 kWac labels. |
| RecommendationCard.Anchor | src/components/PlanRecommender.tsx:603 | The anchor is a multiple of 100 within 50 of the bill, non-negative for a positive bill, and positive exactly from a bill of 50. |
| RecommendationCard.ScenarioBillsShape | src/components/PlanRecommender.tsx:600-619 | The ladder is empty for a bill of 0 or less. Otherwise it is strictly ascending and holds exactly the positive multiples of 100 within 300 of the anchor, including the three above it. It has 3 to 7 rungs, and at least 4 exactly when the anchor is positive. |
| RecommendationCard.ScenarioFor | src/components/PlanRecommender.tsx:620-629 | A row simulates the card's system at the usage for its bill. Its percentage times the bill is 100 times the saving. |
| RecommendationCard.Scenarios | src/components/PlanRecommender.tsx:599-630 | The loops build exactly the ladder, and each row is the scenario of its rung. |
| SavingsGraph.BatteryLimit | components/SavingsGraphGenerator.tsx:75-86 | The last battery count is the fewest batteries whose capacity covers a day's night usage, capped at 10. |
| SavingsGraph.SeriesCount | components/SavingsGraphGenerator.tsx:86-91 | There are limit + 1 series, at most 11, and none for a negative limit. |
| SavingsGraph.PointFor | components/SavingsGraphGenerator.tsx:97-117 | A point carries the simulation's savings, new bill, export (0 when absent) and import for its own cell. Its percentage is 0 without a positive original bill, and otherwise 100 times savings over that bill. |
| SavingsGraph.FirstExporting | components/SavingsGraphGenerator.tsx:93-108 | Empty exactly when no point exports more than it imports. Otherwise it is the panel count of the first point that does. |
| SavingsGraph.FirstExportingSnoc | components/SavingsGraphGenerator.tsx:106-108 | Appending a point sets the crossover only when none was found before. |
| SavingsGraph.SeriesFor | components/SavingsGraphGenerator.tsx:91-123 | A series carries its battery count and 49 points. |
| SavingsGraph.SeriesShape | components/SavingsGraphGenerator.tsx:93-117 | The points run from 6 to 54 panels in order. The crossover is the smallest panel count at which the simulation exports more than it imports, or none if there is no such count. |
| SavingsGraph.GraphsData | components/SavingsGraphGenerator.tsx:72-127 | An empty usage counts as 0. The outer loop builds exactly one series per battery count from 0 to the limit, in order. |
| SavingsGraph.BuildSeries | components/SavingsGraphGenerator.tsx:92-123 | The inner loop builds exactly the series for its battery count, crossover included. |

## Left out

- The billing engine bodies are not modelled. `calculateBill`, `getKwhFromBill`, `simulateSolar` and `calculateSystemCost` are not in the modelled files; they are opaque parameters. No tariff formula, inverse property or blind-spot bound is claimed.
- The `isSyncing` guard is not modelled. It reads state set in the same synchronous handler, so it is always false when read; the handlers are modelled without it.
- IEEE-754 arithmetic is not modelled. Double rounding, `toFixed`/`toLocaleString` formatting and `parseFloat` are replaced by exact reals and explicit half-up decimal rounding.
- Text.ToLower: lower-cases ASCII letters only, which covers every inverter label in the price table.
- Fractional counts are not modelled. The roof limit, the manual panel and battery counts (`roofMaxPanels`, `manualPanels`, `manualBatteries`) and the flow diagram's `panelCount` and `batteryCount` are whole numbers here. The source stores `Number(val)` from a number input, and `step=1` does not stop a typed 7.5. In the search such a roof limit acts as its floor, because `p <= maxPanels` compares whole `p`. A fractional manual count reaches `calculateScenario` and the engine, and a fractional flow-diagram count reaches the generation product; neither is captured.
- PlanRecommender.CalculateScenario: the ROI is 0 when the cash price is 0. The source divides by it and gives Infinity or NaN; Dafny's real division needs a non-zero divisor. Every tier price in the table is positive.
- PlanRecommender.Recommend: `maxSaving` is only shown to be one of the results. Its comparator has a 0.1 dead band, is not an ordering, and so its winner depends on the sort algorithm.
- PlanRecommender.HighOffset: the tie-break among equally cheap candidates (the earliest in search order) is not stated.
- PlanRecommender.SearchRow: the two loops of the grid search are methods of their own: `SearchRows` runs the outer loop over panel counts, `SearchRow` the inner loop over battery counts, and `SearchGrid` computes the panel limit and calls them. `SearchGrid` takes the ghost cell map as a parameter.
- SavingsGraph.BuildSeries: the inner loop of `graphsData` is a method of its own, called from the outer loop in `GraphsData`.
- RecommendationCard.ScenarioFor: requires a positive bill. Every rung of the ladder is positive, and Dafny's real division needs a non-zero divisor.
- BillSync.BillUsageSync.FixBillAmountKeepUsage: requires the warning to be showing, because the components render their fix button only then.
- The card's kWp and battery-utilisation display figures (src/components/PlanRecommender.tsx:595-596) and the JSX around them are not modelled; they are formatting only.
- The WhatsApp message assembly and clipboard copy (src/components/PlanRecommender.tsx:221-303) are not modelled; they are string presentation and a browser API.
- Login, localStorage, the PWA install prompt and tab persistence (src/App.tsx:14-27, 53-91) are not modelled; they are authentication and I/O.
- sw.js and src/index.tsx are not modelled; they are service-worker caching and React start-up.
- src/components/EnergyChart.tsx, src/components/BillDetails.tsx, components/InputNumber.tsx and components/InputSlider.tsx are not modelled; they only render values.

## Findings

| source | as written | input that shows it | evidently intended | confidence | as-written member | corrected member |
|---|---|---|---|---|---|---|
| src/components/PlanRecommender.tsx:588-590 | `getRoofSpecs` tests `includes("5 kwac")` before `includes("15 kwac")`, and "15 kwac" contains "5 kwac". | The tier label "15 kWac Three Phase" (33-40 panels) gets 2 roof angles. | A 15 kWac inverter gets 4 roof angles, like the 20 kWac one. | not executed | RecommendationCard.FifteenKwacReadsAsFive | RecommendationCard.RoofAnglesLargeInverters |
