# Mandi ranking, scenario simulation and market de-duplication

A Dafny model of three deterministic pieces of a wholesale-market
("mandi") supply-chain application:

- **The retailer's mandi-ranking pipeline** (`frontend/src/utils/mandiUtils.js`).
  - `filterQualifiedMandis` keeps the markets whose *first* product listing matching the
    requested name (case-insensitively) has enough stock.
  - `calculateMandiMetrics` computes cost, revenue, profit and margin for one purchase.
  - `rankMandis` sorts a copy of the list. It has four single-key modes and a default
    "balanced" mode, which blends four normalised sub-scores 40/30/20/10 into an
    integer score.
  - `generateReasoning` explains one market's rank with exactly four reasons: distance,
    price, shelf life and profit.
- **The supply-chain engine** (`backend/mandi/supply_chain.py`).
  - The what-if simulator `run_scenario`.
  - The rule that turns stress-signal severities into a risk score and level.
  - The clamped price walk of the forecast.
- **The market list of the demo** (`frontend/src/utils/mandiHelpers.js`). `getAllMandis`
  lists every market of every scenario once, keeping its first occurrence, in order of
  first appearance.

Modules:

| file | module | models |
|---|---|---|
| `wrappers.dfy` | `Wrappers` | the `Option` type |
| `numeric.dfy` | `Numeric` | `Math.round`, Python `round`, the extrema and mean of a list |
| `mandi_utils.dfy` | `MandiUtils` | market records, the qualification filter, the metrics |
| `mandi_ranking.dfy` | `MandiRanking` | the ranker; the sort is an in-place insertion sort on an array, proved equal to a stable-sort specification |
| `mandi_reasoning.dfy` | `MandiReasoning` | the four reasons |
| `supply_chain.dfy` | `SupplyChain` | crop catalogue, risk score and level, price-walk clamp, `run_scenario` |
| `mandi_helpers.dfy` | `MandiHelpers` | `getAllMandis`, with the JavaScript `Map` as a map plus its insertion-ordered values |

Loops and in-place updates in the source are methods here. Each method's postcondition
ties it to a specification function:

- `SortInPlace` ends with `a[..] == StableSort(old(a[..]), mode)`.
- `GetAllMandis` ends with `result == Dedup(Flatten(scenarios))`.
- `RunScenario` ends with `report == Scenario(inputs)`.
- `PriceWalk` returns the rounded `Walk`.

The lemmas then state what the source promises about those functions.

Numbers are exact reals. JavaScript's `Math.round` is `floor(x + 0.5)`. Python's
`round(x, n)` is round-half-to-even of the exact value.

## Model

| member | source | states |
|---|---|---|
| Numeric.JsRound | frontend/src/utils/mandiUtils.js:119-123 | `Math.round` returns the integer r with x - 1/2 < r <= x + 1/2, so halves round up |
| Numeric.RoundHalfEven | backend/mandi/supply_chain.py:335-336 | Python `round` returns an integer within 1/2 of x, and an even one when x lies exactly halfway |
| Numeric.RoundTenths | backend/mandi/supply_chain.py:338 | `round(x, 1)` is within 0.05 of x |
| Numeric.RoundHundredths | backend/mandi/supply_chain.py:190 | `round(x, 2)` is within 0.005 of x |
| Numeric.RoundHundredthsWithin | backend/mandi/supply_chain.py:188-190 | rounding to cents keeps a price inside a band whose ends are whole cents |
| Numeric.RoundHalfEvenMonotone | backend/mandi/supply_chain.py:336 | a larger input never rounds to a smaller integer |
| Numeric.MaxOf | frontend/src/utils/mandiUtils.js:100-103 | `Math.max(...xs)` of a non-empty list is an element of it and at least every element |
| Numeric.MinOf | frontend/src/utils/mandiUtils.js:139 | `Math.min(...xs)` of a non-empty list is an element of it and at most every element |
| Numeric.MeanBetweenExtrema | frontend/src/utils/mandiUtils.js:149-150 | the average `sum / length` lies between the list's minimum and maximum |
| MandiUtils.LowerChar | frontend/src/utils/mandiUtils.js:28 | `toLowerCase` maps A-Z to a-z and leaves every other character alone |
| MandiUtils.FindProduct | frontend/src/utils/mandiUtils.js:27-29 | `find` returns None iff no listing's name matches ignoring case; otherwise it returns the first matching listing |
| MandiUtils.FilterQualifiedMandis | frontend/src/utils/mandiUtils.js:25-40 | every survivor carries a matchedProduct whose name matches ignoring case and whose stock covers the request; that listing is the mandi's first match; the output is no longer than the input |
| MandiUtils.QualifyingPositions | frontend/src/utils/mandiUtils.js:26-39 | the positions the filter keeps increase strictly, and a position is kept iff its mandi's first matching listing exists and has enough stock |
| MandiUtils.FilterIsSubsequence | frontend/src/utils/mandiUtils.js:26-39 | the k-th survivor is the mandi at the k-th kept position with its first matching listing, so the output is the order-preserving subsequence of qualifying mandis |
| MandiUtils.FirstListingDecides | frontend/src/utils/mandiUtils.js:27-33 | a mandi is kept iff its first matching listing has enough stock, and then it carries that listing; a later matching listing is never consulted |
| MandiUtils.FilterMonotone | frontend/src/utils/mandiUtils.js:31 | filtering for a larger quantity equals re-filtering the smaller quantity's result, so raising the quantity only shrinks the output |
| MandiUtils.FindProductIgnoresCase | frontend/src/utils/mandiUtils.js:27-29 | two requested names with the same lower-case form find the same listing |
| MandiUtils.FilterIgnoresCase | frontend/src/utils/mandiUtils.js:25-40 | two requested names with the same lower-case form qualify the same mandis |
| MandiUtils.CalculateMandiMetrics | frontend/src/utils/mandiUtils.js:43-73 | distance is the distance function at the two coordinates; totalCost = price × quantity; revenue = resale × quantity; profit = revenue − cost = (resale − price) × quantity; price and shelf life are copied from the matched listing; the margin exists iff the cost is non-zero, and then margin × cost = 100 × profit |
| MandiUtils.MarginIsMarkup | frontend/src/utils/mandiUtils.js:58-61 | for a positive quantity and price, the margin is (resale − price) / price × 100 whatever the quantity |
| MandiUtils.ProfitSign | frontend/src/utils/mandiUtils.js:58-60 | for a positive quantity, profit >= 0 iff price <= resale price |
| MandiRanking.ParseSortMode | frontend/src/utils/mandiUtils.js:79-97 | each of "distance", "price", "profit" and "shelfLife" selects its own mode, and any other key selects balanced |
| MandiRanking.KeyOrderMeansInOrder | frontend/src/utils/mandiUtils.js:80-94 | a key at most another key means: ascending distance, ascending price, descending profit, descending shelf life, or descending score |
| MandiRanking.SubScoresBounded | frontend/src/utils/mandiUtils.js:106-115 | a metric between 0 and a positive maximum gives sub-scores and a 40/30/20/10 blend all in [0, 100] |
| MandiRanking.NormalisedBounded | frontend/src/utils/mandiUtils.js:100-115 | with non-negative metrics and non-zero maxima over the whole input, each mandi's four sub-scores and unrounded blend lie in [0, 100] |
| MandiRanking.BalancedScoresBounded | frontend/src/utils/mandiUtils.js:100-123 | under the same conditions every rounded score lies in [0, 100] |
| MandiRanking.BalancedScoresAtExtremes | frontend/src/utils/mandiUtils.js:106-109 | the farthest mandi scores 0 on distance and one at distance 0 scores 100; the dearest scores 0 on price; the freshest and the most profitable score 100 on shelf life and on profit |
| MandiRanking.InsertPermutes | frontend/src/utils/mandiUtils.js:127 | one insertion step adds exactly the inserted element |
| MandiRanking.InsertSorted | frontend/src/utils/mandiUtils.js:127 | one insertion step keeps a key-sorted list sorted |
| MandiRanking.InsertKeepsTies | frontend/src/utils/mandiUtils.js:127 | one insertion step puts the new element after every element with the same key |
| MandiRanking.StableSortSortsAndPermutes | frontend/src/utils/mandiUtils.js:80-127 | the sort specification returns a permutation of its input in ascending key order |
| MandiRanking.StableSortKeepsTies | frontend/src/utils/mandiUtils.js:80-127 | the sort specification is stable: for every key value, the elements with that key keep their input order |
| MandiRanking.StableSortPermutesMetrics | frontend/src/utils/mandiUtils.js:77-127 | the sorted list carries the same metrics as its input, with multiplicity |
| MandiRanking.InsertNext | frontend/src/utils/mandiUtils.js:127 | one pass of the in-place insertion sort turns the array prefix into the specification's insertion and leaves the rest of the array alone |
| MandiRanking.SortInPlace | frontend/src/utils/mandiUtils.js:80-127 | `ranked.sort(comparator)` sorts the array in place to exactly the stable sort of its old contents |
| MandiRanking.RankedInOrder | frontend/src/utils/mandiUtils.js:80-127 | when every entry carries a score (balanced mode), each pair of the sorted list is in the mode's order |
| MandiRanking.RankedEntriesScored | frontend/src/utils/mandiUtils.js:99-125 | sorting keeps each entry's scores: present exactly in balanced mode, and there computed against the maxima of the whole input |
| MandiRanking.RankedListProperties | frontend/src/utils/mandiUtils.js:76-132 | the ranked list permutes the input's metrics, follows the mode's order, carries scores exactly in balanced mode, and keeps equal-key entries in input order |
| MandiRanking.RankMandis | frontend/src/utils/mandiUtils.js:76-132 | `rankMandis` copies its input, scores it in balanced mode, and sorts the copy in place. The result is the stable sort of the prepared list: a permutation of the input, in the mode's order, with scores exactly in balanced mode and ties in input order. The input sequence is a value the method cannot change |
| MandiRanking.SortTwo | frontend/src/utils/mandiUtils.js:127 | a stable sort leaves two entries that are already in key order as they are |
| MandiRanking.TwoMandiScores | frontend/src/utils/mandiUtils.js:100-123 | worked example: a mandi at distance 0 (30/kg, 5 days, profit 1500) and one 10 km away (20/kg, 2 days, profit 2500) give maxima (10, 30, 5, 2500) and scores 66 (100, 0, 100, 60) and 28 (0, 33, 40, 100) |
| MandiRanking.TwoMandiExample | frontend/src/utils/mandiUtils.js:58-127 | the same example from the listings: 100 kg resold at 45/kg gives profits 1500 and 2500, and balanced ranking puts the nearer mandi first |
| MandiReasoning.GenerateReasoning | frontend/src/utils/mandiUtils.js:135-181 | exactly four reasons in the order distance, price, shelf life, profit. Each reason is chosen iff its branch condition holds against the list's minimum distance, minimum and mean price, maximum shelf life and maximum profit. On an empty list the reasons are the ones IEEE ±Infinity and NaN force: close proximity, premium pricing, excellent freshness, high profit |
| MandiReasoning.SomeMandiIsNearest | frontend/src/utils/mandiUtils.js:139-141 | some mandi of a non-empty list is at the nearest distance, and none is nearer |
| MandiReasoning.SomeMandiIsCheapest | frontend/src/utils/mandiUtils.js:149-153 | some mandi of a non-empty list has the lowest price |
| MandiReasoning.MostExpensiveIsPremium | frontend/src/utils/mandiUtils.js:149-158 | when prices differ, the dearest mandi's price is neither the lowest nor below the average, so it is labelled premium |
| MandiReasoning.FreshestIsExcellent | frontend/src/utils/mandiUtils.js:161-163 | with non-negative shelf lives, the freshest mandi is labelled excellent freshness |
| MandiReasoning.HighProfitNeedsNonNegativeMaximum | frontend/src/utils/mandiUtils.js:171-178 | the most profitable mandi is labelled high profit when its profit is non-negative; when every mandi loses money, every mandi is labelled moderate |
| SupplyChain.SeverityWeight | backend/mandi/supply_chain.py:162-163 | a signal weighs 2 (low or missing), 6, 12 or 20, and 4 for any other severity, so always between 2 and 20 |
| SupplyChain.MissingSeverityIsLow | backend/mandi/supply_chain.py:163 | a signal without a severity weighs as much as a "low" one |
| SupplyChain.RawRiskScore | backend/mandi/supply_chain.py:163 | the summed weight of n signals lies between 2n and 20n |
| SupplyChain.RiskScore | backend/mandi/supply_chain.py:165 | `min(100, 5 + raw)` lies in [5, 100]; it is 5 iff there are no signals, and below the cap it equals 5 + raw |
| SupplyChain.RiskLevelOf | backend/mandi/supply_chain.py:166 | Critical iff score > 70, High iff 45 < score <= 70, Moderate iff 20 < score <= 45, Low iff score <= 20 |
| SupplyChain.RiskLevelMonotone | backend/mandi/supply_chain.py:166 | a higher score never gives a lower level |
| SupplyChain.AddingSignalNeverLowersRisk | backend/mandi/supply_chain.py:163-165 | one more signal strictly raises the score unless it is already capped at 100 |
| SupplyChain.OneSignalAtMostModerate | backend/mandi/supply_chain.py:162-166 | no signal is Low, and a single signal of any severity is at most Moderate |
| SupplyChain.ManySignalsSaturate | backend/mandi/supply_chain.py:162-166 | 48 or more signals give score 100 and level Critical |
| SupplyChain.ClampPrice | backend/mandi/supply_chain.py:188 | for a non-negative base price the clamped price lies in [base/2, 2·base]; it equals the price inside the band and the nearer end outside it |
| SupplyChain.Walk | backend/mandi/supply_chain.py:186-188 | each price of the walk is the clamp of the previous price (the start, first) plus the step's increment, and every price stays in the band |
| SupplyChain.PriceWalk | backend/mandi/supply_chain.py:184-190 | the loop records one price per step, each the cents-rounded walk price, and every recorded price stays in [base/2, 2·base] |
| SupplyChain.ScenarioImpacts | backend/mandi/supply_chain.py:313-333 | the supply factor never rises above 1 and the other four factors never fall below 1; inputs that are all <= 0 leave every factor at 1 |
| SupplyChain.AccumulateImpacts | backend/mandi/supply_chain.py:313-333 | the step-by-step accumulation yields exactly the impact factors of the inputs |
| SupplyChain.PredictedSupply | backend/mandi/supply_chain.py:335 | predicted supply is at least 1000 kg, and at most 5000 kg when the supply factor is at most 1 |
| SupplyChain.PredictedDemand | backend/mandi/supply_chain.py:336 | predicted demand is at least 4500 kg when the demand factor is at least 1 |
| SupplyChain.PredictedPrice | backend/mandi/supply_chain.py:338 | the price index is at least 50, and at least 100 when the price factor is at least 1 |
| SupplyChain.PredictedRisk | backend/mandi/supply_chain.py:339 | the predicted risk lies in [25, 100] |
| SupplyChain.PredictedSpoilage | backend/mandi/supply_chain.py:340 | the predicted spoilage lies in [3, 40] percent |
| SupplyChain.CropRiskOf | backend/mandi/supply_chain.py:350 | high iff abs(change) > 15, medium iff 5 < abs(change) <= 15, low iff abs(change) <= 5 |
| SupplyChain.TabulateCropImpacts | backend/mandi/supply_chain.py:343-351 | the per-crop loop produces exactly the table of the first six crops |
| SupplyChain.Recommend | backend/mandi/supply_chain.py:353-363 | the guarded appends produce exactly the scenario's advice list |
| SupplyChain.RunScenario | backend/mandi/supply_chain.py:301-371 | the report is the scenario's report: supply lies in [1000, 5000], gap = demand − supply, and there are at most five recommendations |
| SupplyChain.PredictionBounds | backend/mandi/supply_chain.py:313-340 | for any inputs: 1000 <= supply <= 5000, demand >= 4500, gap = demand − supply, price index >= 100, 25 <= risk <= 100, 3 <= spoilage <= 40 |
| SupplyChain.QuietScenarioIsBaseline | backend/mandi/supply_chain.py:306-363 | with all inputs <= 0 the prediction is the baseline (5000, 4500, gap −500, 100, 25, 3), every crop change is 0 and labelled low, and there is no advice |
| SupplyChain.DemandMonotoneInSurge | backend/mandi/supply_chain.py:325-336 | a larger demand surge never predicts less demand |
| SupplyChain.RecommendationGuards | backend/mandi/supply_chain.py:353-363 | each piece of advice appears iff its guard holds (gap > 500, risk > 60, spoilage > 10, rain days > 2, surge > 30) and quotes the predicted figure |
| SupplyChain.RecommendationOrder | backend/mandi/supply_chain.py:353-363 | there are at most five pieces of advice, in the fixed order shortfall, risk alert, cold storage, trucks, farmers |
| SupplyChain.CropRiskMonotone | backend/mandi/supply_chain.py:350 | a larger non-negative change never gets a lower risk label |
| SupplyChain.CropImpactTableShape | backend/mandi/supply_chain.py:343-351 | the crop table has six entries, one per catalogue crop among the first six, in order, all with the same supply change |
| SupplyChain.CropRiskFollowsVolatility | backend/mandi/supply_chain.py:345-350 | when prices do not fall, a crop's price change is non-negative, and a more volatile crop never gets a lower risk label |
| SupplyChain.CropTableFollowsVolatility | backend/mandi/supply_chain.py:343-351 | the same for the rows of the table: no negative change, and a catalogue crop with higher volatility never has a lower label |
| SupplyChain.ThreeRainyDays | backend/mandi/supply_chain.py:301-363 | three days of rain predict supply 3200, demand 4500, gap 1300, price 124.0, risk 36, spoilage 4.8, with advice shortfall (1300 kg) and pre-positioned trucks |
| MandiHelpers.Dedup | frontend/src/utils/mandiHelpers.js:4-19 | the de-duplicated list has pairwise-distinct ids, exactly the ids of its input, and is no longer than the input |
| MandiHelpers.DedupStep | frontend/src/utils/mandiHelpers.js:9-15 | adding one market appends its summary iff its id is new |
| MandiHelpers.AddMandi | frontend/src/utils/mandiHelpers.js:9-15 | one `has`/`set` step keeps the map and its insertion-ordered values in step with the specification |
| MandiHelpers.AddScenarioMandis | frontend/src/utils/mandiHelpers.js:8-16 | the inner loop over one scenario's markets extends the specification by that scenario's list |
| MandiHelpers.GetAllMandis | frontend/src/utils/mandiHelpers.js:4-20 | the nested loops return exactly the de-duplication of all scenarios' markets, scenario by scenario |
| MandiHelpers.FirstOccurrenceWins | frontend/src/utils/mandiHelpers.js:9-15 | every entry is the id, name and location of the first market with its id; later duplicates change nothing |
| MandiHelpers.FirstAppearanceOrder | frontend/src/utils/mandiHelpers.js:9-19 | entries appear in order of the first occurrences of their ids |
| MandiHelpers.LaterDuplicateIgnored | frontend/src/utils/mandiHelpers.js:9 | a market whose id was already seen leaves the result unchanged |

## Left out

- Distance: `calculateDistance` and `toRad` (Haversine over sin, cos, atan2 and sqrt, rounded to 0.1 km) are not modelled. The distance is a function parameter of `CalculateMandiMetrics`.
- `formatCurrency` and `formatDate` wrap `Intl` formatters. This is presentation, so they are not modelled.
- MandiUtils.CalculateMandiMetrics: the margin is the exact number rather than the one-decimal string of `toFixed(1)`. Where the cost is zero, the margin is `None` rather than JavaScript's `NaN` or `Infinity`.
- `toLowerCase` is modelled on the ASCII letters A-Z only. Unicode case mapping is not modelled.
- Records keep only the fields the core reads. The spread copies of whole market objects (`...mandi`) are not modelled.
- Reasons are a tagged datatype carrying the quoted number. The English wording, emoji and number-to-text formatting are not modelled.
- MandiRanking.RankMandis: in balanced mode on a non-empty list, the four maxima must be non-zero. The source divides by them without a guard and would score `NaN` or `Infinity`. `NaN` does not fit the exact-real model.
- MandiRanking.NormalisedBounded and MandiRanking.BalancedScoresBounded state their [0, 100] bounds only for non-negative metrics. With a negative profit the profit score falls below 0.
- The `rank` argument of `generateReasoning` is unused by the source and by the model.
- Floating point: every figure is an exact real. Python `round` and `Math.round` round that exact value. Binary representation error, which can move a float that is nominally a half, is not modelled.
- Randomness and the clock:
  - Not modelled: `_seed`, `get_supply_overview`, the random signal generation of `detect_stress_signals`, `get_truck_fleet` and `get_interventions`.
  - The risk rule takes the list of signal severities as input.
  - `PriceWalk` takes the start price and the per-step increments as parameters. Those increments are random in the source.
- The forecast's `trend`, `trend_pct` and date labels are not modelled. Only the clamped, rounded walk is.
- SupplyChain.PredictedSupply: the `max(500, …)` floor is modelled but never takes effect, because the supply factor is floored at 0.2 and 5000 × 0.2 = 1000.
- Dates in the scenario report, the emoji fields of the crop table and the recommendation texts are not modelled.
- `backend/mandi/routes.py` (HTTP and database plumbing) is not part of this model, nor are the React pages and context.
- The scenario data file is not part of this model. `GetAllMandis` takes the scenario collection as a parameter, in `Object.values` order, which is insertion order for string keys. The module's import path `./mandiScenarios` does not match the data file's location `frontend/src/data/mandiScenarios.js`.
