/**
  The deterministic parts of the supply-chain intelligence engine: the crop
  catalogue, the rule that turns stress-signal severities into a risk score
  and level, the clamp that keeps a simulated price walk inside its band,
  and the what-if scenario simulator `run_scenario`.

  Python's true division and float arithmetic are modelled on exact reals;
  `round` is Python's half-to-even rounding of that exact value.
*/
module SupplyChain {
  import opened Wrappers
  import opened Numeric

  // ---------------------------------------------------------------------
  // Crop catalogue

  /** A catalogue crop: its base price (rupees per kg) and its volatility. */
  datatype Crop = Crop(name: string, basePrice: int, volatility: real)

  const Crops: seq<Crop> := [
    Crop("Tomato", 45, 0.15),
    Crop("Onion", 35, 0.25),
    Crop("Potato", 25, 0.10),
    Crop("Rice", 55, 0.05),
    Crop("Wheat", 30, 0.08),
    Crop("Carrot", 40, 0.12),
    Crop("Cabbage", 20, 0.18),
    Crop("Green Chilli", 60, 0.30)
  ]

  // ---------------------------------------------------------------------
  // Stress-signal risk score and level

  /**
    The weight of one signal. A signal without a `severity` key counts as
    "low"; a severity outside the table weighs 4.
  */
  function SeverityWeight(severity: Option<string>): (w: int)
    ensures 2 <= w <= 20
  {
    match severity
    case None => 2
    case Some(s) =>
      if s == "low" then 2
      else if s == "medium" then 6
      else if s == "high" then 12
      else if s == "critical" then 20
      else 4
  }

  /** A signal that names no severity weighs as much as a "low" one. */
  lemma MissingSeverityIsLow()
    ensures SeverityWeight(None) == SeverityWeight(Some("low"))
  {
  }

  /** The sum of the weights of all signals. */
  function RawRiskScore(severities: seq<Option<string>>): (r: int)
    ensures 2 * |severities| <= r <= 20 * |severities|
  {
    if |severities| == 0 then 0
    else
      RawRiskScore(severities[..|severities| - 1])
        + SeverityWeight(severities[|severities| - 1])
  }

  /** `min(100, 5 + raw_score)`: a baseline of 5, capped at 100. */
  function RiskScore(severities: seq<Option<string>>): (r: int)
    ensures 5 <= r <= 100
    ensures r == 5 <==> |severities| == 0
    ensures r < 100 ==> r == 5 + RawRiskScore(severities)
  {
    var total := 5 + RawRiskScore(severities);
    if total < 100 then total else 100
  }

  datatype RiskLevel = Low | Moderate | High | Critical

  /** The level band a score falls in. */
  function RiskLevelOf(score: int): (r: RiskLevel)
    ensures r == Critical <==> 70 < score
    ensures r == High <==> 45 < score <= 70
    ensures r == Moderate <==> 20 < score <= 45
    ensures r == Low <==> score <= 20
  {
    if score > 70 then Critical
    else if score > 45 then High
    else if score > 20 then Moderate
    else Low
  }

  function LevelRank(level: RiskLevel): int
  {
    match level
    case Low => 0
    case Moderate => 1
    case High => 2
    case Critical => 3
  }

  /** A higher score never gives a lower level. */
  lemma RiskLevelMonotone(s1: int, s2: int)
    requires s1 <= s2
    ensures LevelRank(RiskLevelOf(s1)) <= LevelRank(RiskLevelOf(s2))
  {
  }

  /** Reporting one more signal never lowers the risk score. */
  lemma AddingSignalNeverLowersRisk(severities: seq<Option<string>>, severity: Option<string>)
    ensures RiskScore(severities) <= RiskScore(severities + [severity])
    ensures RiskScore(severities) < RiskScore(severities + [severity]) || RiskScore(severities) == 100
  {
    var more := severities + [severity];
    assert more[..|more| - 1] == severities;
  }

  /** A single signal, however severe, never makes the level more than
      Moderate, and no signal at all is Low. */
  lemma OneSignalAtMostModerate(severity: Option<string>)
    ensures RiskLevelOf(RiskScore([])) == Low
    ensures LevelRank(RiskLevelOf(RiskScore([severity]))) <= LevelRank(Moderate)
  {
    var one := [severity];
    assert one[..0] == [];
  }

  /** Forty-eight signals of any severity saturate the score. */
  lemma ManySignalsSaturate(severities: seq<Option<string>>)
    requires |severities| >= 48
    ensures RiskScore(severities) == 100
    ensures RiskLevelOf(RiskScore(severities)) == Critical
  {
  }

  // ---------------------------------------------------------------------
  // Price walk of the forecast

  /**
    `max(base_price * 0.5, min(base_price * 2, price))`: for a non-negative
    base price, the result lies in the band [base/2, 2·base], equals the
    price inside the band and the nearer end outside it.
  */
  function ClampPrice(basePrice: int, price: real): (r: real)
    ensures basePrice >= 0 ==> basePrice as real * 0.5 <= r <= basePrice as real * 2.0
    ensures basePrice >= 0 && basePrice as real * 0.5 <= price <= basePrice as real * 2.0 ==> r == price
    ensures basePrice >= 0 && price < basePrice as real * 0.5 ==> r == basePrice as real * 0.5
    ensures basePrice >= 0 && price > basePrice as real * 2.0 ==> r == basePrice as real * 2.0
  {
    var capped := if basePrice as real * 2.0 < price then basePrice as real * 2.0 else price;
    if basePrice as real * 0.5 < capped then capped else basePrice as real * 0.5
  }

  /**
    The running prices of a walk from `start`: each step adds its increment
    to the previous price and clamps the sum.
  */
  function Walk(basePrice: int, start: real, increments: seq<real>): (r: seq<real>)
    ensures |r| == |increments|
    ensures forall i :: 0 <= i < |r| ==>
      r[i] == ClampPrice(basePrice, (if i == 0 then start else r[i - 1]) + increments[i])
    ensures basePrice >= 0 ==>
      forall i :: 0 <= i < |r| ==> basePrice as real * 0.5 <= r[i] <= basePrice as real * 2.0
  {
    if |increments| == 0 then []
    else
      var prev := Walk(basePrice, start, increments[..|increments| - 1]);
      var last := if |prev| == 0 then start else prev[|prev| - 1];
      prev + [ClampPrice(basePrice, last + increments[|increments| - 1])]
  }

  /**
    The price loop of `forecast_prices`: both the 14-day history and the
    forecast walk a price from a start by random increments (parameters
    here), clamp it after every step and record it rounded to two decimals.
  */
  method PriceWalk(basePrice: int, start: real, increments: seq<real>) returns (history: seq<real>)
    ensures |history| == |increments|
    ensures forall i :: 0 <= i < |history| ==>
      history[i] == RoundHundredths(Walk(basePrice, start, increments)[i])
    ensures basePrice >= 0 ==>
      forall i :: 0 <= i < |history| ==> basePrice as real * 0.5 <= history[i] <= basePrice as real * 2.0
  {
    ghost var walk := Walk(basePrice, start, increments);
    var price := start;
    history := [];
    var i := 0;
    while i < |increments|
      invariant 0 <= i <= |increments|
      invariant |history| == i
      invariant price == if i == 0 then start else walk[i - 1]
      invariant forall k :: 0 <= k < i ==> history[k] == RoundHundredths(walk[k])
      invariant basePrice >= 0 ==>
        forall k :: 0 <= k < i ==> basePrice as real * 0.5 <= history[k] <= basePrice as real * 2.0
    {
      price := price + increments[i];
      price := ClampPrice(basePrice, price);
      if basePrice >= 0 {
        RoundHundredthsWithin(price, 50 * basePrice, 200 * basePrice);
      }
      history := history + [RoundHundredths(price)];
      i := i + 1;
    }
  }

  // ---------------------------------------------------------------------
  // What-if scenario simulator

  datatype ScenarioInputs = ScenarioInputs(rainDays: int, demandSurgePct: int, transportDelayPct: int)

  /** The multiplicative impact factors the three scenario inputs produce. */
  datatype Impacts = Impacts(supply: real, demand: real, price: real, risk: real, spoilage: real)

  datatype Baseline = Baseline(supplyKg: int, demandKg: int, priceIndex: int, riskScore: int, spoilagePct: int)

  datatype Prediction = Prediction(
    supplyKg: int,
    demandKg: int,
    gapKg: int,
    priceIndex: real,
    riskScore: int,
    spoilagePct: real)

  datatype CropRisk = LowRisk | MediumRisk | HighRisk

  datatype CropImpact = CropImpact(crop: string, priceChangePct: real, supplyChangePct: real, risk: CropRisk)

  datatype Recommendation =
    | Shortfall(gapKg: int)
    | RiskAlert(riskScore: int)
    | ColdStorage(spoilagePct: real)
    | PrepositionTrucks
    | AlertFarmers

  datatype ScenarioReport = ScenarioReport(
    scenario: ScenarioInputs,
    baseline: Baseline,
    predicted: Prediction,
    cropImpacts: seq<CropImpact>,
    recommendations: seq<Recommendation>)

  const BaseSupply := 5000
  const BaseDemand := 4500
  const BasePriceIndex := 100
  const BaseRisk := 25
  const BaseSpoilage := 3

  /**
    The impact factors: rain cuts supply by 12% a day and raises price, risk
    and spoilage; a demand surge raises demand, price and risk; transport
    delay cuts supply and raises risk and spoilage. Non-positive inputs have
    no effect, so supply never rises and the other factors never fall.
  */
  function ScenarioImpacts(inputs: ScenarioInputs): (r: Impacts)
    ensures r.supply <= 1.0
    ensures r.demand >= 1.0 && r.price >= 1.0 && r.risk >= 1.0 && r.spoilage >= 1.0
    ensures inputs.rainDays <= 0 && inputs.demandSurgePct <= 0 && inputs.transportDelayPct <= 0 ==>
      r == Impacts(1.0, 1.0, 1.0, 1.0, 1.0)
  {
    var rain := if inputs.rainDays > 0 then inputs.rainDays as real else 0.0;
    var surge := if inputs.demandSurgePct > 0 then inputs.demandSurgePct as real / 100.0 else 0.0;
    var delay := if inputs.transportDelayPct > 0 then inputs.transportDelayPct as real / 100.0 else 0.0;
    Impacts(
      1.0 - 0.12 * rain - delay * 0.3,
      1.0 + surge,
      1.0 + 0.08 * rain + surge * 0.6,
      1.0 + 0.15 * rain + surge * 0.4 + delay * 0.5,
      1.0 + 0.20 * rain + delay * 0.4)
  }

  /** `max(500, round(base_supply * max(0.2, supply_impact)))`. A supply
      factor that never rises above 1 keeps supply within [1000, 5000] kg,
      so the 500 kg floor never takes effect. */
  function PredictedSupply(supplyImpact: real): (r: int)
    ensures r >= 1000
    ensures supplyImpact <= 1.0 ==> r <= 5000
  {
    var factor := if 0.2 < supplyImpact then supplyImpact else 0.2;
    var rounded := RoundHalfEven(BaseSupply as real * factor);
    if 500 < rounded then rounded else 500
  }

  /** `round(base_demand * demand_impact)`: never below the baseline when
      demand does not fall, and monotone in the factor. */
  function PredictedDemand(demandImpact: real): (r: int)
    ensures demandImpact >= 1.0 ==> r >= 4500
  {
    RoundHalfEven(BaseDemand as real * demandImpact)
  }

  /** `round(base_price_index * max(0.5, price_impact), 1)`. */
  function PredictedPrice(priceImpact: real): (r: real)
    ensures r >= 50.0
    ensures priceImpact >= 1.0 ==> r >= 100.0
  {
    var factor := if 0.5 < priceImpact then priceImpact else 0.5;
    RoundTenthsAtLeast(BasePriceIndex as real * factor, if priceImpact >= 1.0 then 100 else 50);
    RoundTenths(BasePriceIndex as real * factor)
  }

  /** `min(100, round(base_risk * max(1, risk_impact)))`: within [25, 100]. */
  function PredictedRisk(riskImpact: real): (r: int)
    ensures 25 <= r <= 100
  {
    var factor := if 1.0 < riskImpact then riskImpact else 1.0;
    var rounded := RoundHalfEven(BaseRisk as real * factor);
    if rounded < 100 then rounded else 100
  }

  /** `min(40, round(base_spoilage * max(1, spoilage_impact), 1))`: within
      [3, 40] percent. */
  function PredictedSpoilage(spoilageImpact: real): (r: real)
    ensures 3.0 <= r <= 40.0
  {
    var factor := if 1.0 < spoilageImpact then spoilageImpact else 1.0;
    RoundTenthsAtLeast(BaseSpoilage as real * factor, 3);
    var rounded := RoundTenths(BaseSpoilage as real * factor);
    if rounded < 40.0 then rounded else 40.0
  }

  /** The predicted figures of the scenario, from its impact factors; the
      gap is demand minus supply. */
  function Predict(impacts: Impacts): Prediction
  {
    var supply := PredictedSupply(impacts.supply);
    var demand := PredictedDemand(impacts.demand);
    Prediction(
      supply,
      demand,
      demand - supply,
      PredictedPrice(impacts.price),
      PredictedRisk(impacts.risk),
      PredictedSpoilage(impacts.spoilage))
  }

  /** The label of a crop's price change: above 15% high, above 5% medium. */
  function CropRiskOf(changePct: real): (r: CropRisk)
    ensures r == HighRisk <==> changePct > 15.0 || changePct < -15.0
    ensures r == MediumRisk <==> (changePct > 5.0 || changePct < -5.0) && -15.0 <= changePct <= 15.0
    ensures r == LowRisk <==> -5.0 <= changePct <= 5.0
  {
    var magnitude := if changePct < 0.0 then -changePct else changePct;
    if magnitude > 15.0 then HighRisk
    else if magnitude > 5.0 then MediumRisk
    else LowRisk
  }

  function CropRiskRank(risk: CropRisk): int
  {
    match risk
    case LowRisk => 0
    case MediumRisk => 1
    case HighRisk => 2
  }

  /** `round((price_impact - 1) * 100 * (1 + volatility), 1)`. */
  function PriceChangePct(priceImpact: real, volatility: real): real
  {
    RoundTenths((priceImpact - 1.0) * 100.0 * (1.0 + volatility))
  }

  /** One crop's entry: the overall price change scaled by its volatility. */
  function CropImpactOf(crop: Crop, impacts: Impacts): CropImpact
  {
    var change := PriceChangePct(impacts.price, crop.volatility);
    CropImpact(crop.name, change, RoundTenths((impacts.supply - 1.0) * 100.0), CropRiskOf(change))
  }

  /** The entries for the first six crops of the catalogue. */
  function CropImpactsOf(impacts: Impacts): seq<CropImpact>
  {
    seq(6, i requires 0 <= i < 6 => CropImpactOf(Crops[i], impacts))
  }

  /** `recommendations.append(item)` when `guard` holds. */
  function AppendIf(recs: seq<Recommendation>, guard: bool, item: Recommendation): (r: seq<Recommendation>)
    ensures forall x :: x in r <==> x in recs || (guard && x == item)
    ensures |r| == |recs| + (if guard then 1 else 0)
  {
    if guard then recs + [item] else recs
  }

  /** The advice of a scenario, in a fixed order, one entry per guard that holds. */
  function RecommendationsOf(predicted: Prediction, inputs: ScenarioInputs): seq<Recommendation>
  {
    var shortfall := AppendIf([], predicted.gapKg > 500, Shortfall(predicted.gapKg));
    var alert := AppendIf(shortfall, predicted.riskScore > 60, RiskAlert(predicted.riskScore));
    var cold := AppendIf(alert, predicted.spoilagePct > 10.0, ColdStorage(predicted.spoilagePct));
    var trucks := AppendIf(cold, inputs.rainDays > 2, PrepositionTrucks);
    AppendIf(trucks, inputs.demandSurgePct > 30, AlertFarmers)
  }

  /** The report of `run_scenario`, as one value. */
  function Scenario(inputs: ScenarioInputs): ScenarioReport
  {
    var impacts := ScenarioImpacts(inputs);
    var predicted := Predict(impacts);
    ScenarioReport(
      inputs,
      Baseline(BaseSupply, BaseDemand, BasePriceIndex, BaseRisk, BaseSpoilage),
      predicted,
      CropImpactsOf(impacts),
      RecommendationsOf(predicted, inputs))
  }

  /** The impact accumulation of `run_scenario`: every factor starts at 1
      and each positive input adjusts it in turn. */
  method AccumulateImpacts(inputs: ScenarioInputs) returns (impacts: Impacts)
    ensures impacts == ScenarioImpacts(inputs)
  {
    var supplyImpact := 1.0;
    var demandImpact := 1.0;
    var priceImpact := 1.0;
    var riskImpact := 1.0;
    var spoilageImpact := 1.0;

    var rainDays := inputs.rainDays as real;
    if inputs.rainDays > 0 {
      supplyImpact := supplyImpact - 0.12 * rainDays;
      priceImpact := priceImpact + 0.08 * rainDays;
      riskImpact := riskImpact + 0.15 * rainDays;
      spoilageImpact := spoilageImpact + 0.20 * rainDays;
    }
    var surge := inputs.demandSurgePct as real / 100.0;
    if inputs.demandSurgePct > 0 {
      demandImpact := demandImpact + surge;
      priceImpact := priceImpact + surge * 0.6;
      riskImpact := riskImpact + surge * 0.4;
    }
    var delay := inputs.transportDelayPct as real / 100.0;
    if inputs.transportDelayPct > 0 {
      supplyImpact := supplyImpact - delay * 0.3;
      riskImpact := riskImpact + delay * 0.5;
      spoilageImpact := spoilageImpact + delay * 0.4;
    }
    impacts := Impacts(supplyImpact, demandImpact, priceImpact, riskImpact, spoilageImpact);
  }

  /** The per-crop loop of `run_scenario` over the first six crops. */
  method TabulateCropImpacts(impacts: Impacts) returns (cropImpacts: seq<CropImpact>)
    ensures cropImpacts == CropImpactsOf(impacts)
  {
    cropImpacts := [];
    var i := 0;
    while i < 6
      invariant 0 <= i <= 6
      invariant cropImpacts == CropImpactsOf(impacts)[..i]
    {
      var crop := Crops[i];
      var change := PriceChangePct(impacts.price, crop.volatility);
      var risk := if change > 15.0 || change < -15.0 then HighRisk
        else if change > 5.0 || change < -5.0 then MediumRisk
        else LowRisk;
      cropImpacts := cropImpacts + [CropImpact(crop.name, change, RoundTenths((impacts.supply - 1.0) * 100.0), risk)];
      i := i + 1;
    }
  }

  /** The recommendation pushes of `run_scenario`, guard by guard. */
  method Recommend(predicted: Prediction, inputs: ScenarioInputs) returns (recommendations: seq<Recommendation>)
    ensures recommendations == RecommendationsOf(predicted, inputs)
  {
    recommendations := [];
    if predicted.gapKg > 500 {
      recommendations := recommendations + [Shortfall(predicted.gapKg)];
    }
    if predicted.riskScore > 60 {
      recommendations := recommendations + [RiskAlert(predicted.riskScore)];
    }
    if predicted.spoilagePct > 10.0 {
      recommendations := recommendations + [ColdStorage(predicted.spoilagePct)];
    }
    if inputs.rainDays > 2 {
      recommendations := recommendations + [PrepositionTrucks];
    }
    if inputs.demandSurgePct > 30 {
      recommendations := recommendations + [AlertFarmers];
    }
  }

  /**
    `run_scenario(rain_days, demand_surge_pct, transport_delay_pct)`:
    accumulates the impact factors, derives the predictions, fills the
    per-crop table and appends the recommendations. Its report stays within
    the bounds of `PredictionBounds` and its advice follows
    `RecommendationGuards`.
  */
  method RunScenario(rainDays: int, demandSurgePct: int, transportDelayPct: int)
    returns (report: ScenarioReport)
    ensures report == Scenario(ScenarioInputs(rainDays, demandSurgePct, transportDelayPct))
    ensures 1000 <= report.predicted.supplyKg <= 5000
    ensures report.predicted.gapKg == report.predicted.demandKg - report.predicted.supplyKg
    ensures |report.recommendations| <= 5
  {
    var inputs := ScenarioInputs(rainDays, demandSurgePct, transportDelayPct);
    var impacts := AccumulateImpacts(inputs);
    var predicted := Predict(impacts);
    var cropImpacts := TabulateCropImpacts(impacts);
    var recommendations := Recommend(predicted, inputs);
    report := ScenarioReport(
      inputs,
      Baseline(BaseSupply, BaseDemand, BasePriceIndex, BaseRisk, BaseSpoilage),
      predicted,
      cropImpacts,
      recommendations);
    RecommendationOrder(predicted, inputs);
  }

  // ---------------------------------------------------------------------
  // What the simulator guarantees

  /**
    Whatever the inputs, the predictions stay in fixed bounds, and the gap
    is demand minus supply.
  */
  lemma PredictionBounds(inputs: ScenarioInputs)
    ensures var p := Scenario(inputs).predicted;
      && 1000 <= p.supplyKg <= 5000
      && p.demandKg >= 4500
      && p.gapKg == p.demandKg - p.supplyKg
      && p.priceIndex >= 100.0
      && 25 <= p.riskScore <= 100
      && 3.0 <= p.spoilagePct <= 40.0
  {
  }

  /**
    With no rain, no surge and no delay, the prediction is the baseline,
    every crop's change is zero and labelled low, and there is no advice.
  */
  lemma QuietScenarioIsBaseline(inputs: ScenarioInputs)
    requires inputs.rainDays <= 0 && inputs.demandSurgePct <= 0 && inputs.transportDelayPct <= 0
    ensures Scenario(inputs).predicted == Prediction(5000, 4500, -500, 100.0, 25, 3.0)
    ensures forall i :: 0 <= i < |Scenario(inputs).cropImpacts| ==>
      Scenario(inputs).cropImpacts[i] == CropImpact(Crops[i].name, 0.0, 0.0, LowRisk)
    ensures Scenario(inputs).recommendations == []
  {
    var impacts := ScenarioImpacts(inputs);
    assert impacts == Impacts(1.0, 1.0, 1.0, 1.0, 1.0);
    assert RoundHalfEven(5000.0) == 5000;
    assert RoundHalfEven(4500.0) == 4500;
    assert RoundHalfEven(1000.0) == 1000;
    assert RoundHalfEven(25.0) == 25;
    assert RoundHalfEven(30.0) == 30;
    assert RoundHalfEven(0.0) == 0;
  }

  /** A larger demand surge never predicts less demand. */
  lemma DemandMonotoneInSurge(inputs: ScenarioInputs, surge: int)
    requires inputs.demandSurgePct <= surge
    ensures Scenario(inputs).predicted.demandKg
      <= Scenario(inputs.(demandSurgePct := surge)).predicted.demandKg
  {
    var d1 := ScenarioImpacts(inputs).demand;
    var d2 := ScenarioImpacts(inputs.(demandSurgePct := surge)).demand;
    RoundHalfEvenMonotone(4500.0 * d1, 4500.0 * d2);
  }

  function RecommendationRank(r: Recommendation): int
  {
    match r
    case Shortfall(_) => 0
    case RiskAlert(_) => 1
    case ColdStorage(_) => 2
    case PrepositionTrucks => 3
    case AlertFarmers => 4
  }

  /** The ranks of a list of advice strictly increase. */
  ghost predicate RankedAdvice(recs: seq<Recommendation>)
  {
    forall i, j :: 0 <= i < j < |recs| ==> RecommendationRank(recs[i]) < RecommendationRank(recs[j])
  }

  /** Appending advice of rank `k` after advice of lower ranks keeps the
      ranks increasing. */
  lemma RankedAppend(recs: seq<Recommendation>, guard: bool, item: Recommendation)
    requires RankedAdvice(recs)
    requires forall i :: 0 <= i < |recs| ==> RecommendationRank(recs[i]) < RecommendationRank(item)
    ensures RankedAdvice(AppendIf(recs, guard, item))
    ensures forall i :: 0 <= i < |AppendIf(recs, guard, item)| ==>
      RecommendationRank(AppendIf(recs, guard, item)[i]) <= RecommendationRank(item)
  {
  }

  /**
    Each piece of advice is given exactly when its guard holds and quotes
    the predicted figure.
  */
  lemma RecommendationGuards(p: Prediction, inputs: ScenarioInputs)
    ensures var recs := RecommendationsOf(p, inputs);
      && (Shortfall(p.gapKg) in recs <==> p.gapKg > 500)
      && (RiskAlert(p.riskScore) in recs <==> p.riskScore > 60)
      && (ColdStorage(p.spoilagePct) in recs <==> p.spoilagePct > 10.0)
      && (PrepositionTrucks in recs <==> inputs.rainDays > 2)
      && (AlertFarmers in recs <==> inputs.demandSurgePct > 30)
  {
  }

  /** There are at most five pieces of advice, in a fixed category order. */
  lemma RecommendationOrder(p: Prediction, inputs: ScenarioInputs)
    ensures |RecommendationsOf(p, inputs)| <= 5
    ensures RankedAdvice(RecommendationsOf(p, inputs))
  {
    var shortfall := AppendIf([], p.gapKg > 500, Shortfall(p.gapKg));
    var alert := AppendIf(shortfall, p.riskScore > 60, RiskAlert(p.riskScore));
    var cold := AppendIf(alert, p.spoilagePct > 10.0, ColdStorage(p.spoilagePct));
    var trucks := AppendIf(cold, inputs.rainDays > 2, PrepositionTrucks);
    RankedAppend([], p.gapKg > 500, Shortfall(p.gapKg));
    RankedAppend(shortfall, p.riskScore > 60, RiskAlert(p.riskScore));
    RankedAppend(alert, p.spoilagePct > 10.0, ColdStorage(p.spoilagePct));
    RankedAppend(cold, inputs.rainDays > 2, PrepositionTrucks);
    RankedAppend(trucks, inputs.demandSurgePct > 30, AlertFarmers);
  }

  lemma PositiveScale(a: real, v1: real, v2: real)
    requires 0.0 <= a && v1 <= v2
    ensures a * (1.0 + v1) <= a * (1.0 + v2)
  {
  }

  /** A larger non-negative change is never labelled a lower risk. */
  lemma CropRiskMonotone(c1: real, c2: real)
    requires 0.0 <= c1 <= c2
    ensures CropRiskRank(CropRiskOf(c1)) <= CropRiskRank(CropRiskOf(c2))
  {
  }

  /**
    The crop table has one entry per crop among the first six, in catalogue
    order, all with the same supply change.
  */
  lemma CropImpactTableShape(impacts: Impacts)
    ensures var table := CropImpactsOf(impacts);
      && |table| == 6
      && (forall i :: 0 <= i < 6 ==> table[i].crop == Crops[i].name)
      && (forall i :: 0 <= i < 6 ==> table[i].supplyChangePct == table[0].supplyChangePct)
  {
  }

  /** When prices do not fall, a crop's price change is non-negative and
      one with a larger volatility is never labelled a lower risk. */
  lemma CropRiskFollowsVolatility(priceImpact: real, v1: real, v2: real)
    requires priceImpact >= 1.0
    requires 0.0 <= v1 <= v2
    ensures PriceChangePct(priceImpact, v1) >= 0.0
    ensures CropRiskRank(CropRiskOf(PriceChangePct(priceImpact, v1)))
      <= CropRiskRank(CropRiskOf(PriceChangePct(priceImpact, v2)))
  {
    PositiveScale((priceImpact - 1.0) * 100.0, -1.0, v1);
    PositiveScale((priceImpact - 1.0) * 100.0, v1, v2);
    RoundTenthsAtLeast((priceImpact - 1.0) * 100.0 * (1.0 + v1), 0);
    RoundTenthsMonotone((priceImpact - 1.0) * 100.0 * (1.0 + v1), (priceImpact - 1.0) * 100.0 * (1.0 + v2));
    CropRiskMonotone(PriceChangePct(priceImpact, v1), PriceChangePct(priceImpact, v2));
  }

  /** When prices do not fall, no row of the crop table shows a negative
      price change, and a more volatile crop is never labelled a lower risk. */
  lemma CropTableFollowsVolatility(impacts: Impacts, i: int, j: int)
    requires impacts.price >= 1.0
    requires 0 <= i < 6 && 0 <= j < 6 && Crops[i].volatility <= Crops[j].volatility
    ensures CropImpactsOf(impacts)[i].priceChangePct >= 0.0
    ensures CropRiskRank(CropImpactsOf(impacts)[i].risk) <= CropRiskRank(CropImpactsOf(impacts)[j].risk)
  {
    var ci, cj := Crops[i], Crops[j];
    assert ci.volatility >= 0.0;
    assert CropImpactsOf(impacts)[i] == CropImpactOf(ci, impacts);
    assert CropImpactsOf(impacts)[j] == CropImpactOf(cj, impacts);
    CropRiskFollowsVolatility(impacts.price, ci.volatility, cj.volatility);
  }

  /** Three days of rain: supply falls to 3200 kg, leaving a 1300 kg shortfall. */
  lemma ThreeRainyDays()
    ensures var rep := Scenario(ScenarioInputs(3, 0, 0));
      && rep.predicted == Prediction(3200, 4500, 1300, 124.0, 36, 4.8)
      && rep.recommendations == [Shortfall(1300), PrepositionTrucks]
  {
    assert RoundHalfEven(3200.0) == 3200;
    assert RoundHalfEven(4500.0) == 4500;
    assert RoundHalfEven(1240.0) == 1240;
    assert RoundHalfEven(36.25) == 36;
    assert RoundHalfEven(48.0) == 48;
  }
}
