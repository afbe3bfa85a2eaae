/**
  The explainer of the mandi-ranking pipeline (`generateReasoning`): four
  reasons for one ranked mandi, each an ordinal comparison of one of its
  metrics against reference points of the whole ranked list. Reasons are
  tagged values carrying the number they quote; their English wording is
  presentation.
*/
module MandiReasoning {
  import opened Numeric
  import opened MandiUtils
  import opened MandiRanking

  datatype Reason =
    | NearestMandi(km: real)
    | CloseProximity(km: real)
    | KmAway(km: real)
    | LowestPrice(pricePerKg: real)
    | BelowAveragePrice(pricePerKg: real)
    | PremiumPricing(pricePerKg: real)
    | ExcellentFreshness(days: int)
    | GoodShelfLife(days: int)
    | ShortShelfLife(days: int)
    | HighProfitPotential(profit: real)
    | GoodProfitMargin(profit: real)
    | ModerateProfit(profit: real)

  function AllMetrics(all: seq<RankedMandi>): seq<MandiMetrics>
  {
    MetricsOf(all)
  }

  /** The set-wide reference points the explainer compares against. */
  function NearestDistance(all: seq<RankedMandi>): real
    requires |all| > 0
  {
    MinOf(Distances(AllMetrics(all)))
  }

  function LowestPriceOf(all: seq<RankedMandi>): real
    requires |all| > 0
  {
    MinOf(Prices(AllMetrics(all)))
  }

  function AveragePrice(all: seq<RankedMandi>): real
    requires |all| > 0
  {
    Mean(Prices(AllMetrics(all)))
  }

  function MaxShelfLife(all: seq<RankedMandi>): real
    requires |all| > 0
  {
    MaxOf(ShelfLives(AllMetrics(all)))
  }

  function MaxProfit(all: seq<RankedMandi>): real
    requires |all| > 0
  {
    MaxOf(Profits(AllMetrics(all)))
  }

  /**
    `generateReasoning(mandi, rank, allMandis)`; `rank` is not used. On an
    empty list the reference points are the IEEE values of an empty
    `Math.min` (+Infinity), `Math.max` (-Infinity) and `0 / 0` (NaN), so
    every comparison falls to a fixed outcome: close proximity, premium
    pricing, excellent freshness and high profit.
  */
  method GenerateReasoning(mandi: RankedMandi, rank: int, allMandis: seq<RankedMandi>)
    returns (reasons: seq<Reason>)
    ensures |reasons| == 4
    ensures |allMandis| == 0 ==>
      var m := mandi.metrics;
      reasons == [CloseProximity(m.distance), PremiumPricing(m.pricePerKg),
                  ExcellentFreshness(m.shelfLife), HighProfitPotential(m.profit)]
    ensures |allMandis| > 0 ==>
      var d, nearest := mandi.metrics.distance, NearestDistance(allMandis);
      && (reasons[0] == NearestMandi(d) <==> d == nearest)
      && (reasons[0] == CloseProximity(d) <==> d != nearest && d < nearest * 1.5)
      && (reasons[0] == KmAway(d) <==> d != nearest && d >= nearest * 1.5)
    ensures |allMandis| > 0 ==>
      var p := mandi.metrics.pricePerKg;
      && (reasons[1] == LowestPrice(p) <==> p == LowestPriceOf(allMandis))
      && (reasons[1] == BelowAveragePrice(p) <==> p != LowestPriceOf(allMandis) && p < AveragePrice(allMandis))
      && (reasons[1] == PremiumPricing(p) <==> p != LowestPriceOf(allMandis) && p >= AveragePrice(allMandis))
    ensures |allMandis| > 0 ==>
      var days := mandi.metrics.shelfLife;
      && (reasons[2] == ExcellentFreshness(days) <==> days as real >= MaxShelfLife(allMandis) * 0.8)
      && (reasons[2] == GoodShelfLife(days) <==> days as real < MaxShelfLife(allMandis) * 0.8 && days >= 3)
      && (reasons[2] == ShortShelfLife(days) <==> days as real < MaxShelfLife(allMandis) * 0.8 && days < 3)
    ensures |allMandis| > 0 ==>
      var profit := mandi.metrics.profit;
      && (reasons[3] == HighProfitPotential(profit) <==> profit >= MaxProfit(allMandis) * 0.9)
      && (reasons[3] == GoodProfitMargin(profit) <==>
            profit < MaxProfit(allMandis) * 0.9 && profit >= MaxProfit(allMandis) * 0.7)
      && (reasons[3] == ModerateProfit(profit) <==>
            profit < MaxProfit(allMandis) * 0.9 && profit < MaxProfit(allMandis) * 0.7)
  {
    var m := mandi.metrics;
    if |allMandis| == 0 {
      reasons := [CloseProximity(m.distance), PremiumPricing(m.pricePerKg),
                  ExcellentFreshness(m.shelfLife), HighProfitPotential(m.profit)];
      return;
    }
    // The four reasons are pushed in this order: distance, price, shelf
    // life, profit.
    var distanceReason: Reason;
    var nearestDistance := NearestDistance(allMandis);
    if m.distance == nearestDistance {
      distanceReason := NearestMandi(m.distance);
    } else if m.distance < nearestDistance * 1.5 {
      distanceReason := CloseProximity(m.distance);
    } else {
      distanceReason := KmAway(m.distance);
    }

    var priceReason: Reason;
    var lowestPrice := LowestPriceOf(allMandis);
    var avgPrice := AveragePrice(allMandis);
    if m.pricePerKg == lowestPrice {
      priceReason := LowestPrice(m.pricePerKg);
    } else if m.pricePerKg < avgPrice {
      priceReason := BelowAveragePrice(m.pricePerKg);
    } else {
      priceReason := PremiumPricing(m.pricePerKg);
    }

    var shelfLifeReason: Reason;
    var maxShelfLife := MaxShelfLife(allMandis);
    if m.shelfLife as real >= maxShelfLife * 0.8 {
      shelfLifeReason := ExcellentFreshness(m.shelfLife);
    } else if m.shelfLife >= 3 {
      shelfLifeReason := GoodShelfLife(m.shelfLife);
    } else {
      shelfLifeReason := ShortShelfLife(m.shelfLife);
    }

    var profitReason: Reason;
    var maxProfit := MaxProfit(allMandis);
    if m.profit >= maxProfit * 0.9 {
      profitReason := HighProfitPotential(m.profit);
    } else if m.profit >= maxProfit * 0.7 {
      profitReason := GoodProfitMargin(m.profit);
    } else {
      profitReason := ModerateProfit(m.profit);
    }

    reasons := [distanceReason, priceReason, shelfLifeReason, profitReason];
  }

  // ---------------------------------------------------------------------
  // What the reference points guarantee across the ranked list

  /** Some mandi of the list is always the nearest one, and no mandi of
      the list is nearer than the reference distance. */
  lemma SomeMandiIsNearest(all: seq<RankedMandi>)
    requires |all| > 0
    ensures exists i :: 0 <= i < |all| && all[i].metrics.distance == NearestDistance(all)
    ensures forall i :: 0 <= i < |all| ==> NearestDistance(all) <= all[i].metrics.distance
  {
    var ds := Distances(AllMetrics(all));
    var i :| 0 <= i < |ds| && ds[i] == MinOf(ds);
    assert all[i].metrics.distance == NearestDistance(all);
  }

  /** Some mandi of the list always has the lowest price. */
  lemma SomeMandiIsCheapest(all: seq<RankedMandi>)
    requires |all| > 0
    ensures exists i :: 0 <= i < |all| && all[i].metrics.pricePerKg == LowestPriceOf(all)
  {
    var ps := Prices(AllMetrics(all));
    var i :| 0 <= i < |ps| && ps[i] == MinOf(ps);
    assert all[i].metrics.pricePerKg == LowestPriceOf(all);
  }

  /** A price strictly below the average is never the most expensive of the
      list, and when the prices are not all equal, the most expensive mandi
      of the list is labelled premium (its price is not the lowest and not
      below the average). */
  lemma MostExpensiveIsPremium(all: seq<RankedMandi>, i: int)
    requires 0 <= i < |all|
    requires forall k :: 0 <= k < |all| ==> all[k].metrics.pricePerKg <= all[i].metrics.pricePerKg
    requires exists k :: 0 <= k < |all| && all[k].metrics.pricePerKg != all[i].metrics.pricePerKg
    ensures all[i].metrics.pricePerKg != LowestPriceOf(all)
    ensures all[i].metrics.pricePerKg >= AveragePrice(all)
  {
    var ps := Prices(AllMetrics(all));
    MeanAtMost(ps, all[i].metrics.pricePerKg);
    var k :| 0 <= k < |all| && all[k].metrics.pricePerKg != all[i].metrics.pricePerKg;
    assert ps[k] < ps[i];
  }

  /** With non-negative shelf lives, the freshest mandi of the list is
      always labelled excellent. */
  lemma FreshestIsExcellent(all: seq<RankedMandi>, i: int)
    requires 0 <= i < |all|
    requires forall k :: 0 <= k < |all| ==> 0 <= all[k].metrics.shelfLife <= all[i].metrics.shelfLife
    ensures all[i].metrics.shelfLife as real >= MaxShelfLife(all) * 0.8
  {
    var ss := ShelfLives(AllMetrics(all));
    assert ss[i] == MaxOf(ss);
  }

  /** When the best profit of the list is non-negative, the most profitable
      mandi is labelled high-profit; when every mandi loses money, no mandi
      is: each is labelled moderate, the best one included. */
  lemma HighProfitNeedsNonNegativeMaximum(all: seq<RankedMandi>, i: int)
    requires 0 <= i < |all|
    requires forall k :: 0 <= k < |all| ==> all[k].metrics.profit <= all[i].metrics.profit
    ensures all[i].metrics.profit >= 0.0 ==> all[i].metrics.profit >= MaxProfit(all) * 0.9
    ensures all[i].metrics.profit < 0.0 ==>
      forall k :: 0 <= k < |all| ==> all[k].metrics.profit < MaxProfit(all) * 0.7
  {
    var ps := Profits(AllMetrics(all));
    assert ps[i] == MaxOf(ps);
  }
}
