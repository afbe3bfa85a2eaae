/**
  The ranker of the mandi-ranking pipeline (`rankMandis`): a stable sort of a
  copy of the markets by one of four single keys, or, in the default balanced
  mode, by a 40/30/20/10 blend of four sub-scores normalised against the
  maxima of the whole input.
*/
module MandiRanking {
  import opened Wrappers
  import opened Numeric
  import opened MandiUtils

  /** The ranking modes; every unrecognised key selects `Balanced`. */
  datatype SortMode = ByDistance | ByPrice | ByProfit | ByShelfLife | Balanced

  /** The `switch (sortBy)` with its `default` arm folded into `balanced`. */
  function ParseSortMode(sortBy: string): (mode: SortMode)
    ensures mode == ByDistance <==> sortBy == "distance"
    ensures mode == ByPrice <==> sortBy == "price"
    ensures mode == ByProfit <==> sortBy == "profit"
    ensures mode == ByShelfLife <==> sortBy == "shelfLife"
    ensures mode == Balanced <==> sortBy !in {"distance", "price", "profit", "shelfLife"}
  {
    if sortBy == "distance" then ByDistance
    else if sortBy == "price" then ByPrice
    else if sortBy == "profit" then ByProfit
    else if sortBy == "shelfLife" then ByShelfLife
    else Balanced
  }

  /** The rounded scores attached to a mandi in balanced mode. */
  datatype Scores = Scores(
    score: int,
    distanceScore: int,
    priceScore: int,
    shelfLifeScore: int,
    profitScore: int)

  /** A ranked mandi; `scores` is present exactly in balanced mode. */
  datatype RankedMandi = RankedMandi(metrics: MandiMetrics, scores: Option<Scores>)

  // ---------------------------------------------------------------------
  // Balanced scoring

  function Distances(ms: seq<MandiMetrics>): (r: seq<real>)
    ensures |r| == |ms| && forall i :: 0 <= i < |ms| ==> r[i] == ms[i].distance
  {
    seq(|ms|, i requires 0 <= i < |ms| => ms[i].distance)
  }

  function Prices(ms: seq<MandiMetrics>): (r: seq<real>)
    ensures |r| == |ms| && forall i :: 0 <= i < |ms| ==> r[i] == ms[i].pricePerKg
  {
    seq(|ms|, i requires 0 <= i < |ms| => ms[i].pricePerKg)
  }

  function ShelfLives(ms: seq<MandiMetrics>): (r: seq<real>)
    ensures |r| == |ms| && forall i :: 0 <= i < |ms| ==> r[i] == ms[i].shelfLife as real
  {
    seq(|ms|, i requires 0 <= i < |ms| => ms[i].shelfLife as real)
  }

  function Profits(ms: seq<MandiMetrics>): (r: seq<real>)
    ensures |r| == |ms| && forall i :: 0 <= i < |ms| ==> r[i] == ms[i].profit
  {
    seq(|ms|, i requires 0 <= i < |ms| => ms[i].profit)
  }

  /** The four set-wide maxima the balanced mode normalises against. */
  datatype Maxima = Maxima(distance: real, price: real, shelfLife: real, profit: real)

  function MaximaOf(ms: seq<MandiMetrics>): Maxima
    requires |ms| > 0
  {
    Maxima(MaxOf(Distances(ms)), MaxOf(Prices(ms)), MaxOf(ShelfLives(ms)), MaxOf(Profits(ms)))
  }

  /** The source divides by every maximum without a guard. */
  predicate NoZeroMaximum(mx: Maxima)
  {
    mx.distance != 0.0 && mx.price != 0.0 && mx.shelfLife != 0.0 && mx.profit != 0.0
  }

  /** The unrounded sub-scores of one mandi, each on a 0-100 scale. */
  datatype SubScores = SubScores(distance: real, price: real, shelfLife: real, profit: real)

  function Normalise(m: MandiMetrics, mx: Maxima): SubScores
    requires NoZeroMaximum(mx)
  {
    SubScores(
      (mx.distance - m.distance) / mx.distance * 100.0,
      (mx.price - m.pricePerKg) / mx.price * 100.0,
      m.shelfLife as real / mx.shelfLife * 100.0,
      m.profit / mx.profit * 100.0)
  }

  /** The 40/30/20/10 blend, before rounding. */
  function Composite(n: SubScores): real
  {
    n.distance * 0.4 + n.price * 0.3 + n.shelfLife * 0.2 + n.profit * 0.1
  }

  function BalancedScores(m: MandiMetrics, mx: Maxima): Scores
    requires NoZeroMaximum(mx)
  {
    var n := Normalise(m, mx);
    Scores(JsRound(Composite(n)), JsRound(n.distance), JsRound(n.price), JsRound(n.shelfLife), JsRound(n.profit))
  }

  /** The list the sort starts from: a copy of the input, each entry scored
      against the whole input's maxima in balanced mode. */
  function Prepare(ms: seq<MandiMetrics>, mode: SortMode): seq<RankedMandi>
    requires mode == Balanced && |ms| > 0 ==> NoZeroMaximum(MaximaOf(ms))
  {
    if mode == Balanced && |ms| > 0 then
      var mx := MaximaOf(ms);
      seq(|ms|, i requires 0 <= i < |ms| => RankedMandi(ms[i], Some(BalancedScores(ms[i], mx))))
    else
      seq(|ms|, i requires 0 <= i < |ms| => RankedMandi(ms[i], None))
  }

  /** `num / den * 100` lies in [0, 100] when `0 <= num <= den`. */
  lemma PercentBounded(num: real, den: real)
    requires 0.0 <= num <= den && den > 0.0
    ensures 0.0 <= num / den * 100.0 <= 100.0
  {
    assert num / den <= 1.0;
  }

  /** A mandi whose metrics lie between 0 and positive maxima has every
      sub-score, and the unrounded blend, in [0, 100]. */
  lemma SubScoresBounded(m: MandiMetrics, mx: Maxima)
    requires 0.0 <= m.distance <= mx.distance && 0.0 <= m.pricePerKg <= mx.price
    requires 0.0 <= m.shelfLife as real <= mx.shelfLife && 0.0 <= m.profit <= mx.profit
    requires NoZeroMaximum(mx)
    ensures var n := Normalise(m, mx);
      && 0.0 <= n.distance <= 100.0 && 0.0 <= n.price <= 100.0
      && 0.0 <= n.shelfLife <= 100.0 && 0.0 <= n.profit <= 100.0
      && 0.0 <= Composite(n) <= 100.0
  {
    PercentBounded(mx.distance - m.distance, mx.distance);
    PercentBounded(mx.price - m.pricePerKg, mx.price);
    PercentBounded(m.shelfLife as real, mx.shelfLife);
    PercentBounded(m.profit, mx.profit);
  }

  /** With non-negative metrics and positive maxima, each sub-score and the
      unrounded blend of a mandi of the input lie in [0, 100]. */
  lemma NormalisedBounded(ms: seq<MandiMetrics>, i: int)
    requires 0 <= i < |ms|
    requires forall k :: 0 <= k < |ms| ==>
      ms[k].distance >= 0.0 && ms[k].pricePerKg >= 0.0 && ms[k].shelfLife >= 0 && ms[k].profit >= 0.0
    requires NoZeroMaximum(MaximaOf(ms))
    ensures var n := Normalise(ms[i], MaximaOf(ms));
      && 0.0 <= n.distance <= 100.0 && 0.0 <= n.price <= 100.0
      && 0.0 <= n.shelfLife <= 100.0 && 0.0 <= n.profit <= 100.0
      && 0.0 <= Composite(n) <= 100.0
  {
    var mx, m := MaximaOf(ms), ms[i];
    assert Distances(ms)[i] == m.distance && Prices(ms)[i] == m.pricePerKg;
    assert ShelfLives(ms)[i] == m.shelfLife as real && Profits(ms)[i] == m.profit;
    SubScoresBounded(m, mx);
  }

  /** Under the same conditions, every rounded score lies in [0, 100]. */
  lemma BalancedScoresBounded(ms: seq<MandiMetrics>, i: int)
    requires 0 <= i < |ms|
    requires forall k :: 0 <= k < |ms| ==>
      ms[k].distance >= 0.0 && ms[k].pricePerKg >= 0.0 && ms[k].shelfLife >= 0 && ms[k].profit >= 0.0
    requires NoZeroMaximum(MaximaOf(ms))
    ensures var s := BalancedScores(ms[i], MaximaOf(ms));
      && 0 <= s.score <= 100 && 0 <= s.distanceScore <= 100 && 0 <= s.priceScore <= 100
      && 0 <= s.shelfLifeScore <= 100 && 0 <= s.profitScore <= 100
  {
    NormalisedBounded(ms, i);
    var n := Normalise(ms[i], MaximaOf(ms));
    JsRoundWithin(Composite(n), 0, 100);
    JsRoundWithin(n.distance, 0, 100);
    JsRoundWithin(n.price, 0, 100);
    JsRoundWithin(n.shelfLife, 0, 100);
    JsRoundWithin(n.profit, 0, 100);
  }

  /** The mandi farthest away scores 0 on distance and one at distance 0
      scores 100; the most expensive scores 0 on price; the freshest and the
      most profitable score 100 on shelf life and profit. */
  lemma BalancedScoresAtExtremes(m: MandiMetrics, mx: Maxima)
    requires NoZeroMaximum(mx)
    ensures m.distance == mx.distance ==> BalancedScores(m, mx).distanceScore == 0
    ensures m.distance == 0.0 ==> BalancedScores(m, mx).distanceScore == 100
    ensures m.pricePerKg == mx.price ==> BalancedScores(m, mx).priceScore == 0
    ensures m.shelfLife as real == mx.shelfLife ==> BalancedScores(m, mx).shelfLifeScore == 100
    ensures m.profit == mx.profit ==> BalancedScores(m, mx).profitScore == 100
  {
    var n := Normalise(m, mx);
    if m.distance == mx.distance { SelfPercent(mx.distance); JsRoundOfInt(0); }
    if m.distance == 0.0 { SelfPercent(mx.distance); JsRoundOfInt(100); }
    if m.pricePerKg == mx.price { SelfPercent(mx.price); JsRoundOfInt(0); }
    if m.shelfLife as real == mx.shelfLife { SelfPercent(mx.shelfLife); JsRoundOfInt(100); }
    if m.profit == mx.profit { SelfPercent(mx.profit); JsRoundOfInt(100); }
  }

  lemma SelfPercent(x: real)
    requires x != 0.0
    ensures (x - x) / x * 100.0 == 0.0
    ensures (x - 0.0) / x * 100.0 == 100.0
    ensures x / x * 100.0 == 100.0
  {
  }

  // ---------------------------------------------------------------------
  // Sorting

  /** The comparator of each mode as an ascending key: `a.distance - b.distance`,
      `a.pricePerKg - b.pricePerKg`, `b.profit - a.profit`,
      `b.shelfLife - a.shelfLife`, `b.score - a.score`. */
  function SortKey(mode: SortMode, r: RankedMandi): real
  {
    match mode
    case ByDistance => r.metrics.distance
    case ByPrice => r.metrics.pricePerKg
    case ByProfit => -r.metrics.profit
    case ByShelfLife => -(r.metrics.shelfLife as real)
    case Balanced => if r.scores.Some? then -(r.scores.value.score as real) else 0.0
  }

  /** The order each mode promises, stated on the mandi fields themselves. */
  predicate InOrder(mode: SortMode, a: RankedMandi, b: RankedMandi)
  {
    match mode
    case ByDistance => a.metrics.distance <= b.metrics.distance
    case ByPrice => a.metrics.pricePerKg <= b.metrics.pricePerKg
    case ByProfit => a.metrics.profit >= b.metrics.profit
    case ByShelfLife => a.metrics.shelfLife >= b.metrics.shelfLife
    case Balanced => a.scores.Some? && b.scores.Some? && a.scores.value.score >= b.scores.value.score
  }

  /** Comparing keys is comparing the fields each mode names. */
  lemma KeyOrderMeansInOrder(mode: SortMode, a: RankedMandi, b: RankedMandi)
    requires mode == Balanced ==> a.scores.Some? && b.scores.Some?
    ensures SortKey(mode, a) <= SortKey(mode, b) <==> InOrder(mode, a, b)
  {
  }

  ghost predicate SortedBy(s: seq<RankedMandi>, mode: SortMode)
  {
    forall i, j :: 0 <= i < j < |s| ==> SortKey(mode, s[i]) <= SortKey(mode, s[j])
  }

  /** Inserts `x` into `sorted` after every element whose key is not larger. */
  function Insert(sorted: seq<RankedMandi>, x: RankedMandi, mode: SortMode): seq<RankedMandi>
  {
    if |sorted| == 0 || SortKey(mode, sorted[|sorted| - 1]) <= SortKey(mode, x) then sorted + [x]
    else Insert(sorted[..|sorted| - 1], x, mode) + [sorted[|sorted| - 1]]
  }

  /** The stable ascending sort by `SortKey`, the order `Array.prototype.sort`
      produces with the mode's comparator. */
  function StableSort(s: seq<RankedMandi>, mode: SortMode): seq<RankedMandi>
  {
    if |s| == 0 then [] else Insert(StableSort(s[..|s| - 1], mode), s[|s| - 1], mode)
  }

  /** The elements of `s` whose key equals `c`, in order. */
  function WithKey(s: seq<RankedMandi>, mode: SortMode, c: real): seq<RankedMandi>
  {
    if |s| == 0 then []
    else WithKey(s[..|s| - 1], mode, c) + (if SortKey(mode, s[|s| - 1]) == c then [s[|s| - 1]] else [])
  }

  function MetricsOf(s: seq<RankedMandi>): (r: seq<MandiMetrics>)
    ensures |r| == |s| && forall i :: 0 <= i < |s| ==> r[i] == s[i].metrics
  {
    seq(|s|, i requires 0 <= i < |s| => s[i].metrics)
  }

  /** Insertion adds exactly `x`. */
  lemma {:induction false} InsertPermutes(sorted: seq<RankedMandi>, x: RankedMandi, mode: SortMode)
    ensures multiset(Insert(sorted, x, mode)) == multiset(sorted) + multiset{x}
  {
    if |sorted| > 0 && SortKey(mode, sorted[|sorted| - 1]) > SortKey(mode, x) {
      var init, last := sorted[..|sorted| - 1], sorted[|sorted| - 1];
      InsertPermutes(init, x, mode);
      assert sorted == init + [last];
    }
  }

  /** Insertion into a sorted list keeps it sorted. */
  lemma {:induction false} InsertSorted(sorted: seq<RankedMandi>, x: RankedMandi, mode: SortMode)
    requires SortedBy(sorted, mode)
    ensures SortedBy(Insert(sorted, x, mode), mode)
  {
    if |sorted| > 0 && SortKey(mode, sorted[|sorted| - 1]) > SortKey(mode, x) {
      var init, last := sorted[..|sorted| - 1], sorted[|sorted| - 1];
      InsertSorted(init, x, mode);
      InsertPermutes(init, x, mode);
      var ins := Insert(init, x, mode);
      forall k | 0 <= k < |ins|
        ensures SortKey(mode, ins[k]) <= SortKey(mode, last)
      {
        assert ins[k] in multiset(init) + multiset{x};
        if ins[k] != x {
          assert ins[k] in init;
        }
      }
      SortedAppend(ins, last, mode);
    } else {
      SortedAppend(sorted, x, mode);
    }
  }

  /** Appending an element whose key is at least every key keeps a list
      sorted. */
  lemma SortedAppend(s: seq<RankedMandi>, y: RankedMandi, mode: SortMode)
    requires SortedBy(s, mode)
    requires forall k :: 0 <= k < |s| ==> SortKey(mode, s[k]) <= SortKey(mode, y)
    ensures SortedBy(s + [y], mode)
  {
  }

  lemma WithKeyAppend(s: seq<RankedMandi>, x: RankedMandi, mode: SortMode, c: real)
    ensures WithKey(s + [x], mode, c) == WithKey(s, mode, c) + (if SortKey(mode, x) == c then [x] else [])
  {
    assert (s + [x])[..|s|] == s;
  }

  /** Insertion moves only `x`: for each key value, the elements with that
      key keep their relative order, and `x` comes after its equals. */
  lemma {:induction false} InsertKeepsTies(sorted: seq<RankedMandi>, x: RankedMandi, mode: SortMode, c: real)
    ensures WithKey(Insert(sorted, x, mode), mode, c) == WithKey(sorted + [x], mode, c)
  {
    if |sorted| > 0 && SortKey(mode, sorted[|sorted| - 1]) > SortKey(mode, x) {
      var init, last := sorted[..|sorted| - 1], sorted[|sorted| - 1];
      assert sorted == init + [last];
      InsertKeepsTies(init, x, mode, c);
      InsertPastLargerKeepsTies(init, last, x, mode, c);
    } else {
      WithKeyAppend(sorted, x, mode, c);
    }
  }

  /** The step of `InsertKeepsTies` where `x` moves in front of a larger
      last element: at most one of the two carries the key `c`. */
  lemma InsertPastLargerKeepsTies(init: seq<RankedMandi>, last: RankedMandi, x: RankedMandi, mode: SortMode, c: real)
    requires SortKey(mode, last) > SortKey(mode, x)
    requires WithKey(Insert(init, x, mode), mode, c) == WithKey(init + [x], mode, c)
    ensures WithKey(Insert(init + [last], x, mode), mode, c) == WithKey(init + [last] + [x], mode, c)
  {
    var sorted := init + [last];
    assert sorted[..|sorted| - 1] == init;
    var ins := Insert(init, x, mode);
    assert Insert(sorted, x, mode) == ins + [last];
    WithKeyAppend(init, x, mode, c);
    WithKeyAppend(init, last, mode, c);
    WithKeyAppend(ins, last, mode, c);
    WithKeyAppend(sorted, x, mode, c);
    var w := WithKey(init, mode, c);
    var tx := if SortKey(mode, x) == c then [x] else [];
    var tlast := if SortKey(mode, last) == c then [last] else [];
    assert tx == [] || tlast == [];
    SwapEmpty(w, tx, tlast);
  }

  lemma SwapEmpty<T>(w: seq<T>, a: seq<T>, b: seq<T>)
    requires a == [] || b == []
    ensures w + a + b == w + b + a
  {
  }

  /** The sort returns a permutation of its input in ascending key order. */
  lemma {:induction false} StableSortSortsAndPermutes(s: seq<RankedMandi>, mode: SortMode)
    ensures SortedBy(StableSort(s, mode), mode)
    ensures multiset(StableSort(s, mode)) == multiset(s)
  {
    if |s| > 0 {
      var init := s[..|s| - 1];
      StableSortSortsAndPermutes(init, mode);
      InsertSorted(StableSort(init, mode), s[|s| - 1], mode);
      InsertPermutes(StableSort(init, mode), s[|s| - 1], mode);
      assert s == init + [s[|s| - 1]];
    }
  }

  /** The sort is stable: the elements sharing any key value appear in the
      output in the same order as in the input. */
  lemma {:induction false} StableSortKeepsTies(s: seq<RankedMandi>, mode: SortMode, c: real)
    ensures WithKey(StableSort(s, mode), mode, c) == WithKey(s, mode, c)
  {
    if |s| > 0 {
      var init, last := s[..|s| - 1], s[|s| - 1];
      StableSortKeepsTies(init, mode, c);
      InsertKeepsTies(StableSort(init, mode), last, mode, c);
      WithKeyAppend(StableSort(init, mode), last, mode, c);
    }
  }

  lemma MetricsOfAppend(s: seq<RankedMandi>, x: RankedMandi)
    ensures MetricsOf(s + [x]) == MetricsOf(s) + [x.metrics]
  {
  }

  /** Insertion adds exactly the metrics of `x`. */
  lemma {:induction false} InsertPermutesMetrics(sorted: seq<RankedMandi>, x: RankedMandi, mode: SortMode)
    ensures multiset(MetricsOf(Insert(sorted, x, mode))) == multiset(MetricsOf(sorted)) + multiset{x.metrics}
  {
    if |sorted| > 0 && SortKey(mode, sorted[|sorted| - 1]) > SortKey(mode, x) {
      var init, last := sorted[..|sorted| - 1], sorted[|sorted| - 1];
      InsertPermutesMetrics(init, x, mode);
      assert sorted == init + [last];
      MetricsOfAppend(init, last);
      MetricsOfAppend(Insert(init, x, mode), last);
    } else {
      MetricsOfAppend(sorted, x);
    }
  }

  /** The sorted list carries the same metrics as its input, with multiplicity. */
  lemma {:induction false} StableSortPermutesMetrics(s: seq<RankedMandi>, mode: SortMode)
    ensures multiset(MetricsOf(StableSort(s, mode))) == multiset(MetricsOf(s))
  {
    if |s| > 0 {
      var init := s[..|s| - 1];
      StableSortPermutesMetrics(init, mode);
      InsertPermutesMetrics(StableSort(init, mode), s[|s| - 1], mode);
      assert s == init + [s[|s| - 1]];
      MetricsOfAppend(init, s[|s| - 1]);
    }
  }

  /** Inserting at position `j` is `Insert` when every element from `j` on
      has a larger key than `x` and the one before `j` does not. */
  lemma {:induction false} InsertAt(sorted: seq<RankedMandi>, x: RankedMandi, j: int, mode: SortMode)
    requires 0 <= j <= |sorted|
    requires forall k :: j <= k < |sorted| ==> SortKey(mode, sorted[k]) > SortKey(mode, x)
    requires j > 0 ==> SortKey(mode, sorted[j - 1]) <= SortKey(mode, x)
    ensures Insert(sorted, x, mode) == sorted[..j] + [x] + sorted[j..]
  {
    if j < |sorted| {
      var init := sorted[..|sorted| - 1];
      InsertAt(init, x, j, mode);
      assert init[..j] == sorted[..j];
      assert sorted[j..] == init[j..] + [sorted[|sorted| - 1]];
    }
  }

  /** The shifting loop of one insertion pass: moves the elements of the
      prefix `a[..i]` with a larger key than `a[i]` one place right and
      returns the gap they leave. */
  method ShiftLarger(a: array<RankedMandi>, i: int, mode: SortMode) returns (j: int)
    requires 0 <= i < a.Length
    modifies a
    ensures 0 <= j <= i
    ensures forall k :: 0 <= k < j ==> a[k] == old(a[k])
    ensures forall k :: j < k <= i ==> a[k] == old(a[k - 1])
    ensures forall k :: j <= k < i ==> SortKey(mode, old(a[k])) > SortKey(mode, old(a[i]))
    ensures j > 0 ==> SortKey(mode, old(a[j - 1])) <= SortKey(mode, old(a[i]))
    ensures forall k :: i < k < a.Length ==> a[k] == old(a[k])
  {
    var x := a[i];
    j := i;
    while j > 0 && SortKey(mode, a[j - 1]) > SortKey(mode, x)
      invariant 0 <= j <= i
      invariant forall k :: 0 <= k < j ==> a[k] == old(a[k])
      invariant forall k :: j < k <= i ==> a[k] == old(a[k - 1])
      invariant forall k :: j <= k < i ==> SortKey(mode, old(a[k])) > SortKey(mode, x)
      invariant forall k :: i < k < a.Length ==> a[k] == old(a[k])
    {
      a[j] := a[j - 1];
      j := j - 1;
    }
  }

  /** A list that agrees with `sorted` before `j`, holds `x` at `j` and
      agrees with `sorted` shifted by one after `j` is `sorted` with `x`
      inserted at `j`. */
  lemma GapFilled(result: seq<RankedMandi>, sorted: seq<RankedMandi>, x: RankedMandi, j: int)
    requires 0 <= j <= |sorted| && |result| == |sorted| + 1
    requires forall k :: 0 <= k < j ==> result[k] == sorted[k]
    requires result[j] == x
    requires forall k :: j < k <= |sorted| ==> result[k] == sorted[k - 1]
    ensures result == sorted[..j] + [x] + sorted[j..]
  {
  }

  /** One pass of the insertion sort: `a[i]` goes into the gap that
      `ShiftLarger` leaves, which is where `Insert` puts it. */
  method InsertNext(a: array<RankedMandi>, i: int, mode: SortMode)
    requires 0 <= i < a.Length
    modifies a
    ensures a[..i + 1] == Insert(old(a[..i]), old(a[i]), mode)
    ensures a[i + 1..] == old(a[i + 1..])
  {
    ghost var sorted := a[..i];
    ghost var rest := a[i + 1..];
    var x := a[i];
    var j := ShiftLarger(a, i, mode);
    a[j] := x;
    GapFilled(a[..i + 1], sorted, x, j);
    InsertAt(sorted, x, j, mode);
    assert a[i + 1..] == rest;
  }

  /** `ranked.sort(comparator)`: an insertion sort in place, stable because
      an element moves left only past strictly larger keys. */
  method SortInPlace(a: array<RankedMandi>, mode: SortMode)
    modifies a
    ensures a[..] == StableSort(old(a[..]), mode)
  {
    ghost var input := a[..];
    var i := 0;
    while i < a.Length
      invariant 0 <= i <= a.Length
      invariant a[..i] == StableSort(input[..i], mode)
      invariant a[i..] == input[i..]
    {
      ghost var before := a[..];
      InsertNext(a, i, mode);
      SortStep(input, i, before, a[..], mode);
      i := i + 1;
    }
    assert input[..a.Length] == input;
  }

  /** One pass of `SortInPlace` extends the sorted prefix by one input
      element and leaves the unsorted suffix alone. */
  lemma SortStep(input: seq<RankedMandi>, i: int, before: seq<RankedMandi>, after: seq<RankedMandi>, mode: SortMode)
    requires 0 <= i < |input| == |before| == |after|
    requires before[..i] == StableSort(input[..i], mode) && before[i..] == input[i..]
    requires after[..i + 1] == Insert(before[..i], before[i], mode)
    requires after[i + 1..] == before[i + 1..]
    ensures after[..i + 1] == StableSort(input[..i + 1], mode)
    ensures after[i + 1..] == input[i + 1..]
  {
    assert input[..i + 1][..i] == input[..i];
    assert before[i] == input[i] by {
      assert before[i..][0] == input[i..][0];
    }
    assert before[i + 1..] == before[i..][1..];
    assert input[i + 1..] == input[i..][1..];
  }

  /** Every element of a sorted list comes from its input, so when all the
      input's entries carry scores (balanced mode) the sorted list is in the
      order `InOrder` states, whatever the mode. */
  lemma RankedInOrder(items: seq<RankedMandi>, mode: SortMode)
    requires mode == Balanced ==> forall i :: 0 <= i < |items| ==> items[i].scores.Some?
    ensures var ranked := StableSort(items, mode);
      forall i, j :: 0 <= i < j < |ranked| ==> InOrder(mode, ranked[i], ranked[j])
  {
    var ranked := StableSort(items, mode);
    StableSortSortsAndPermutes(items, mode);
    forall i | 0 <= i < |ranked|
      ensures ranked[i] in items
    {
      assert ranked[i] in multiset(items);
    }
    forall i, j | 0 <= i < j < |ranked|
      ensures InOrder(mode, ranked[i], ranked[j])
    {
      KeyOrderMeansInOrder(mode, ranked[i], ranked[j]);
    }
  }

  /** Sorting the prepared list keeps every entry's scores: present exactly
      in balanced mode, and there computed against the maxima of the whole
      input. */
  lemma RankedEntriesScored(ms: seq<MandiMetrics>, mode: SortMode)
    requires mode == Balanced && |ms| > 0 ==> NoZeroMaximum(MaximaOf(ms))
    ensures |StableSort(Prepare(ms, mode), mode)| == |ms|
    ensures var ranked := StableSort(Prepare(ms, mode), mode);
      forall i :: 0 <= i < |ranked| ==>
        && (ranked[i].scores.Some? <==> mode == Balanced)
        && (mode == Balanced ==> ranked[i].scores == Some(BalancedScores(ranked[i].metrics, MaximaOf(ms))))
  {
    var items := Prepare(ms, mode);
    var ranked := StableSort(items, mode);
    StableSortSortsAndPermutes(items, mode);
    assert |multiset(ranked)| == |multiset(items)|;
    forall i | 0 <= i < |ranked|
      ensures ranked[i] in items
    {
      assert ranked[i] in multiset(items);
    }
  }

  /** What the sorted, prepared list promises: it permutes the input's
      metrics, is in the order of the mode, carries scores exactly in
      balanced mode, and keeps equal-key entries in input order. */
  lemma RankedListProperties(ms: seq<MandiMetrics>, mode: SortMode)
    requires mode == Balanced && |ms| > 0 ==> NoZeroMaximum(MaximaOf(ms))
    ensures var ranked := StableSort(Prepare(ms, mode), mode);
      && multiset(MetricsOf(ranked)) == multiset(ms)
      && (forall i, j :: 0 <= i < j < |ranked| ==> InOrder(mode, ranked[i], ranked[j]))
      && (forall i :: 0 <= i < |ranked| ==> (ranked[i].scores.Some? <==> mode == Balanced))
      && (mode == Balanced ==> forall i :: 0 <= i < |ranked| ==>
            ranked[i].scores == Some(BalancedScores(ranked[i].metrics, MaximaOf(ms))))
      && (forall c :: WithKey(ranked, mode, c) == WithKey(Prepare(ms, mode), mode, c))
  {
    var items := Prepare(ms, mode);
    StableSortPermutesMetrics(items, mode);
    assert MetricsOf(items) == ms;
    RankedInOrder(items, mode);
    RankedEntriesScored(ms, mode);
    forall c
      ensures WithKey(StableSort(items, mode), mode, c) == WithKey(items, mode, c)
    {
      StableSortKeepsTies(items, mode, c);
    }
  }

  /** Two entries already in key order are left as they are. */
  lemma SortTwo(x: RankedMandi, y: RankedMandi, mode: SortMode)
    requires SortKey(mode, x) <= SortKey(mode, y)
    ensures StableSort([x, y], mode) == [x, y]
  {
    assert [x, y][..1] == [x];
    assert [x][..0] == [];
    assert StableSort([x], mode) == Insert([], x, mode) == [x];
    assert Insert([x], y, mode) == [x, y];
  }

  /**
    The scores of a worked example: mandi A at the retailer's location
    (price 30/kg, shelf life 5 days, profit 1500) and mandi B 10 km away
    (price 20/kg, shelf life 2 days, profit 2500). A scores 66 (distance
    100, price 0, shelf life 100, profit 60) and B scores 28 (0, 33, 40, 100).
  */
  lemma TwoMandiScores(a: MandiMetrics, b: MandiMetrics)
    requires a.distance == 0.0 && a.pricePerKg == 30.0 && a.shelfLife == 5 && a.profit == 1500.0
    requires b.distance == 10.0 && b.pricePerKg == 20.0 && b.shelfLife == 2 && b.profit == 2500.0
    ensures MaximaOf([a, b]) == Maxima(10.0, 30.0, 5.0, 2500.0)
    ensures BalancedScores(a, MaximaOf([a, b])) == Scores(66, 100, 0, 100, 60)
    ensures BalancedScores(b, MaximaOf([a, b])) == Scores(28, 0, 33, 40, 100)
  {
    var mx := Maxima(10.0, 30.0, 5.0, 2500.0);
    var ms := [a, b];
    assert Distances(ms) == [0.0, 10.0] && Prices(ms) == [30.0, 20.0];
    assert ShelfLives(ms) == [5.0, 2.0] && Profits(ms) == [1500.0, 2500.0];
    assert Normalise(a, mx) == SubScores(100.0, 0.0, 100.0, 60.0);
    assert Normalise(b, mx) == SubScores(0.0, 100.0 / 3.0, 40.0, 100.0);
  }

  /**
    The worked example end to end: for 100 kg resold at 45/kg, A (30/kg,
    5 days, at distance 0) earns 1500 and B (20/kg, 2 days, 10 km) earns
    2500, yet the balanced ranking puts A first.
  */
  lemma TwoMandiExample(qa: QualifiedMandi, qb: QualifiedMandi, lat: real, lon: real,
                        distanceKm: (real, real, real, real) -> real)
    requires qa.matchedProduct.pricePerKg == 30.0 && qa.matchedProduct.shelfLifeDays == 5
    requires qb.matchedProduct.pricePerKg == 20.0 && qb.matchedProduct.shelfLifeDays == 2
    requires distanceKm(lat, lon, qa.mandi.latitude, qa.mandi.longitude) == 0.0
    requires distanceKm(lat, lon, qb.mandi.latitude, qb.mandi.longitude) == 10.0
    ensures var a := CalculateMandiMetrics(qa, lat, lon, 100.0, 45.0, distanceKm);
            var b := CalculateMandiMetrics(qb, lat, lon, 100.0, 45.0, distanceKm);
      && a.profit == 1500.0 && b.profit == 2500.0
      && BalancedScores(a, MaximaOf([a, b])).score == 66
      && BalancedScores(b, MaximaOf([a, b])).score == 28
      && StableSort(Prepare([a, b], Balanced), Balanced)[0].metrics == a
  {
    var a := CalculateMandiMetrics(qa, lat, lon, 100.0, 45.0, distanceKm);
    var b := CalculateMandiMetrics(qb, lat, lon, 100.0, 45.0, distanceKm);
    TwoMandiScores(a, b);
    var mx := MaximaOf([a, b]);
    var items := Prepare([a, b], Balanced);
    var x, y := RankedMandi(a, Some(BalancedScores(a, mx))), RankedMandi(b, Some(BalancedScores(b, mx)));
    assert items == [x, y];
    SortTwo(x, y, Balanced);
  }

  /** `rankMandis`: sorts a copy of the input; in balanced mode each entry
      first receives its scores against the whole input's maxima. */
  method RankMandis(mandisWithMetrics: seq<MandiMetrics>, sortBy: string) returns (ranked: seq<RankedMandi>)
    requires ParseSortMode(sortBy) == Balanced && |mandisWithMetrics| > 0 ==>
      NoZeroMaximum(MaximaOf(mandisWithMetrics))
    ensures ranked == StableSort(Prepare(mandisWithMetrics, ParseSortMode(sortBy)), ParseSortMode(sortBy))
    ensures multiset(MetricsOf(ranked)) == multiset(mandisWithMetrics)
    ensures forall i, j :: 0 <= i < j < |ranked| ==> InOrder(ParseSortMode(sortBy), ranked[i], ranked[j])
    ensures forall i :: 0 <= i < |ranked| ==> (ranked[i].scores.Some? <==> ParseSortMode(sortBy) == Balanced)
    ensures ParseSortMode(sortBy) == Balanced ==> forall i :: 0 <= i < |ranked| ==>
      ranked[i].scores == Some(BalancedScores(ranked[i].metrics, MaximaOf(mandisWithMetrics)))
    ensures forall c :: WithKey(ranked, ParseSortMode(sortBy), c)
                     == WithKey(Prepare(mandisWithMetrics, ParseSortMode(sortBy)), ParseSortMode(sortBy), c)
  {
    var mode := ParseSortMode(sortBy);
    var n := |mandisWithMetrics|;
    var items: seq<RankedMandi>;
    if mode == Balanced && n > 0 {
      var mx := MaximaOf(mandisWithMetrics);
      items := seq(n, i requires 0 <= i < n => RankedMandi(mandisWithMetrics[i], Some(BalancedScores(mandisWithMetrics[i], mx))));
    } else {
      items := seq(n, i requires 0 <= i < n => RankedMandi(mandisWithMetrics[i], None));
    }
    var a := new RankedMandi[|items|](i requires 0 <= i < |items| => items[i]);
    assert a[..] == items;
    SortInPlace(a, mode);
    ranked := a[..];
    RankedListProperties(mandisWithMetrics, mode);
  }
}
