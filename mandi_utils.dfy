/**
  The front half of the retailer's mandi-ranking pipeline: the market records,
  the qualification filter that keeps the markets able to supply a requested
  quantity of a product, and the per-market economic metrics.
*/
module MandiUtils {
  import opened Wrappers

  /** One product line offered by a mandi. */
  datatype Product = Product(
    productName: string,
    availableQuantity: real,  // kg
    pricePerKg: real,
    shelfLifeDays: int,
    lastUpdated: string)

  /** A wholesale market with its position and its product lines, in order. */
  datatype Mandi = Mandi(
    id: string,
    name: string,
    location: string,
    latitude: real,
    longitude: real,
    products: seq<Product>)

  /** A mandi that passed the filter, with the listing that qualified it. */
  datatype QualifiedMandi = QualifiedMandi(mandi: Mandi, matchedProduct: Product)

  /** A qualified mandi with the metrics computed for one purchase request.
      `profitMargin` is `None` where the source divides by a zero total cost. */
  datatype MandiMetrics = MandiMetrics(
    qualified: QualifiedMandi,
    distance: real,
    totalCost: real,
    expectedRevenue: real,
    profit: real,
    profitMargin: Option<real>,
    pricePerKg: real,
    shelfLife: int)

  // ---------------------------------------------------------------------
  // Case-insensitive names

  /** `toLowerCase` on one character (ASCII letters). */
  function LowerChar(c: char): (r: char)
    ensures 'A' <= c <= 'Z' ==> 'a' <= r <= 'z' && r as int - c as int == 32
    ensures !('A' <= c <= 'Z') ==> r == c
  {
    if 'A' <= c <= 'Z' then (c as int + 32) as char else c
  }

  function Lower(s: string): (r: string)
    ensures |r| == |s|
    ensures forall i :: 0 <= i < |s| ==> r[i] == LowerChar(s[i])
  {
    seq(|s|, i requires 0 <= i < |s| => LowerChar(s[i]))
  }

  /** `a.toLowerCase() === b.toLowerCase()`. */
  predicate NamesMatch(a: string, b: string)
  {
    Lower(a) == Lower(b)
  }

  // ---------------------------------------------------------------------
  // Qualification filter

  /** `products.find(p => p.product_name` matches `productName)`: the first
      listing whose name matches, or `None`. */
  function FindProduct(products: seq<Product>, productName: string): (r: Option<Product>)
    ensures r.None? <==>
      forall i :: 0 <= i < |products| ==> !NamesMatch(products[i].productName, productName)
    ensures r.Some? ==>
      exists i :: 0 <= i < |products| && products[i] == r.value && IsFirstMatch(products, productName, i)
  {
    if |products| == 0 then None
    else if NamesMatch(products[0].productName, productName) then
      assert IsFirstMatch(products, productName, 0);
      Some(products[0])
    else
      var rest := FindProduct(products[1..], productName);
      if rest.Some? then
        var i :| 0 <= i < |products[1..]| && products[1..][i] == rest.value
                 && IsFirstMatch(products[1..], productName, i);
        assert IsFirstMatch(products, productName, i + 1);
        rest
      else
        assert forall i :: 1 <= i < |products| ==> products[i] == products[1..][i - 1];
        rest
  }

  /** Listing `i` matches the name and no listing before it does. */
  predicate IsFirstMatch(products: seq<Product>, productName: string, i: int)
  {
    && 0 <= i < |products|
    && NamesMatch(products[i].productName, productName)
    && forall j :: 0 <= j < i ==> !NamesMatch(products[j].productName, productName)
  }

  /** The callback of the filter's `map`: the mandi with its matched listing,
      or `None` when no listing matches or the first match is short. */
  function Qualify(mandi: Mandi, productName: string, requiredQuantity: real): Option<QualifiedMandi>
  {
    var product := FindProduct(mandi.products, productName);
    if product.None? || product.value.availableQuantity < requiredQuantity then None
    else Some(QualifiedMandi(mandi, product.value))
  }

  /** `filterQualifiedMandis`: the qualifying mandis, in input order. */
  function FilterQualifiedMandis(mandis: seq<Mandi>, productName: string, requiredQuantity: real)
    : (r: seq<QualifiedMandi>)
    ensures |r| <= |mandis|
    ensures forall k :: 0 <= k < |r| ==>
      && NamesMatch(r[k].matchedProduct.productName, productName)
      && r[k].matchedProduct.availableQuantity >= requiredQuantity
      && FindProduct(r[k].mandi.products, productName) == Some(r[k].matchedProduct)
  {
    if |mandis| == 0 then []
    else
      var init := FilterQualifiedMandis(mandis[..|mandis| - 1], productName, requiredQuantity);
      match Qualify(mandis[|mandis| - 1], productName, requiredQuantity)
      case None => init
      case Some(q) =>
        assert FindProduct(q.mandi.products, productName) == Some(q.matchedProduct);
        init + [q]
  }

  /** The positions of the qualifying mandis, in increasing order. */
  function QualifyingPositions(mandis: seq<Mandi>, productName: string, requiredQuantity: real)
    : (r: seq<nat>)
    ensures forall k :: 0 <= k < |r| ==> r[k] < |mandis|
    ensures forall k, l :: 0 <= k < l < |r| ==> r[k] < r[l]
    ensures forall i :: 0 <= i < |mandis| ==> (i in r <==> Qualify(mandis[i], productName, requiredQuantity).Some?)
  {
    if |mandis| == 0 then []
    else
      var init := mandis[..|mandis| - 1];
      var prev := QualifyingPositions(init, productName, requiredQuantity);
      assert forall i :: 0 <= i < |init| ==> init[i] == mandis[i];
      if Qualify(mandis[|mandis| - 1], productName, requiredQuantity).Some?
      then prev + [|mandis| - 1] else prev
  }

  /** The filter's output is the order-preserving subsequence of its input
      made of exactly the mandis whose first matching listing has enough
      stock: the k-th survivor is the mandi at the k-th qualifying position
      (which `QualifyingPositions` lists in increasing order, a position
      being listed iff its mandi qualifies). */
  lemma {:induction false} FilterIsSubsequence(mandis: seq<Mandi>, productName: string, requiredQuantity: real)
    ensures var r := FilterQualifiedMandis(mandis, productName, requiredQuantity);
            var pos := QualifyingPositions(mandis, productName, requiredQuantity);
      && |pos| == |r|
      && (forall k :: 0 <= k < |r| ==> pos[k] < |mandis| && Qualify(mandis[pos[k]], productName, requiredQuantity) == Some(r[k]))
  {
    if |mandis| > 0 {
      var init, last := mandis[..|mandis| - 1], mandis[|mandis| - 1];
      FilterIsSubsequence(init, productName, requiredQuantity);
      assert mandis == init + [last];
      var r0 := FilterQualifiedMandis(init, productName, requiredQuantity);
      var pos0 := QualifyingPositions(init, productName, requiredQuantity);
      var q := Qualify(last, productName, requiredQuantity);
      var r := FilterQualifiedMandis(mandis, productName, requiredQuantity);
      var pos := QualifyingPositions(mandis, productName, requiredQuantity);
      assert r == r0 + (if q.Some? then [q.value] else []);
      assert pos == pos0 + (if q.Some? then [|init|] else []);
      SurvivorsAppend(init, last, productName, requiredQuantity, r0, pos0);
    }
  }

  /** The step of `FilterIsSubsequence`: appending one mandi appends its
      position exactly when it qualifies. */
  lemma SurvivorsAppend(init: seq<Mandi>, last: Mandi, productName: string, requiredQuantity: real,
                        r0: seq<QualifiedMandi>, pos0: seq<nat>)
    requires |pos0| == |r0|
    requires forall k :: 0 <= k < |r0| ==> pos0[k] < |init| && Qualify(init[pos0[k]], productName, requiredQuantity) == Some(r0[k])
    ensures var q := Qualify(last, productName, requiredQuantity);
            var r := r0 + (if q.Some? then [q.value] else []);
            var pos := pos0 + (if q.Some? then [|init|] else []);
      && |pos| == |r|
      && forall k :: 0 <= k < |r| ==> pos[k] < |init + [last]| && Qualify((init + [last])[pos[k]], productName, requiredQuantity) == Some(r[k])
  {
  }

  /** Dropped iff no listing matches or the first matching listing is short;
      a later matching listing with enough stock is never consulted. */
  lemma FirstListingDecides(mandi: Mandi, productName: string, requiredQuantity: real, i: int)
    requires IsFirstMatch(mandi.products, productName, i)
    ensures Qualify(mandi, productName, requiredQuantity).Some?
        <==> mandi.products[i].availableQuantity >= requiredQuantity
    ensures Qualify(mandi, productName, requiredQuantity).Some? ==>
      Qualify(mandi, productName, requiredQuantity).value.matchedProduct == mandi.products[i]
  {
    var p := FindProduct(mandi.products, productName);
    var j :| 0 <= j < |mandi.products| && mandi.products[j] == p.value
             && IsFirstMatch(mandi.products, productName, j);
    assert i == j;
  }

  /** Keeps the qualified mandis whose matched listing covers `requiredQuantity`. */
  function KeepStocked(qs: seq<QualifiedMandi>, requiredQuantity: real): (r: seq<QualifiedMandi>)
    ensures |r| <= |qs|
  {
    if |qs| == 0 then []
    else
      var init := KeepStocked(qs[..|qs| - 1], requiredQuantity);
      if qs[|qs| - 1].matchedProduct.availableQuantity >= requiredQuantity
      then init + [qs[|qs| - 1]] else init
  }

  /** Raising the required quantity can only shrink the result: filtering
      for the larger quantity is the same as re-filtering the smaller
      quantity's result, so it is a subsequence of it and never longer. */
  lemma {:induction false} FilterMonotone(mandis: seq<Mandi>, productName: string, q1: real, q2: real)
    requires q1 <= q2
    ensures FilterQualifiedMandis(mandis, productName, q2)
         == KeepStocked(FilterQualifiedMandis(mandis, productName, q1), q2)
    ensures |FilterQualifiedMandis(mandis, productName, q2)| <= |FilterQualifiedMandis(mandis, productName, q1)|
  {
    if |mandis| > 0 {
      var init := mandis[..|mandis| - 1];
      FilterMonotone(init, productName, q1, q2);
      var r1 := FilterQualifiedMandis(mandis, productName, q1);
      match Qualify(mandis[|mandis| - 1], productName, q1)
      case None =>
      case Some(q) =>
        assert r1[..|r1| - 1] == FilterQualifiedMandis(init, productName, q1);
    }
  }

  /** Product lookup depends on the requested name only through its lower-case form. */
  lemma {:induction false} FindProductIgnoresCase(products: seq<Product>, a: string, b: string)
    requires Lower(a) == Lower(b)
    ensures FindProduct(products, a) == FindProduct(products, b)
  {
    if |products| > 0 {
      FindProductIgnoresCase(products[1..], a, b);
    }
  }

  /** Asking for "Tomatoes" or "tomatoes" qualifies the same mandis. */
  lemma {:induction false} FilterIgnoresCase(mandis: seq<Mandi>, a: string, b: string, requiredQuantity: real)
    requires Lower(a) == Lower(b)
    ensures FilterQualifiedMandis(mandis, a, requiredQuantity) == FilterQualifiedMandis(mandis, b, requiredQuantity)
  {
    if |mandis| > 0 {
      FilterIgnoresCase(mandis[..|mandis| - 1], a, b, requiredQuantity);
      FindProductIgnoresCase(mandis[|mandis| - 1].products, a, b);
    }
  }

  // ---------------------------------------------------------------------
  // Metrics

  /** `calculateMandiMetrics`. The Haversine distance is the parameter
      `distanceKm`, applied to the retailer's and the mandi's coordinates. */
  function CalculateMandiMetrics(
    qualified: QualifiedMandi,
    retailerLat: real,
    retailerLon: real,
    requiredQuantity: real,
    resalePrice: real,
    distanceKm: (real, real, real, real) -> real)
    : (r: MandiMetrics)
    ensures r.qualified == qualified
    ensures r.distance == distanceKm(retailerLat, retailerLon, qualified.mandi.latitude, qualified.mandi.longitude)
    ensures r.pricePerKg == qualified.matchedProduct.pricePerKg
    ensures r.shelfLife == qualified.matchedProduct.shelfLifeDays
    ensures r.totalCost == r.pricePerKg * requiredQuantity
    ensures r.expectedRevenue == resalePrice * requiredQuantity
    ensures r.profit == r.expectedRevenue - r.totalCost
    ensures r.profit == (resalePrice - r.pricePerKg) * requiredQuantity
    ensures r.profitMargin.Some? <==> r.totalCost != 0.0
    ensures r.profitMargin.Some? ==> r.profitMargin.value * r.totalCost == 100.0 * r.profit
  {
    var product := qualified.matchedProduct;
    var totalCost := product.pricePerKg * requiredQuantity;
    var expectedRevenue := resalePrice * requiredQuantity;
    var profit := expectedRevenue - totalCost;
    MandiMetrics(
      qualified,
      distanceKm(retailerLat, retailerLon, qualified.mandi.latitude, qualified.mandi.longitude),
      totalCost,
      expectedRevenue,
      profit,
      if totalCost == 0.0 then None else Some(profit / totalCost * 100.0),
      product.pricePerKg,
      product.shelfLifeDays)
  }

  /** For a positive quantity the margin does not depend on the quantity:
      it is the resale mark-up over the purchase price, in percent. */
  lemma MarginIsMarkup(qualified: QualifiedMandi, retailerLat: real, retailerLon: real,
                       requiredQuantity: real, resalePrice: real, distanceKm: (real, real, real, real) -> real)
    requires requiredQuantity > 0.0 && qualified.matchedProduct.pricePerKg > 0.0
    ensures var m := CalculateMandiMetrics(qualified, retailerLat, retailerLon, requiredQuantity, resalePrice, distanceKm);
      m.profitMargin == Some((resalePrice - m.pricePerKg) / m.pricePerKg * 100.0)
  {
    var m := CalculateMandiMetrics(qualified, retailerLat, retailerLon, requiredQuantity, resalePrice, distanceKm);
    var p, q := m.pricePerKg, requiredQuantity;
    PositiveProduct(p, q);
    CancelQuantity(m.profitMargin.value, resalePrice, p, q);
  }

  lemma PositiveProduct(a: real, b: real)
    requires a > 0.0 && b > 0.0
    ensures a * b > 0.0
  {
  }

  lemma CancelQuantity(margin: real, resale: real, price: real, q: real)
    requires q > 0.0 && price > 0.0
    requires margin * (price * q) == 100.0 * ((resale - price) * q)
    ensures margin == (resale - price) / price * 100.0
  {
    assert margin * price * q == 100.0 * (resale - price) * q;
    assert margin * price == 100.0 * (resale - price);
  }

  /** For a positive quantity a mandi is profitable exactly when its price
      is at most the resale price. */
  lemma ProfitSign(qualified: QualifiedMandi, retailerLat: real, retailerLon: real,
                   requiredQuantity: real, resalePrice: real, distanceKm: (real, real, real, real) -> real)
    requires requiredQuantity > 0.0
    ensures var m := CalculateMandiMetrics(qualified, retailerLat, retailerLon, requiredQuantity, resalePrice, distanceKm);
      m.profit >= 0.0 <==> m.pricePerKg <= resalePrice
  {
    var m := CalculateMandiMetrics(qualified, retailerLat, retailerLon, requiredQuantity, resalePrice, distanceKm);
    ProductSign(resalePrice - m.pricePerKg, requiredQuantity);
  }

  lemma ProductSign(d: real, q: real)
    requires q > 0.0
    ensures d * q >= 0.0 <==> d >= 0.0
  {
    if d < 0.0 { assert d * q == -((-d) * q); }
  }
}
