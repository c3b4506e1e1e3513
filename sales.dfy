/** The sales accumulator: costs every well-formed sale of a known product
    against the price map and sums the costs in input order. */
module Sales {
  import opened Json
  import opened Diagnostics
  import opened Catalogue

  /** A sale that passed the shape checks (its product may still be unknown). */
  datatype Sale = Sale(product: string, quantity: real)

  /** The shape checks on one sale, in the order they are made: it must be an
      object, its "Product" a string, its "Quantity" a number (an int, a float
      or a bool). */
  function ParseSale(sale: Json): (r: Result<Sale>)
    ensures !sale.JObj? ==> r == Err(NotObject)
    ensures sale.JObj? && !IsText(Get(sale.fields, "Product")) ==> r == Err(BadProduct)
    ensures (sale.JObj? && IsText(Get(sale.fields, "Product")) && !IsNumber(Get(sale.fields, "Quantity")))
              ==> r == Err(BadQuantity)
    ensures r.Ok? <==>
              sale.JObj? && "Product" in sale.fields && sale.fields["Product"].JStr?
              && "Quantity" in sale.fields
              && (sale.fields["Quantity"].JInt? || sale.fields["Quantity"].JFloat? || sale.fields["Quantity"].JBool?)
    ensures r.Ok? ==> r.value == Sale(sale.fields["Product"].s, ToReal(sale.fields["Quantity"]))
  {
    if !sale.JObj? then Err(NotObject)
    else
      var product := Get(sale.fields, "Product");
      var quantity := Get(sale.fields, "Quantity");
      if !IsText(product) then Err(BadProduct)
      else if !IsNumber(quantity) then Err(BadQuantity)
      else Ok(Sale(product.value.s, ToReal(quantity.value)))
  }

  /** The cost one sale adds to the total, or why it adds nothing: a
      malformed sale, or a product the price map does not know. */
  function SaleCost(priceMap: Prices, sale: Json): (r: Result<real>)
    ensures ParseSale(sale).Err? ==> r == Err(ParseSale(sale).reason)
    ensures (ParseSale(sale).Ok? && ParseSale(sale).value.product !in priceMap)
              ==> r == Err(UnknownProduct(ParseSale(sale).value.product))
    ensures r.Ok? <==> ParseSale(sale).Ok? && ParseSale(sale).value.product in priceMap
    ensures r.Ok? ==> r.value == priceMap[ParseSale(sale).value.product] * ParseSale(sale).value.quantity
  {
    match ParseSale(sale)
    case Err(reason) => Err(reason)
    case Ok(s) =>
      if s.product in priceMap then Ok(priceMap[s.product] * s.quantity)
      else Err(UnknownProduct(s.product))
  }

  /** The running total after the loop has processed sales, in order. */
  function SalesTotalOf(priceMap: Prices, sales: seq<Json>): real
  {
    if |sales| == 0 then 0.0
    else
      var t := SalesTotalOf(priceMap, sales[..|sales| - 1]);
      match SaleCost(priceMap, sales[|sales| - 1])
      case Ok(c) => t + c
      case Err(_) => t
  }

  /** The diagnostics the loop emits for sales: one per skipped sale, at its
      index, with its reason. */
  function SalesLogOf(priceMap: Prices, sales: seq<Json>): seq<Diagnostic>
  {
    if |sales| == 0 then []
    else
      var log := SalesLogOf(priceMap, sales[..|sales| - 1]);
      match SaleCost(priceMap, sales[|sales| - 1])
      case Ok(_) => log
      case Err(r) => log + [SaleItem(|sales| - 1, r)]
  }

  /** The total for a whole sales value. */
  function SalesTotal(priceMap: Prices, salesData: Json): real
  {
    if salesData.JArr? then SalesTotalOf(priceMap, salesData.items) else 0.0
  }

  /** The diagnostics emitted for a whole sales value. */
  function SalesLog(priceMap: Prices, salesData: Json): seq<Diagnostic>
  {
    if salesData.JArr? then SalesLogOf(priceMap, salesData.items) else [SalesNotList]
  }

  /** Reference definition: the costs of the counted sales, in input order. */
  function Costs(priceMap: Prices, sales: seq<Json>): seq<real>
  {
    if sales == [] then []
    else
      (match SaleCost(priceMap, sales[0]) case Ok(c) => [c] case Err(_) => [])
      + Costs(priceMap, sales[1..])
  }

  /** The sum of a sequence of reals. */
  function Sum(xs: seq<real>): real
  {
    if xs == [] then 0.0 else xs[0] + Sum(xs[1..])
  }

  /** compute_sales_total: one pass over the sales array with a running total
      that starts at 0.0; malformed sales and unknown products are skipped
      with a diagnostic. The price map is a value, so it is only read. */
  method ComputeSalesTotal(priceMap: Prices, salesData: Json) returns (totalCost: real, log: seq<Diagnostic>)
    ensures totalCost == SalesTotal(priceMap, salesData)
    ensures log == SalesLog(priceMap, salesData)
    ensures !salesData.JArr? ==> totalCost == 0.0 && log == [SalesNotList]
  {
    totalCost := 0.0;
    log := [];
    if !salesData.JArr? {
      log := [SalesNotList];
      return;
    }
    var sales := salesData.items;
    for idx := 0 to |sales|
      invariant totalCost == SalesTotalOf(priceMap, sales[..idx])
      invariant log == SalesLogOf(priceMap, sales[..idx])
    {
      assert sales[..idx + 1][..idx] == sales[..idx];
      var sale := sales[idx];
      if !sale.JObj? {
        log := log + [SaleItem(idx, NotObject)];
        continue;
      }
      var product := Get(sale.fields, "Product");
      var quantity := Get(sale.fields, "Quantity");
      if !IsText(product) {
        log := log + [SaleItem(idx, BadProduct)];
        continue;
      }
      if !IsNumber(quantity) {
        log := log + [SaleItem(idx, BadQuantity)];
        continue;
      }
      if product.value.s !in priceMap {
        log := log + [SaleItem(idx, UnknownProduct(product.value.s))];
        continue;
      }
      totalCost := totalCost + priceMap[product.value.s] * ToReal(quantity.value);
    }
    assert sales[..|sales|] == sales;
  }

  /** Fold decomposition: the total over xs + ys is the total over xs plus
      the total over ys, since the pass threads one running sum. */
  lemma {:induction false} SalesTotalAppend(priceMap: Prices, xs: seq<Json>, ys: seq<Json>)
    ensures SalesTotalOf(priceMap, xs + ys) == SalesTotalOf(priceMap, xs) + SalesTotalOf(priceMap, ys)
  {
    if |ys| == 0 {
      assert xs + ys == xs;
    } else {
      var ys' := ys[..|ys| - 1];
      assert (xs + ys)[..|xs + ys| - 1] == xs + ys';
      assert (xs + ys)[|xs + ys| - 1] == ys[|ys| - 1];
      SalesTotalAppend(priceMap, xs, ys');
    }
  }

  /** A malformed sale or a sale of an unknown product, wherever it stands,
      leaves the total as it would be without it. */
  lemma {:induction false} RejectedSaleContributesNothing(priceMap: Prices, xs: seq<Json>, x: Json, ys: seq<Json>)
    requires SaleCost(priceMap, x).Err?
    ensures SalesTotalOf(priceMap, xs + [x] + ys) == SalesTotalOf(priceMap, xs + ys)
  {
    SalesTotalAppend(priceMap, xs + [x], ys);
    SalesTotalAppend(priceMap, xs, [x]);
    assert [x][..0] == [];
    SalesTotalAppend(priceMap, xs, ys);
  }

  /** The total is the in-order sum of the costs of exactly the sales that
      pass every check. */
  lemma {:induction false} SalesTotalIsSumOfCosts(priceMap: Prices, sales: seq<Json>)
    ensures SalesTotalOf(priceMap, sales) == Sum(Costs(priceMap, sales))
  {
    if sales != [] {
      var first, rest := [sales[0]], sales[1..];
      assert sales == first + rest;
      SalesTotalAppend(priceMap, first, rest);
      SalesTotalIsSumOfCosts(priceMap, rest);
      assert first[..0] == [];
      SumAppend(match SaleCost(priceMap, sales[0]) case Ok(c) => [c] case Err(_) => [], Costs(priceMap, rest));
    }
  }

  lemma {:induction false} SumAppend(xs: seq<real>, ys: seq<real>)
    ensures Sum(xs + ys) == Sum(xs) + Sum(ys)
  {
    if xs == [] {
      assert xs + ys == ys;
    } else {
      assert (xs + ys)[1..] == xs[1..] + ys;
      SumAppend(xs[1..], ys);
    }
  }

  /** With non-negative prices and a non-negative quantity on every counted
      sale (well-formed and of a known product), the total is non-negative. */
  lemma {:induction false} SalesTotalNonNegative(priceMap: Prices, sales: seq<Json>)
    requires forall p :: p in priceMap ==> priceMap[p] >= 0.0
    requires forall i :: 0 <= i < |sales| && SaleCost(priceMap, sales[i]).Ok? ==> ParseSale(sales[i]).value.quantity >= 0.0
    ensures SalesTotalOf(priceMap, sales) >= 0.0
  {
    if |sales| > 0 {
      var pre := sales[..|sales| - 1];
      assert forall i :: 0 <= i < |pre| ==> pre[i] == sales[i];
      SalesTotalNonNegative(priceMap, pre);
    }
  }

  /** The log holds exactly one diagnostic per skipped sale, in input order,
      each naming that sale's index and the reason it was skipped. */
  lemma {:induction false} SalesLogExact(priceMap: Prices, sales: seq<Json>)
    ensures forall d :: 0 <= d < |SalesLogOf(priceMap, sales)| ==>
              SalesLogOf(priceMap, sales)[d].SaleItem?
              && SalesLogOf(priceMap, sales)[d].idx < |sales|
              && SaleCost(priceMap, sales[SalesLogOf(priceMap, sales)[d].idx]) == Err(SalesLogOf(priceMap, sales)[d].reason)
    ensures forall d, e :: 0 <= d < e < |SalesLogOf(priceMap, sales)| ==>
              SalesLogOf(priceMap, sales)[d].idx < SalesLogOf(priceMap, sales)[e].idx
    ensures forall i :: 0 <= i < |sales| && SaleCost(priceMap, sales[i]).Err? ==>
              exists d :: 0 <= d < |SalesLogOf(priceMap, sales)| && SalesLogOf(priceMap, sales)[d].idx == i
  {
    if |sales| > 0 {
      var n := |sales|;
      var pre := sales[..n - 1];
      SalesLogExact(priceMap, pre);
      var log, preLog := SalesLogOf(priceMap, sales), SalesLogOf(priceMap, pre);
      var last := SaleCost(priceMap, sales[n - 1]);
      assert log == preLog + (if last.Ok? then [] else [SaleItem(n - 1, last.reason)]);
      assert |preLog| <= |log| && log[..|preLog|] == preLog;
      forall d | 0 <= d < |preLog| ensures log[d] == preLog[d] && sales[preLog[d].idx] == pre[preLog[d].idx] {
        assert log[..|preLog|][d] == log[d];
      }
      forall i | 0 <= i < n && SaleCost(priceMap, sales[i]).Err?
        ensures exists d :: 0 <= d < |log| && log[d].idx == i
      {
        if i < n - 1 {
          assert sales[i] == pre[i];
          var d :| 0 <= d < |preLog| && preLog[d].idx == i;
          assert log[d].idx == i;
        } else {
          assert log[|log| - 1].idx == i;
        }
      }
    }
  }

  /** A boolean quantity is accepted, as 1.0 for true and 0.0 for false. */
  lemma BoolQuantityAccepted(priceMap: Prices, product: string, b: bool)
    requires product in priceMap
    ensures SaleCost(priceMap, JObj(map["Product" := JStr(product), "Quantity" := JBool(b)]))
            == Ok(if b then priceMap[product] else 0.0)
  {
  }
}
