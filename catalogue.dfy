/** The catalogue indexer: turns the parsed price catalogue into a map from
    product title to unit price, skipping every malformed element. */
module Catalogue {
  import opened Json
  import opened Diagnostics

  type Prices = map<string, real>

  /** A catalogue element that passed every shape check. */
  datatype Entry = Entry(title: string, price: real)

  /** The shape checks on one catalogue element, in the order they are made:
      it must be an object, its "title" a string, its "price" a number (an
      int, a float or a bool). */
  function ParseEntry(item: Json): (r: Result<Entry>)
    ensures !item.JObj? ==> r == Err(NotObject)
    ensures item.JObj? && !IsText(Get(item.fields, "title")) ==> r == Err(BadTitle)
    ensures (item.JObj? && IsText(Get(item.fields, "title")) && !IsNumber(Get(item.fields, "price")))
              ==> r == Err(BadPrice)
    ensures r.Ok? <==>
              item.JObj? && "title" in item.fields && item.fields["title"].JStr?
              && "price" in item.fields
              && (item.fields["price"].JInt? || item.fields["price"].JFloat? || item.fields["price"].JBool?)
    ensures r.Ok? ==> r.value == Entry(item.fields["title"].s, ToReal(item.fields["price"]))
  {
    if !item.JObj? then Err(NotObject)
    else
      var title := Get(item.fields, "title");
      var price := Get(item.fields, "price");
      if !IsText(title) then Err(BadTitle)
      else if !IsNumber(price) then Err(BadPrice)
      else Ok(Entry(title.value.s, ToReal(price.value)))
  }

  /** True when item is a valid catalogue element whose title is k. */
  predicate EntryFor(item: Json, k: string)
  {
    ParseEntry(item).Ok? && ParseEntry(item).value.title == k
  }

  /** The price map after the loop has processed items, in order: a valid
      element inserts or overwrites its title, any other leaves the map alone. */
  function PriceMapOf(items: seq<Json>): Prices
  {
    if |items| == 0 then map[]
    else
      var m := PriceMapOf(items[..|items| - 1]);
      match ParseEntry(items[|items| - 1])
      case Ok(e) => m[e.title := e.price]
      case Err(_) => m
  }

  /** The diagnostics the loop emits for items: one per skipped element, at
      its index, with its reason. */
  function CatalogueLogOf(items: seq<Json>): seq<Diagnostic>
  {
    if |items| == 0 then []
    else
      var log := CatalogueLogOf(items[..|items| - 1]);
      match ParseEntry(items[|items| - 1])
      case Ok(_) => log
      case Err(r) => log + [CatalogueItem(|items| - 1, r)]
  }

  /** The price map built from a whole catalogue value. */
  function PriceMap(catalogueData: Json): Prices
  {
    if catalogueData.JArr? then PriceMapOf(catalogueData.items) else map[]
  }

  /** The diagnostics emitted for a whole catalogue value. */
  function CatalogueLog(catalogueData: Json): seq<Diagnostic>
  {
    if catalogueData.JArr? then CatalogueLogOf(catalogueData.items) else [CatalogueNotList]
  }

  /** build_price_map: one pass over the catalogue array, skipping malformed
      elements with a diagnostic and letting a later title overwrite an
      earlier one. */
  method BuildPriceMap(catalogueData: Json) returns (priceMap: Prices, log: seq<Diagnostic>)
    ensures priceMap == PriceMap(catalogueData)
    ensures log == CatalogueLog(catalogueData)
    ensures !catalogueData.JArr? ==> priceMap == map[] && log == [CatalogueNotList]
  {
    priceMap := map[];
    log := [];
    if !catalogueData.JArr? {
      log := [CatalogueNotList];
      return;
    }
    var items := catalogueData.items;
    for idx := 0 to |items|
      invariant priceMap == PriceMapOf(items[..idx])
      invariant log == CatalogueLogOf(items[..idx])
    {
      assert items[..idx + 1][..idx] == items[..idx];
      var item := items[idx];
      if !item.JObj? {
        log := log + [CatalogueItem(idx, NotObject)];
        continue;
      }
      var title := Get(item.fields, "title");
      var price := Get(item.fields, "price");
      if !IsText(title) {
        log := log + [CatalogueItem(idx, BadTitle)];
        continue;
      }
      if !IsNumber(price) {
        log := log + [CatalogueItem(idx, BadPrice)];
        continue;
      }
      priceMap := priceMap[title.value.s := ToReal(price.value)];
    }
    assert items[..|items|] == items;
  }

  /** Processing xs and then ys gives the map of xs overridden by the map of
      ys: the pass keeps one running map and never looks back. */
  lemma {:induction false} PriceMapAppend(xs: seq<Json>, ys: seq<Json>)
    ensures PriceMapOf(xs + ys) == PriceMapOf(xs) + PriceMapOf(ys)
  {
    if |ys| == 0 {
      assert xs + ys == xs;
    } else {
      var ys' := ys[..|ys| - 1];
      assert (xs + ys)[..|xs + ys| - 1] == xs + ys';
      assert (xs + ys)[|xs + ys| - 1] == ys[|ys| - 1];
      PriceMapAppend(xs, ys');
    }
  }

  /** A malformed element, wherever it stands, leaves the price map exactly
      as it would be without it. */
  lemma {:induction false} RejectedEntryIgnored(xs: seq<Json>, x: Json, ys: seq<Json>)
    requires ParseEntry(x).Err?
    ensures PriceMapOf(xs + [x] + ys) == PriceMapOf(xs + ys)
  {
    PriceMapAppend(xs + [x], ys);
    PriceMapAppend(xs, [x]);
    assert [x][..0] == [];
    PriceMapAppend(xs, ys);
  }

  /** Last write wins: k is a key exactly when some valid element has title
      k, and then its price is that of the last such element. */
  lemma {:induction false} PriceMapLastWins(items: seq<Json>, k: string)
    ensures k in PriceMapOf(items) <==> exists i :: 0 <= i < |items| && EntryFor(items[i], k)
    ensures k in PriceMapOf(items) ==>
              exists i :: 0 <= i < |items| && ParseEntry(items[i]) == Ok(Entry(k, PriceMapOf(items)[k]))
                          && forall j :: i < j < |items| ==> !EntryFor(items[j], k)
  {
    if |items| > 0 {
      var n := |items|;
      var pre := items[..n - 1];
      PriceMapLastWins(pre, k);
      if EntryFor(items[n - 1], k) {
        assert ParseEntry(items[n - 1]) == Ok(Entry(k, PriceMapOf(items)[k]));
      } else {
        assert k in PriceMapOf(items) <==> k in PriceMapOf(pre);
        if exists i :: 0 <= i < n && EntryFor(items[i], k) {
          var i :| 0 <= i < n && EntryFor(items[i], k);
          assert items[i] == pre[i];
        }
        if k in PriceMapOf(items) {
          assert PriceMapOf(items)[k] == PriceMapOf(pre)[k];
          var i :| 0 <= i < |pre| && ParseEntry(pre[i]) == Ok(Entry(k, PriceMapOf(pre)[k]))
                   && forall j :: i < j < |pre| ==> !EntryFor(pre[j], k);
          assert items[i] == pre[i];
          forall j | i < j < n ensures !EntryFor(items[j], k) {
            if j < n - 1 { assert items[j] == pre[j]; }
          }
        }
      }
    }
  }

  /** The log holds exactly one diagnostic per malformed element, in input
      order, each naming that element's index and the check it failed. */
  lemma {:induction false} CatalogueLogExact(items: seq<Json>)
    ensures forall d :: 0 <= d < |CatalogueLogOf(items)| ==>
              CatalogueLogOf(items)[d].CatalogueItem?
              && CatalogueLogOf(items)[d].idx < |items|
              && ParseEntry(items[CatalogueLogOf(items)[d].idx]) == Err(CatalogueLogOf(items)[d].reason)
    ensures forall d, e :: 0 <= d < e < |CatalogueLogOf(items)| ==>
              CatalogueLogOf(items)[d].idx < CatalogueLogOf(items)[e].idx
    ensures forall i :: 0 <= i < |items| && ParseEntry(items[i]).Err? ==>
              exists d :: 0 <= d < |CatalogueLogOf(items)| && CatalogueLogOf(items)[d].idx == i
  {
    if |items| > 0 {
      var n := |items|;
      var pre := items[..n - 1];
      CatalogueLogExact(pre);
      var log, preLog := CatalogueLogOf(items), CatalogueLogOf(pre);
      assert |preLog| <= |log| && log[..|preLog|] == preLog;
      forall d | 0 <= d < |preLog| ensures log[d] == preLog[d] && items[preLog[d].idx] == pre[preLog[d].idx] {
        assert log[..|preLog|][d] == log[d];
      }
      forall i | 0 <= i < n && ParseEntry(items[i]).Err?
        ensures exists d :: 0 <= d < |log| && log[d].idx == i
      {
        if i < n - 1 {
          assert items[i] == pre[i];
          var d :| 0 <= d < |preLog| && preLog[d].idx == i;
          assert log[d].idx == i;
        } else {
          assert log[|log| - 1].idx == i;
        }
      }
    }
  }

  /** A boolean price is accepted, as 1.0 for true and 0.0 for false. */
  lemma BoolPriceAccepted(title: string, b: bool)
    ensures ParseEntry(JObj(map["title" := JStr(title), "price" := JBool(b)]))
            == Ok(Entry(title, if b then 1.0 else 0.0))
  {
  }
}
