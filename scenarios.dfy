/** The two stages run back to back, as the program's entry point runs them:
    the price map built from the catalogue is handed to the accumulator. */
module Scenarios {
  import opened Json
  import opened Diagnostics
  import opened Catalogue
  import opened Sales

  /** The total the program reports for a catalogue value and a sales value:
      the in-order sum of the costs of the counted sales. */
  function Total(catalogueData: Json, salesData: Json): (r: real)
    ensures !salesData.JArr? ==> r == 0.0
    ensures salesData.JArr? ==> r == Sum(Costs(PriceMap(catalogueData), salesData.items))
  {
    SalesTotalIsSumOfCosts(PriceMap(catalogueData), if salesData.JArr? then salesData.items else []);
    SalesTotal(PriceMap(catalogueData), salesData)
  }

  /** Lines 152-153 of the entry point: build the price map from the
      catalogue, then cost the sales against it. */
  method ComputeTotal(catalogueData: Json, salesData: Json) returns (totalCost: real, log: seq<Diagnostic>)
    ensures totalCost == Total(catalogueData, salesData)
    ensures log == CatalogueLog(catalogueData) + SalesLog(PriceMap(catalogueData), salesData)
  {
    var priceMap, catalogueLog := BuildPriceMap(catalogueData);
    var salesLog;
    totalCost, salesLog := ComputeSalesTotal(priceMap, salesData);
    log := catalogueLog + salesLog;
  }

  /** A product that no valid catalogue element names is absent from the
      price map, so every well-formed sale of it is skipped as unknown. */
  lemma ProductWithoutEntryIsUnknown(catalogue: seq<Json>, sale: Json, product: string)
    requires forall i :: 0 <= i < |catalogue| ==> !EntryFor(catalogue[i], product)
    requires ParseSale(sale).Ok? && ParseSale(sale).value.product == product
    ensures product !in PriceMapOf(catalogue)
    ensures SaleCost(PriceMapOf(catalogue), sale) == Err(UnknownProduct(product))
  {
    PriceMapLastWins(catalogue, product);
  }

  /** When the catalogue is not an array the map is empty, so no sale is
      counted and the total is 0.0 whatever the sales record holds. */
  lemma {:induction false} NonListCatalogueGivesZero(catalogueData: Json, sales: seq<Json>)
    requires !catalogueData.JArr?
    ensures Total(catalogueData, JArr(sales)) == 0.0
  {
    SalesTotalIsSumOfCosts(map[], sales);
    NoCostsWithEmptyMap(sales);
  }

  lemma {:induction false} NoCostsWithEmptyMap(sales: seq<Json>)
    ensures Costs(map[], sales) == []
  {
    if sales != [] {
      NoCostsWithEmptyMap(sales[1..]);
    }
  }

  /** An empty sales array gives 0.0 whatever the catalogue. */
  lemma EmptySalesGiveZero(catalogueData: Json)
    ensures Total(catalogueData, JArr([])) == 0.0
  {
  }

  /** One product at 10, three of it sold: the total is 30.0. */
  lemma SingleSaleExample()
    ensures Total(JArr([JObj(map["title" := JStr("A"), "price" := JInt(10)])]),
                  JArr([JObj(map["Product" := JStr("A"), "Quantity" := JInt(3)])])) == 30.0
  {
    var catalogue := [JObj(map["title" := JStr("A"), "price" := JInt(10)])];
    assert catalogue[..0] == [];
    assert PriceMapOf(catalogue) == map["A" := 10.0];
  }

  /** A string price keeps the entry out of the map, and a later sale of that
      product is then skipped as unknown, with one diagnostic. */
  lemma StringPriceExample()
    ensures PriceMap(JArr([JObj(map["title" := JStr("A"), "price" := JStr("10")])])) == map[]
    ensures SalesLog(PriceMap(JArr([JObj(map["title" := JStr("A"), "price" := JStr("10")])])),
                     JArr([JObj(map["Product" := JStr("A"), "Quantity" := JInt(3)])]))
            == [SaleItem(0, UnknownProduct("A"))]
  {
    var catalogue := [JObj(map["title" := JStr("A"), "price" := JStr("10")])];
    assert catalogue[..0] == [];
    var sales := [JObj(map["Product" := JStr("A"), "Quantity" := JInt(3)])];
    assert sales[..0] == [];
  }

  /** Two entries with the same title: the later price is kept. */
  lemma DuplicateTitleExample()
    ensures PriceMap(JArr([JObj(map["title" := JStr("A"), "price" := JInt(1)]),
                           JObj(map["title" := JStr("A"), "price" := JFloat(2.5)])]))
            == map["A" := 2.5]
  {
    var catalogue := [JObj(map["title" := JStr("A"), "price" := JInt(1)]),
                      JObj(map["title" := JStr("A"), "price" := JFloat(2.5)])];
    assert catalogue[..1][..0] == [];
    assert catalogue[..1] == [catalogue[0]];
    assert PriceMapOf(catalogue[..1]) == map["A" := 1.0];
    assert PriceMapOf(catalogue) == map["A" := 1.0]["A" := 2.5];
  }
}
