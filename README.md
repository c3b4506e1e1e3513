# computeSales: the catalogue indexer and the sales accumulator

This project models the two computing stages of `computeSales.py`.

- **The catalogue indexer** (the function `build_price_map`) takes a parsed JSON price catalogue. It builds a map from product title to unit price and skips each malformed element with a diagnostic.
- **The sales accumulator** (the function `compute_sales_total`) takes the price map and a parsed JSON sales record. It adds up `price * quantity` over the sales that pass every check, in input order, and skips the rest with a diagnostic.

Modules:

- `Json` (json.dfy) holds the parsed value as a tagged datatype (`JNull`, `JBool`, `JInt`, `JFloat`, `JStr`, `JArr`, `JObj`). It also holds the field checks that the source writes inline: `dict.get` becomes `Get`, `isinstance(v, str)` becomes `IsText`, `isinstance(v, (int, float))` becomes `IsNumber`, and `float(v)` becomes `ToReal`.
- `Diagnostics` (diagnostics.dfy) holds the reasons an item is skipped and the diagnostic records. Each record keeps the item's index and the reason, not the printed text.
- `Catalogue` (catalogue.dfy) models `build_price_map`. The method `BuildPriceMap` keeps the source's loop and `continue` skips. It is proved equal to the prefix fold `PriceMapOf` and the log function `CatalogueLogOf`. The lemmas about those functions state the promised properties.
- `Sales` (sales.dfy) models `compute_sales_total` the same way: the method `ComputeSalesTotal`, the prefix folds `SalesTotalOf` and `SalesLogOf`, and a separate reference definition, `Sum(Costs(...))`.
- `Scenarios` (scenarios.dfy) composes the two stages, as lines 152-153 do. The method `ComputeTotal` calls `BuildPriceMap` and then `ComputeSalesTotal`. The function `Total` composes the two stages' specification functions. It also proves the end-to-end consequences and a few worked examples.

Three behaviours of the code are easy to misread:

- **Booleans count as numbers.** One might expect a boolean `price` or `Quantity` to be rejected. But `isinstance(x, (int, float))` accepts `True` and `False`, because Python's `bool` is a subclass of `int`. So a boolean is accepted as 1.0 or 0.0 (`Json.IsNumber`, `Json.ToReal`, `BoolPriceAccepted`, `BoolQuantityAccepted`).
- **Empty titles are accepted.** Any string passes the title check, the empty one included.
- **The total can be negative.** Nothing rejects negative prices or quantities. The model proves the total non-negative only when every price and every counted quantity is non-negative (`SalesTotalNonNegative`).

`compute_sales_total` only reads the price map. In the model the map is an immutable `map` value passed to the method, so that property holds by construction.

## Model

| member | source | states |
|---|---|---|
| Json.Get | computeSales.py:54-55 | dict.get yields a value exactly when the key is present, and then the value stored under it |
| Json.IsText | computeSales.py:57 | isinstance(v, str) holds exactly for a present string value |
| Json.IsNumber | computeSales.py:61 | isinstance(v, (int, float)) holds exactly for a present value that is not null, a string, an array or an object, so booleans pass |
| Json.ToReal | computeSales.py:65 | float(v) keeps an int's value and a float's value, and turns True into 1.0 and False into 0.0 |
| Catalogue.ParseEntry | computeSales.py:50-65 | an element is accepted exactly when it is an object with a string "title" and an int, float or bool "price", and then yields that title and float(price); otherwise it is rejected as not-an-object, bad title or bad price, checked in that order |
| Catalogue.BuildPriceMap | computeSales.py:36-67 | the loop's map and diagnostics equal the prefix folds over the whole array; a non-array catalogue gives an empty map and a single "not a list" diagnostic |
| Catalogue.PriceMapAppend | computeSales.py:49-65 | the map for xs + ys is the map for xs overridden by the map for ys (single pass, later writes win) |
| Catalogue.RejectedEntryIgnored | computeSales.py:50-63 | a malformed element anywhere in the catalogue leaves the resulting map exactly as without it |
| Catalogue.PriceMapLastWins | computeSales.py:49-65 | k is a key exactly when some valid element has title k, and its value is float(price) of the last such element in input order |
| Catalogue.CatalogueLogExact | computeSales.py:49-63 | one diagnostic per malformed element, in input order, each carrying that element's index and the check it failed |
| Catalogue.BoolPriceAccepted | computeSales.py:61-65 | a boolean price passes the numeric check and becomes 1.0 or 0.0 |
| Sales.ParseSale | computeSales.py:85-98 | a sale passes the shape checks exactly when it is an object with a string "Product" and an int, float or bool "Quantity", and then yields them; otherwise it is rejected as not-an-object, bad product or bad quantity, in that order |
| Sales.SaleCost | computeSales.py:85-106 | a sale contributes exactly when it passes the shape checks and its product is in the map, and then contributes price times quantity; a well-formed sale of an absent product is rejected as unknown |
| Sales.ComputeSalesTotal | computeSales.py:70-108 | the loop's total and diagnostics equal the prefix folds over the whole array; a non-array sales value gives 0.0 and a single "not a list" diagnostic |
| Sales.SalesTotalAppend | computeSales.py:84-108 | the total over xs + ys is the total over xs plus the total over ys |
| Sales.RejectedSaleContributesNothing | computeSales.py:85-104 | a malformed sale or a sale of an unknown product anywhere in the record leaves the total as without it |
| Sales.SalesTotalIsSumOfCosts | computeSales.py:84-106 | the total is the in-order sum of price times quantity over exactly the sales that pass every check |
| Sales.SalesLogExact | computeSales.py:84-104 | one diagnostic per skipped sale, in input order, each carrying that sale's index and its reason |
| Sales.SalesTotalNonNegative | computeSales.py:106 | with non-negative prices and a non-negative quantity on every counted sale (well-formed and of a known product) the total is non-negative |
| Sales.BoolQuantityAccepted | computeSales.py:96-106 | a boolean quantity passes the numeric check and counts as 1.0 or 0.0 |
| Scenarios.Total | computeSales.py:152-153 | the total for the price map built from the catalogue is 0.0 for a non-array sales value and otherwise the in-order sum of the costs of the counted sales |
| Scenarios.ComputeTotal | computeSales.py:152-153 | calling the two loop methods in sequence yields `Total` of the two inputs, with the catalogue diagnostics followed by the sales diagnostics |
| Scenarios.ProductWithoutEntryIsUnknown | computeSales.py:100-104 | a product that no valid catalogue element names is absent from the map and every well-formed sale of it is rejected as unknown |
| Scenarios.NonListCatalogueGivesZero | computeSales.py:45-47 | a non-array catalogue makes the total 0.0 for every sales array |
| Scenarios.EmptySalesGiveZero | computeSales.py:78-84 | an empty sales array gives a total of 0.0 whatever the catalogue |
| Scenarios.SingleSaleExample | computeSales.py:106 | a catalogue of A at 10 and a sale of 3 A give a total of 30.0 |
| Scenarios.StringPriceExample | computeSales.py:61-63 | an entry with a string price is left out of the map, and a sale of that product then yields one unknown-product diagnostic |
| Scenarios.DuplicateTitleExample | computeSales.py:65 | of two entries with the same title, the later price is kept |

## Left out

- `load_json_file` (computeSales.py:22-33): file reading and JSON parsing. The model starts from an already-parsed `Json` value.
- `format_results` (computeSales.py:111-119): the report layout, with its thousands separator and fixed decimal places. This is float formatting done by the library.
- `write_results_file` (computeSales.py:122-128): writing `SalesResults.txt` and reporting an `OSError`.
- `main` (computeSales.py:131-159): checking the argument count, `sys.exit`, and timing with `time.perf_counter`. Its two calls at lines 152-153 are modelled by `Scenarios.ComputeTotal` and `Scenarios.Total`.
- Floating point: prices, quantities and the total are exact reals. IEEE-754 rounding of each product and sum is not modelled. Neither is the `OverflowError` that `float()` raises for an integer too large for a double, nor the NaN and Infinity values Python's parser accepts.
- Printed diagnostics: the model keeps one record per `[ERROR]` line, holding the item index and the reason, not the message text. A print can itself fail: the unknown-product diagnostic (computeSales.py:101-103) prints the product name. If the standard output encoding cannot represent that name (for example, non-ASCII text on an ASCII or cp1252 stream), `print` raises `UnicodeEncodeError` and ends the run. The model records `UnknownProduct(product)` and goes on instead.
- Lone surrogates: Dafny's `string` cannot hold the unpaired UTF-16 surrogates that Python's parser produces from escapes such as `"\ud800"`. Titles and products containing them fall outside the model. Besides key comparison, the unknown-product diagnostic (computeSales.py:101-103) prints the product. For such a product that print raises `UnicodeEncodeError` and ends the run; the model does not capture this crash.
