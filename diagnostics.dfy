/** The non-fatal diagnostics the indexer and the accumulator emit when they
    skip something. The model records which item was skipped and why, not the
    text that is printed. */
module Diagnostics {

  /** Why one catalogue element or one sale was skipped. */
  datatype Reason =
    | NotObject
    | BadTitle
    | BadPrice
    | BadProduct
    | BadQuantity
    | UnknownProduct(product: string)

  /** One "[ERROR]" line. Item indices are positions in the input array. */
  datatype Diagnostic =
    | CatalogueNotList
    | CatalogueItem(idx: nat, reason: Reason)
    | SalesNotList
    | SaleItem(idx: nat, reason: Reason)

  /** The outcome of checking one element: a value, or the reason it is skipped. */
  datatype Result<T> = Ok(value: T) | Err(reason: Reason)
}
