/** The exceptions the core raises, as values. */
module Faults {

  datatype Fault =
    /** `model.OutOfStock`: no batch can take the order line. */
    | OutOfStock(sku: string)
    /** `InvalidSku` of the service layer: no product is stored for the sku. */
    | InvalidSku(sku: string)
    /** `StopIteration` from `next(...)`: the product has no batch with that reference. */
    | NoSuchBatch(ref: string)
    /** `KeyError` from `set.pop()` on an empty allocation set. */
    | PopFromEmptySet
    /** The repository refused to store something that is not a `Product`. */
    | NotAProduct
    /** `AttributeError` on `None`: no stored product owns a batch with that reference. */
    | NoProductForBatch(ref: string)
}
