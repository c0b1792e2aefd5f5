/**
 * The service functions of services_layer/services.py. Like the handlers,
 * each runs inside the unit of work's scope; `allocate` goes through the
 * module-level `allocate` of the domain, which raises `OutOfStock` instead
 * of recording messages on the product. Its `is_valid_sku` is the same
 * function as the handlers' one and is modelled once, as `Handlers.IsValidSku`.
 */
module Services {
  import opened Wrappers
  import opened Faults
  import opened Model
  import opened Repository
  import opened UnitOfWork

  /**
   * `allocate`: allocates the line `(orderid, sku, qty)` over the batches of
   * the stored product for the sku and returns the chosen batch's reference.
   * Raises `InvalidSku` when no product is stored for the sku and
   * `OutOfStock` when no batch can take the line; both roll back. The
   * product's version and messages are never touched.
   */
  method Allocate(orderid: string, sku: string, qty: int, uow: InMemoryProductUnitOfWork)
    returns (result: Result<string, Fault>, ghost product: Product?)
    modifies uow, uow.products.Batches()
    ensures forall q :: q in uow.products.products ==> unchanged(q)
    ensures product == null <==> forall q :: q in uow.products.products ==> q.sku != sku
    ensures product == null ==>
      && result == Failure(InvalidSku(sku))
      && uow.committed == old(uow.committed)
      && forall c :: c in uow.products.Batches() ==> unchanged(c)
    ensures product != null ==> product in uow.products.products && product.sku == sku
    ensures product != null && old(FirstFit(product.batches, OrderLine(orderid, sku, qty))).Some? ==>
      var b := product.batches[old(FirstFit(product.batches, OrderLine(orderid, sku, qty))).value];
      && result == Success(b.reference)
      && b.allocations == old(b.allocations) + {OrderLine(orderid, sku, qty)}
      && b.purchasedQuantity == old(b.purchasedQuantity)
      && uow.committed
      && forall c :: c in product.batches && c != b ==> unchanged(c)
    ensures product != null && old(FirstFit(product.batches, OrderLine(orderid, sku, qty))).None? ==>
      && result == Failure(OutOfStock(sku))
      && uow.committed == old(uow.committed)
      && forall c :: c in product.batches ==> unchanged(c)
    ensures product != null ==>
      forall c :: c in old(uow.products.Batches()) && c !in product.batches ==> unchanged(c)
  {
    var line := OrderLine(orderid, sku, qty);
    var scope := uow.Enter();
    var found := scope.products.Get(sku);
    product := found;
    if found == null {
      uow.Exit(Some(InvalidSku(line.sku)));
      return Failure(InvalidSku(line.sku)), null;
    }
    var batches := found.batches;
    forall i | 0 <= i < |batches| ensures batches[i] in old(uow.products.Batches()) {
      assert found in uow.products.products && batches[i] in found.batches;
    }
    result := Model.Allocate(line, batches);
    if result.Failure? {
      uow.Exit(Some(result.error));
    } else {
      uow.Exit(None);
    }
  }

  /**
   * `add_batch`: appends a new batch `(ref, sku, qty, eta)` to the product
   * for the sku, first creating and storing that product when there is none.
   */
  method AddBatch(ref: string, sku: string, qty: int, eta: Option<int>, uow: InMemoryProductUnitOfWork)
    returns (ghost product: Product, ghost batch: Batch)
    modifies uow, uow.products, uow.products.products
    ensures uow.committed
    ensures uow.products.committed == old(uow.products.committed)
    ensures fresh(batch)
    ensures batch.reference == ref && batch.sku == sku && batch.eta == eta
    ensures batch.purchasedQuantity == qty && batch.allocations == {} && batch.Available() == qty
    ensures product in uow.products.products && product.sku == sku
    ensures (exists q :: q in old(uow.products.products) && q.sku == sku) ==>
      && product in old(uow.products.products)
      && uow.products.products == old(uow.products.products)
      && product.batches == old(product.batches) + [batch]
      && product.versionNumber == old(product.versionNumber)
      && product.messages == old(product.messages)
    ensures (forall q :: q in old(uow.products.products) ==> q.sku != sku) ==>
      && fresh(product)
      && uow.products.products == old(uow.products.products) + {product}
      && product.batches == [batch]
      && product.versionNumber == 0
      && product.messages == []
    ensures forall q :: q in old(uow.products.products) && q != product ==> unchanged(q)
  {
    var scope := uow.Enter();
    var found := scope.products.Get(sku);
    if found == null {
      found := new Product(sku, [], 0);
      var _ := scope.products.Add(found);
    }
    var created := new Batch(ref, sku, qty, eta);
    found.batches := found.batches + [created];
    uow.Exit(None);
    product, batch := found, created;
  }
}
