/**
 * The message handlers of services_layer/handlers.py. Each runs its work
 * inside the unit of work's scope: `Enter`, the steps of the `with` block,
 * then `Exit` with the exception the block raised, if any. A handler's
 * return value is its `result`; a `Failure`/`Fail` is the exception that
 * propagates out of it.
 */
module Handlers {
  import opened Wrappers
  import opened Faults
  import opened Model
  import opened Repository
  import opened UnitOfWork
  import M = Messages

  /** `is_valid_sku`: some batch in the list is for the sku. */
  function IsValidSku(sku: string, batches: seq<Batch>): (r: bool)
    ensures r <==> exists i :: 0 <= i < |batches| && batches[i].sku == sku
  {
    sku in (set b | b in batches :: b.sku)
  }

  /**
   * `allocate`: allocates the line `(orderid, sku, qty)` with the stored
   * product for the sku and returns what `Product.allocate` returns; raises
   * `InvalidSku` (and rolls back) when no product is stored for the sku.
   */
  method Allocate(orderid: string, sku: string, qty: int, uow: InMemoryProductUnitOfWork)
    returns (result: Result<Option<string>, Fault>, ghost product: Product?)
    modifies uow, uow.products.products, uow.products.Batches()
    ensures product == null <==> forall q :: q in uow.products.products ==> q.sku != sku
    ensures product == null ==>
      && result == Failure(InvalidSku(sku))
      && uow.committed == old(uow.committed)
      && (forall q :: q in uow.products.products ==> unchanged(q))
      && forall c :: c in uow.products.Batches() ==> unchanged(c)
    ensures product != null ==>
      && product in uow.products.products
      && product.sku == sku
      && product.batches == old(product.batches)
      && result == Success(old(AllocationOutcome(product.batches, OrderLine(orderid, sku, qty))))
      && uow.committed
      && forall q :: q in uow.products.products && q != product ==> unchanged(q)
    ensures product != null && old(FirstFit(product.batches, OrderLine(orderid, sku, qty))).Some? ==>
      var b := product.batches[old(FirstFit(product.batches, OrderLine(orderid, sku, qty))).value];
      && b.allocations == old(b.allocations) + {OrderLine(orderid, sku, qty)}
      && b.purchasedQuantity == old(b.purchasedQuantity)
      && product.versionNumber == old(product.versionNumber) + 1
      && product.messages == old(product.messages) + [M.Event(M.Allocated(orderid, sku, qty, b.reference))]
      && forall c :: c in product.batches && c != b ==> unchanged(c)
    ensures product != null && old(FirstFit(product.batches, OrderLine(orderid, sku, qty))).None? ==>
      && product.versionNumber == old(product.versionNumber)
      && product.messages == old(product.messages) + [M.Event(M.OutofStock(sku))]
      && forall c :: c in product.batches ==> unchanged(c)
    ensures product != null ==>
      forall c :: c in old(uow.products.Batches()) && c !in product.batches ==> unchanged(c)
  {
    var line := OrderLine(orderid, sku, qty);
    var scope := uow.Enter();
    var found := scope.products.Get(line.sku);
    product := found;
    if found == null {
      uow.Exit(Some(InvalidSku(line.sku)));
      return Failure(InvalidSku(line.sku)), null;
    }
    forall i | 0 <= i < |found.batches| ensures found.batches[i] in old(uow.products.Batches()) {
      assert found in uow.products.products && found.batches[i] in found.batches;
    }
    var batchref := found.Allocate(line);
    uow.Exit(None);
    result := Success(batchref);
  }

  /**
   * `add_batch`: appends a new batch `(ref, sku, qty, eta)` to the product
   * for the sku, first creating and storing that product when there is none.
   */
  method AddBatch(ref: string, sku: string, qty: int, eta: Option<int>, uow: InMemoryProductUnitOfWork)
    returns (ghost product: Product, ghost batch: Batch)
    modifies uow, uow.products, uow.products.products
    ensures uow.committed
    ensures uow.products.committed == old(uow.products.committed)
    ensures fresh(batch)
    ensures batch.reference == ref && batch.sku == sku && batch.eta == eta
    ensures batch.purchasedQuantity == qty && batch.allocations == {} && batch.Available() == qty
    ensures product in uow.products.products && product.sku == sku
    ensures (exists q :: q in old(uow.products.products) && q.sku == sku) ==>
      && product in old(uow.products.products)
      && uow.products.products == old(uow.products.products)
      && product.batches == old(product.batches) + [batch]
      && product.versionNumber == old(product.versionNumber)
      && product.messages == old(product.messages)
    ensures (forall q :: q in old(uow.products.products) ==> q.sku != sku) ==>
      && fresh(product)
      && uow.products.products == old(uow.products.products) + {product}
      && product.batches == [batch]
      && product.versionNumber == 0
      && product.messages == []
    ensures forall q :: q in old(uow.products.products) && q != product ==> unchanged(q)
  {
    var scope := uow.Enter();
    var found := scope.products.Get(sku);
    if found == null {
      found := new Product(sku, [], 0);
      var _ := scope.products.Add(found);
    }
    var created := new Batch(ref, sku, qty, eta);
    found.batches := found.batches + [created];
    uow.Exit(None);
    product, batch := found, created;
  }

  /**
   * `change_batch_quantity`: changes the quantity of batch `ref` through the
   * product that owns it. When no stored product owns it the lookup yields
   * `None` and the call on it raises; exceptions roll back.
   */
  method ChangeBatchQuantity(ref: string, qty: int, uow: InMemoryProductUnitOfWork)
    returns (result: Outcome<Fault>, ghost product: Product?, ghost evicted: seq<OrderLine>)
    modifies uow, uow.products.products, uow.products.Batches()
    ensures product == null <==> forall q :: q in uow.products.products ==> !OwnsBatch(q, ref)
    ensures product == null ==>
      && result == Fail(NoProductForBatch(ref))
      && uow.committed == old(uow.committed)
      && (forall q :: q in uow.products.products ==> unchanged(q))
      && forall c :: c in uow.products.Batches() ==> unchanged(c)
    ensures product != null ==>
      && product in uow.products.products
      && OwnsBatch(product, ref)
      && product.batches == old(product.batches)
      && product.versionNumber == old(product.versionNumber)
      && uow.committed == (result.Pass? || old(uow.committed))
      && forall q :: q in uow.products.products && q != product ==> unchanged(q)
    ensures product != null ==>
      var b := product.batches[IndexOfReference(product.batches, ref).value];
      && b.purchasedQuantity == qty
      && Evicted(old(b.allocations), b.allocations, qty, evicted, result)
      && product.messages == old(product.messages) + AllocateCommands(evicted)
      && forall c :: c in product.batches && c != b ==> unchanged(c)
    ensures product != null ==>
      forall c :: c in old(uow.products.Batches()) && c !in product.batches ==> unchanged(c)
  {
    var scope := uow.Enter();
    var owner := scope.products.GetByBatchRef(ref);
    product := owner;
    if owner == null {
      uow.Exit(Some(NoProductForBatch(ref)));
      return Fail(NoProductForBatch(ref)), null, [];
    }
    forall i | 0 <= i < |owner.batches| ensures owner.batches[i] in old(uow.products.Batches()) {
      assert owner in uow.products.products && owner.batches[i] in owner.batches;
    }
    result, evicted := owner.ChangeBatchQuantity(ref, qty);
    if result.Fail? {
      uow.Exit(Some(result.error));
    } else {
      uow.Exit(None);
    }
  }
}
