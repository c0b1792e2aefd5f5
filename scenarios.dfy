/**
 * The handler scenarios of tests/unit/test_handlers.py, stated against the
 * model: each method builds a fresh unit of work, drives the handlers as the
 * scenario does, and returns what the scenario observes. The re-allocation
 * of an evicted line, which the scenario leaves to message dispatch, is done
 * here by handing the recorded `Allocate` command to the allocate handler.
 */
module HandlerScenarios {
  import opened Wrappers
  import opened Faults
  import opened Model
  import opened Repository
  import opened UnitOfWork
  import Handlers
  import M = Messages

  /** The sum over a single line is its quantity. */
  lemma SumOfOne(a: OrderLine)
    ensures SumQty({a}) == a.qty
  {
    SumQtyAdd({}, a);
    assert {} + {a} == {a};
  }

  /** The sum over two distinct lines adds their quantities. */
  lemma SumOfTwo(a: OrderLine, b: OrderLine)
    requires a != b
    ensures SumQty({a}) == a.qty && SumQty({b}) == b.qty
    ensures SumQty({a, b}) == a.qty + b.qty
  {
    SumOfOne(a);
    SumOfOne(b);
    SumQtyAdd({a}, b);
    assert {a} + {b} == {a, b};
  }

  /** Adding a batch for a new sku stores a product for it. */
  method AddBatchForNewProduct() returns (stored: bool)
    ensures stored
  {
    var uow := new InMemoryProductUnitOfWork();
    var _, _ := Handlers.AddBatch("b1", "CRUNCHY-ARMCHAIR", 100, None, uow);
    var got := uow.products.Get("CRUNCHY-ARMCHAIR");
    stored := got != null;
  }

  /** Allocating from a lone batch of 100 returns that batch's reference. */
  method AllocateReturnsAllocation() returns (result: Result<Option<string>, Fault>)
    ensures result == Success(Some("batch1"))
  {
    var uow := new InMemoryProductUnitOfWork();
    var product, batch := Handlers.AddBatch("batch1", "COMPLICATED-LAMP", 100, None, uow);
    var line := OrderLine("o1", "COMPLICATED-LAMP", 10);
    assert IsFirstFit(product.batches, line, 0);
    FirstFitFound(product.batches, line, 0);
    var r, _ := Handlers.Allocate("o1", "COMPLICATED-LAMP", 10, uow);
    result := r;
  }

  /** Reducing an unallocated batch of 100 to 50 leaves 50 available. */
  method ChangesAvailableQuantity() returns (before: int, after: int)
    ensures before == 100 && after == 50
  {
    var uow := new InMemoryProductUnitOfWork();
    var _, _ := Handlers.AddBatch("batch1", "ADORABLE-SETTEE", 100, None, uow);
    var product := uow.products.Get("ADORABLE-SETTEE");
    assert product != null && |product.batches| == 1;
    var batch := product.batches[0];
    before := batch.AvailableQuantity();
    var _, _, _ := Handlers.ChangeBatchQuantity("batch1", 50, uow);
    after := batch.AvailableQuantity();
  }

  /** The product of the reallocation scenario: its two batches and their state. */
  ghost predicate TwoBatchState(uow: InMemoryProductUnitOfWork, product: Product, batch1: Batch, batch2: Batch,
                                a1: set<OrderLine>, a2: set<OrderLine>)
    reads uow, uow.products, product, batch1, batch2
  {
    && uow.products.products == {product}
    && product.sku == "INDIFFERENT-TABLE"
    && product.batches == [batch1, batch2]
    && batch1 != batch2
    && batch1.reference == "batch1" && batch1.sku == product.sku && batch1.eta.None?
    && batch2.reference == "batch2" && batch2.sku == product.sku && batch2.eta.Some?
    && batch1.purchasedQuantity == 50 && batch2.purchasedQuantity == 50
    && batch1.allocations == a1 && batch2.allocations == a2
  }

  /** In the scenario's state the repository's batches are exactly the two. */
  lemma TwoBatchesStored(uow: InMemoryProductUnitOfWork, product: Product, batch1: Batch, batch2: Batch)
    requires uow.products.products == {product} && product.batches == [batch1, batch2]
    ensures uow.products.Batches() == {batch1, batch2}
  {
    assert batch1 in product.batches && batch2 in product.batches;
    forall b | b in uow.products.Batches() ensures b == batch1 || b == batch2 {
      var p :| p in uow.products.products && b in p.batches;
      assert p == product;
    }
  }

  /** The two batches of the scenario, created through the handler. */
  method CreateTwoBatches(today: int) returns (uow: InMemoryProductUnitOfWork, batch1: Batch, batch2: Batch, ghost product: Product)
    ensures fresh(uow) && fresh(uow.products) && fresh(product) && fresh(batch1) && fresh(batch2)
    ensures TwoBatchState(uow, product, batch1, batch2, {}, {})
  {
    var sku := "INDIFFERENT-TABLE";
    uow := new InMemoryProductUnitOfWork();
    var _, _ := Handlers.AddBatch("batch1", sku, 50, None, uow);
    var _, _ := Handlers.AddBatch("batch2", sku, 50, Some(today), uow);
    var stored := uow.products.Get(sku);
    batch1, batch2 := stored.batches[0], stored.batches[1];
    product := stored;
  }

  /** A 20-unit order lands in the undated batch while that batch still has room for it. */
  method AllocateToUndated(uow: InMemoryProductUnitOfWork, batch1: Batch, batch2: Batch, ghost product: Product,
                           orderid: string, ghost a1: set<OrderLine>)
    requires TwoBatchState(uow, product, batch1, batch2, a1, {})
    requires SumQty(a1) <= 30
    modifies uow, product, batch1, batch2
    ensures TwoBatchState(uow, product, batch1, batch2, a1 + {OrderLine(orderid, "INDIFFERENT-TABLE", 20)}, {})
  {
    var line := OrderLine(orderid, "INDIFFERENT-TABLE", 20);
    TwoBatchesStored(uow, product, batch1, batch2);
    FirstFitFound(product.batches, line, 0);
    var _, _ := Handlers.Allocate(orderid, "INDIFFERENT-TABLE", 20, uow);
  }

  /** Both 20-unit orders land in the undated batch. */
  method AllocateBothOrders(uow: InMemoryProductUnitOfWork, batch1: Batch, batch2: Batch, ghost product: Product)
    requires TwoBatchState(uow, product, batch1, batch2, {}, {})
    modifies uow, product, batch1, batch2
    ensures TwoBatchState(uow, product, batch1, batch2,
      {OrderLine("order1", "INDIFFERENT-TABLE", 20), OrderLine("order2", "INDIFFERENT-TABLE", 20)}, {})
  {
    SumOfOne(OrderLine("order1", "INDIFFERENT-TABLE", 20));
    AllocateToUndated(uow, batch1, batch2, product, "order1", {});
    AllocateToUndated(uow, batch1, batch2, product, "order2", {OrderLine("order1", "INDIFFERENT-TABLE", 20)});
  }

  /**
   * Cutting a batch holding two distinct 20-unit lines to 25 evicts exactly
   * one of them and keeps the other.
   */
  lemma {:induction false} EvictsOneOfTwo(a: OrderLine, b: OrderLine, after: set<OrderLine>,
                                          evicted: seq<OrderLine>, result: Outcome<Fault>)
    requires a != b && a.qty == 20 && b.qty == 20
    requires Evicted({a, b}, after, 25, evicted, result)
    ensures |evicted| == 1 && evicted[0] in {a, b}
    ensures after == {a, b} - {evicted[0]}
    ensures after == {a} || after == {b}
  {
    SumOfTwo(a, b);
    assert after != {a, b};
    assert evicted != [];
    assert evicted[0] in Elems(evicted);
    var rest := {a, b} - {evicted[0]};
    assert rest == {a} || rest == {b};
    assert Elems(evicted[..1]) == {evicted[0]};
    assert 25 - SumQty(rest) >= 0;
    assert Elems(evicted) == {evicted[0]} by {
      assert evicted == evicted[..1];
    }
  }

  /**
   * Cutting the undated batch to 25 evicts exactly one of the two lines and
   * records one `Allocate` command for it.
   */
  method ShrinkUndatedBatch(uow: InMemoryProductUnitOfWork, batch1: Batch, batch2: Batch, ghost product: Product)
    returns (ghost moved: OrderLine)
    requires TwoBatchState(uow, product, batch1, batch2,
      {OrderLine("order1", "INDIFFERENT-TABLE", 20), OrderLine("order2", "INDIFFERENT-TABLE", 20)}, {})
    modifies uow, product, batch1, batch2
    ensures uow.products.products == {product} && product.batches == [batch1, batch2]
    ensures moved in {OrderLine("order1", "INDIFFERENT-TABLE", 20), OrderLine("order2", "INDIFFERENT-TABLE", 20)}
    ensures batch1.purchasedQuantity == 25 && batch2.purchasedQuantity == 50
    ensures batch1.allocations ==
      {OrderLine("order1", "INDIFFERENT-TABLE", 20), OrderLine("order2", "INDIFFERENT-TABLE", 20)} - {moved}
    ensures batch2.allocations == {}
    ensures |product.messages| > 0
    ensures product.messages[|product.messages| - 1] == M.Command(M.Allocate(moved.orderid, moved.sku, moved.qty))
  {
    var sku := "INDIFFERENT-TABLE";
    var order1 := OrderLine("order1", sku, 20);
    var order2 := OrderLine("order2", sku, 20);
    var both := {order1, order2};
    SumOfTwo(order1, order2);
    TwoBatchesStored(uow, product, batch1, batch2);
    assert IndexOfReference(product.batches, "batch1") == Some(0);
    var result, _, evicted := Handlers.ChangeBatchQuantity("batch1", 25, uow);
    EvictsOneOfTwo(order1, order2, batch1.allocations, evicted, result);
    moved := evicted[0];
    assert Elems(evicted) == {moved};
  }

  /** The re-requested line fits only the dated batch, so it lands there. */
  method ReallocateMoved(uow: InMemoryProductUnitOfWork, batch1: Batch, batch2: Batch, ghost product: Product,
                         ghost moved: OrderLine)
    requires uow.products.products == {product} && product.batches == [batch1, batch2] && batch1 != batch2
    requires product.sku == "INDIFFERENT-TABLE" && batch2.sku == product.sku
    requires moved.sku == product.sku && moved.qty == 20
    requires batch1.Available() == 5 && batch2.purchasedQuantity == 50 && batch2.allocations == {}
    requires |product.messages| > 0
    requires product.messages[|product.messages| - 1] == M.Command(M.Allocate(moved.orderid, moved.sku, moved.qty))
    modifies uow, product, batch1, batch2
    ensures batch1.Available() == 5
    ensures batch2.purchasedQuantity == 50 && batch2.allocations == {moved}
  {
    var stored := uow.products.Get("INDIFFERENT-TABLE");
    var message := stored.messages[|stored.messages| - 1];
    var command := message.command;
    TwoBatchesStored(uow, product, batch1, batch2);
    assert !batch1.Fits(moved) && batch2.Fits(moved);
    FirstFitFound(product.batches, moved, 1);
    assert OrderLine(command.orderid, command.sku, command.qty) == moved;
    var _, owner := Handlers.Allocate(command.orderid, command.sku, command.qty, uow);
    assert owner == product;
    assert batch1 in product.batches && batch1 != product.batches[1];
  }

  /**
   * Two batches of 50, the undated one first; two lines of 20 both land in
   * the undated batch. Cutting it to 25 evicts one line, and re-allocating
   * that line puts it in the dated batch: 5 and 30 remain.
   */
  method ReallocatesIfNecessary(today: int) returns (before1: int, before2: int, after1: int, after2: int)
    ensures before1 == 10 && before2 == 50
    ensures after1 == 5 && after2 == 30
  {
    var uow, batch1, batch2, product := CreateTwoBatches(today);
    AllocateBothOrders(uow, batch1, batch2, product);
    SumOfTwo(OrderLine("order1", "INDIFFERENT-TABLE", 20), OrderLine("order2", "INDIFFERENT-TABLE", 20));
    before1 := batch1.AvailableQuantity();
    before2 := batch2.AvailableQuantity();
    var moved := ShrinkUndatedBatch(uow, batch1, batch2, product);
    SumOfOne(OrderLine("order1", "INDIFFERENT-TABLE", 20));
    SumOfOne(OrderLine("order2", "INDIFFERENT-TABLE", 20));
    assert batch1.allocations == {OrderLine("order1", "INDIFFERENT-TABLE", 20)}
        || batch1.allocations == {OrderLine("order2", "INDIFFERENT-TABLE", 20)};
    ReallocateMoved(uow, batch1, batch2, product, moved);
    SumOfOne(moved);
    after1 := batch1.AvailableQuantity();
    after2 := batch2.AvailableQuantity();
  }
}
