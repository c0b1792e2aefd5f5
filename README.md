# Stock allocation: domain model, in-memory repository, unit of work and handlers

This project is a Dafny model of the allocation core of a small Python
domain-driven-design service. It proves properties about that model.

- **Domain.** An `OrderLine` is a value: order id, sku and quantity. A `Batch`
  is stock bought for one sku: a reference, an optional eta and a purchased
  quantity. It holds a set of allocated lines. A `Product` is the aggregate of
  all batches of one sku. It has a version number and an outbox of messages.
- **Allocation.** A line goes to the first batch that can take it. Batches are
  tried in a stable order: undated batches first, then by ascending eta, and
  ties keep their list position.
- **Quantity changes.** Changing a batch's quantity evicts allocated lines
  while the batch is over-allocated. Each evicted line gets an `Allocate`
  command so it can be allocated again.
- **Repository.** The in-memory repository is a set of `Product` references
  with a `committed` flag.
- **Unit of work.** The in-memory unit of work commits when its `with` block
  ends normally. When the block raises, it "rolls back", which in memory
  undoes nothing.
- **Handlers and services.** `allocate`, `add_batch` and
  `change_batch_quantity` run inside the unit of work's scope.

Files:

| file | models |
|---|---|
| `wrappers.dfy` | `Option`, `Result` and `Outcome` (a result with no value) |
| `faults.dfy` | the exceptions the core raises, as values |
| `messages.dfy` | the events of `domain/events.py` and the `Allocate` command |
| `model.dfy` | `domain/model.py` |
| `repository.dfy` | `InMemoryProductRepository` of `adapters/repository.py` |
| `unit_of_work.dfy` | `AbstractUnitOfWork`'s scope protocol and `InMemoryProductUnitOfWork` |
| `handlers.dfy` | `services_layer/handlers.py` |
| `services.dfy` | `services_layer/services.py` |
| `scenarios.dfy` | the scenarios of `tests/unit/test_handlers.py`, driven through the handlers |

How the model is built:

- **State.** `Batch`, `Product`, the repository and the unit of work are
  classes whose fields the methods update in place.
- **Quantities.** The sum over a batch's allocation set is the ghost function
  `SumQty`. `allocated_quantity` is a loop over the set that is proved equal
  to it.
- **Exceptions.** An exception the Python code raises is a `Failure`/`Fail`
  value of `Faults.Fault`.
- **`with` blocks.** A `with uow:` block is `Enter`, then the block's steps,
  then `Exit` with the fault the block raised, if any.
- **`sorted(batches)`.** Python's sort is stable and only ever asks `b > a`.
  It is modelled as an insertion sort of list positions by `Precedes`: `Greater`
  first, then position. `SortedOrderIsStableSort` proves the result is a
  permutation of the positions in that order.
- **`set.pop()`.** It removes an arbitrary element, chosen with `:|`. The
  eviction contracts state only what holds whichever lines are chosen.
  Ghost out-parameters (`evicted`, `product`, `batch`) name the choices so
  that the contracts can speak of them.

## Model

| member | source | states |
|---|---|---|
| Model.SumQtyRemove | domain/model.py:35-37 | removing a line from an allocation set lowers the summed quantity by exactly that line's qty |
| Model.SumQtyAdd | domain/model.py:35-37 | adding a line that is not yet in the set raises the summed quantity by that line's qty |
| Model.Batch.constructor | domain/model.py:17-22 | a new batch has the given reference, sku, eta and purchased quantity, no allocations, and its availability is the purchased quantity |
| Model.Batch.AllocatedQuantity | domain/model.py:35-37 | the loop over the allocation set returns the sum of the qty of the allocated lines |
| Model.Batch.AvailableQuantity | domain/model.py:39-41 | availability is the purchased quantity minus the sum of allocated quantities |
| Model.Batch.CanAllocate | domain/model.py:43-44 | true exactly when the skus match and availability is at least the line's qty |
| Model.Batch.Allocate | domain/model.py:24-26 | no-op when the line does not fit. Otherwise the line is in the set afterwards. Allocating a line already present changes nothing. Availability drops by qty for a new line. Non-negative availability stays non-negative |
| Model.Batch.Deallocate | domain/model.py:28-30 | removes the line if present. An unallocated line leaves the set unchanged. Availability rises by the removed qty |
| Model.Batch.DeallocateOne | domain/model.py:32-33 | on an empty set it fails with the pop-from-empty-set fault. Otherwise it removes and returns one line that was allocated, and nothing else changes |
| Model.Batch.Equals | domain/model.py:46-49 | `__eq__`: two batches are equal exactly when their references are equal; the other fields play no part |
| Model.Batch.HashKey | domain/model.py:58-59 | `__hash__`: the value hashed is the reference alone |
| Model.Batch.Greater | domain/model.py:51-56 | `__gt__`: an undated batch is never greater, a dated batch is greater than an undated one, and two dated batches compare by eta |
| Model.EqualityIsByReference | domain/model.py:46-59 | batch equality compares references only, so it is an equivalence, and equal batches hash equally |
| Model.GreaterIsStrictWeakOrder | domain/model.py:51-56 | `>` on batches is irreflexive, asymmetric and transitive, and incomparability is transitive. Python's `sorted` therefore has a consistent order to follow |
| Model.PrecedesIsEtaThenPosition | domain/model.py:71-73 | in the sort, batch i comes before batch j exactly when i is undated and j dated, or both are dated and i's eta is earlier, or their etas are equal and i is earlier in the list |
| Model.PrecedesTransitive | domain/model.py:71-73 | the sort's ordering of positions is transitive |
| Model.SortPositions | domain/model.py:71-73 | sorting positions yields a permutation of them that still indexes the batch list |
| Model.InsertPositionKeepsPositions | domain/model.py:71-73 | inserting a position adds exactly that position and keeps every position in range |
| Model.InsertPositionSorted | domain/model.py:71-73 | inserting a new position into a sorted order keeps it sorted |
| Model.SortedTail | domain/model.py:71-73 | dropping the first entry of a sorted order leaves it sorted |
| Model.ConsSorted | domain/model.py:71-73 | a position that precedes every entry of a sorted order can be put in front of it and the order stays sorted |
| Model.SortPositionsSorted | domain/model.py:71-73 | sorting distinct positions yields a permutation of them in `Precedes` order |
| Model.SortedOrderIsStableSort | domain/model.py:71-73 | the sorted order lists every position of the batch list once, ordered undated first, then by eta, ties by list position |
| Model.SortedOrder | domain/model.py:71-73 | the positions of the batch list in the order `sorted(batches)` visits them, computed by sorting `0, 1, ..., n-1` with `SortPositions` |
| Model.FirstFitIn | domain/model.py:71-73 | the `next(...)` scan: the first entry of a visiting order whose batch can allocate the line, or nothing; a found entry is one of the order's entries |
| Model.FirstFitInFound | domain/model.py:71-73 | scanning an order returns the first position in it whose batch can allocate, or nothing when none can |
| Model.FirstFitSelects | domain/model.py:71-73 | the selected batch can allocate, and every batch before it in sorted order cannot. Nothing is selected exactly when no batch can allocate |
| Model.FirstFitIsUnique | domain/model.py:71-73 | at most one batch is the first fit |
| Model.FirstFitFound | domain/model.py:71-73 | a batch that can allocate, with none before it in sorted order that can, is the one selected |
| Model.SelectBatch | domain/model.py:71-73 | the loop over the sorted order returns the first batch that can allocate, or nothing exactly when none can |
| Model.IndexOfReference | domain/model.py:85 | returns the first position with the reference, or nothing exactly when no batch has it |
| Model.EvictionLogStep | domain/model.py:87-91 | evicting one more remaining line while over-allocated extends the record of evictions, each made while over-allocated |
| Model.EvictingStep | domain/model.py:87-91 | one pass of the eviction loop, taking a remaining line while over-allocated, keeps the eviction record, the remaining set and the nothing-to-evict case in step |
| Model.AllocateCommandsStep | domain/model.py:88-91 | one more evicted line appends exactly one `Allocate` command with that line's orderid, sku and qty |
| Model.Product.constructor | domain/model.py:63-67 | a new product has the given sku, batches and version number and no messages |
| Model.Product.Allocate | domain/model.py:69-81 | on success the first-fit batch gains the line and availability drops by qty, the version rises by 1, one `Allocated` message is appended, that batch's reference is returned and no other batch changes. With no fit, one `OutofStock` is appended, None is returned and batches and version are unchanged. No batch becomes over-allocated |
| Model.Product.ChangeBatchQuantity | domain/model.py:84-91 | a missing reference fails and changes nothing. Otherwise the batch gets the new quantity and sheds lines, each with one `Allocate` command. Availability ends non-negative when qty >= 0. Nothing is evicted if the new qty already covers the allocations. Version and other batches are unchanged |
| Model.Product.EvictWhileOverAllocated | domain/model.py:87-91 | the loop evicts distinct allocated lines only while over-allocated. It appends one command per evicted line, in order. It ends with availability >= 0, or fails only when a negative quantity empties the set |
| Model.Allocate | domain/model.py:101-109 | selects the same first-fit batch as `Product.allocate` and returns its reference. When no batch can allocate, it fails with `OutOfStock` and changes no batch |
| Repository.InMemoryProductRepository.constructor | adapters/repository.py:41-47 | holds exactly the products passed in (none for an empty list) and is uncommitted |
| Repository.InMemoryProductRepository.Add | adapters/repository.py:49-53 | a `Product` is added to the store. Any other object is refused with a fault and the store is unchanged |
| Repository.InMemoryProductRepository.Get | adapters/repository.py:55-56 | returns a stored product with the sku, or None exactly when no stored product has it |
| Repository.InMemoryProductRepository.GetByBatchRef | services_layer/handlers.py:51 | returns a stored product owning a batch with the reference, or None exactly when none owns one |
| Repository.InMemoryProductRepository.Commit | adapters/repository.py:59-60 | sets `committed` and leaves the products unchanged |
| Repository.InMemoryProductRepository.List | adapters/repository.py:62-63 | returns every stored product exactly once |
| Repository.AddThenGet | adapters/repository.py:49-56 | after `add(p)`, `get(p.sku)` finds a stored product with that sku, never None |
| UnitOfWork.InMemoryProductUnitOfWork.constructor | services_layer/unit_of_work.py:37-39 | a new unit of work has a fresh, empty, uncommitted repository and is itself uncommitted |
| UnitOfWork.InMemoryProductUnitOfWork.Enter | services_layer/unit_of_work.py:17-18 | entering returns the same unit of work and changes nothing |
| UnitOfWork.InMemoryProductUnitOfWork.Exit | services_layer/unit_of_work.py:20-24 | a clean exit commits. An exit with an exception leaves `committed` as it was and the exception propagates. The repository's contents are not touched either way |
| UnitOfWork.InMemoryProductUnitOfWork.Commit | services_layer/unit_of_work.py:41-42 | sets `committed` |
| UnitOfWork.InMemoryProductUnitOfWork.Rollback | services_layer/unit_of_work.py:44-45 | changes nothing, so nothing mutated inside the scope is reverted |
| Handlers.IsValidSku | services_layer/handlers.py:11-12 | true exactly when some batch in the list has the sku. The identical `is_valid_sku` of services_layer/services.py (lines 11-12) is this same function |
| Handlers.Allocate | services_layer/handlers.py:15-24 | with no product for the sku it raises `InvalidSku`, takes the rollback path and changes nothing. Otherwise it returns what `Product.allocate` returns: the first-fit batch gains the line, the version rises by 1 and the message is recorded. The unit of work commits. No batch of any other stored product changes. |
| Handlers.AddBatch | services_layer/handlers.py:27-35 | a product is created and stored only when none has the sku, otherwise the existing one is reused. One new batch with the given fields and full availability is appended at the end. Earlier batches and other products are unchanged, and the unit of work commits |
| Handlers.ChangeBatchQuantity | services_layer/handlers.py:47-52 | with no owning product it faults and rolls back. Otherwise it does exactly what `Product.change_batch_quantity` does to the owning product's batch and messages. It commits exactly when that succeeds. No batch of any other stored product changes. |
| Services.Allocate | services_layer/services.py:15-25 | with no product for the sku it raises `InvalidSku` and modifies no batch. Otherwise it returns the reference the module-level `allocate` chooses and commits, or propagates `OutOfStock` and rolls back. No product's version or messages change. No batch of any other stored product changes. |
| Services.AddBatch | services_layer/services.py:28-36 | creates the product only when absent and appends one batch with the given fields at the end of its list |
| HandlerScenarios.SumOfOne | domain/model.py:35-37 | the allocated quantity of a single line is its qty |
| HandlerScenarios.SumOfTwo | domain/model.py:35-37 | the allocated quantity of two distinct lines is the sum of their qtys |
| HandlerScenarios.AddBatchForNewProduct | tests/unit/test_handlers.py:10-16 | after adding a batch for a new sku, `get` of that sku is not None |
| HandlerScenarios.AllocateReturnsAllocation | tests/unit/test_handlers.py:21-25 | allocating 10 from a lone batch of 100 returns `batch1` |
| HandlerScenarios.ChangesAvailableQuantity | tests/unit/test_handlers.py:28-38 | a batch of 100 reads 100 available, and 50 after its quantity is changed to 50 |
| HandlerScenarios.TwoBatchesStored | tests/unit/test_handlers.py:50 | when the repository holds one product with two batches, those are all the stored batches |
| HandlerScenarios.CreateTwoBatches | tests/unit/test_handlers.py:41-44 | two `add_batch` calls give one product with an undated `batch1` and a dated `batch2`, in that order, 50 each, nothing allocated |
| HandlerScenarios.AllocateToUndated | tests/unit/test_handlers.py:45-49 | while the undated batch has room for 20 more, a 20-unit order through the allocate handler lands in it and the dated batch stays empty |
| HandlerScenarios.AllocateBothOrders | tests/unit/test_handlers.py:45-52 | both 20-unit orders land in the undated batch, leaving the dated one untouched |
| HandlerScenarios.EvictsOneOfTwo | tests/unit/test_handlers.py:54-57 | cutting a batch that holds two 20-unit lines to 25 evicts exactly one of them |
| HandlerScenarios.ShrinkUndatedBatch | tests/unit/test_handlers.py:54-57 | changing `batch1` to 25 leaves one of the two orders in it and records an `Allocate` command for the other |
| HandlerScenarios.ReallocateMoved | tests/unit/test_handlers.py:58-59 | handing the recorded command to the allocate handler puts the evicted line in the dated batch |
| HandlerScenarios.ReallocatesIfNecessary | tests/unit/test_handlers.py:40-59 | availabilities are 10 and 50 before the change and 5 and 30 after the evicted line is re-allocated |

## Left out

- Message dispatch (`services_layer/messagebus.py`), the HTTP entry point, the Redis publisher and the email-sending `send_out_of_stock_notification` are not modelled. They are foreign I/O or wiring.
- The scenarios re-allocate the evicted line by handing the recorded `Allocate` command to the allocate handler, in place of message dispatch.
- `SqlAlchemyProductRepository` and `SqlAlchemyUnitOfWork` are not modelled. They are ORM session I/O.
- The abstract base classes have no separate Dafny form. Their one concrete behaviour, `__enter__`/`__exit__`, is modelled on the in-memory unit of work.
- The `print` in `rollback` is logging only.
- `__str__` of `Product` is not modelled. It is display text.
- Dates are integers (day numbers), and `eta` is `Option<int>`.
- `Batch.__eq__` returning False for a non-`Batch` argument is excluded by Dafny's typing. `__hash__` is modelled as the reference the hash is computed from.
- The handlers take the fields of their message rather than the message object. The tests' missing names (`InMemoryUnitOfWork`, `AllocationRequired`, a two-argument `handle`) are not modelled. Their scenarios are driven through the handlers directly.
- `get_by_batchref` is called by `change_batch_quantity` but no repository defines it. `GetByBatchRef` supplies it as "some stored product that owns a batch with that reference". Calling the missing method, which would raise `AttributeError`, is not modelled.
- `handlers.py` and `services.py` each define their own `InvalidSku` exception class. Both are the one `InvalidSku` fault here, because nothing in the modelled code catches either class or tells them apart.
- Python integers are unbounded, and so are Dafny's. Quantities of any sign are accepted, as in Python.
- The handlers' `result` for a raised exception is a `Failure`/`Fail` value, not a non-local exit. The order of "exit the scope, then propagate" is kept.
- Model.Batch.DeallocateOne: which line `set.pop()` removes is not determined. The contracts state only the aggregate outcome.
- Repository.InMemoryProductRepository.Get: which product is returned when several share a sku is not determined. Python's set iteration order is not modelled.
- Repository.InMemoryProductRepository.List: the order of the returned list is not determined, as with Python's set iteration.
