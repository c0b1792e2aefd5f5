/**
 * The in-memory unit of work of services_layer/unit_of_work.py: a scope that
 * commits when it is left normally and rolls back when it is left by an
 * exception.
 *
 * A `with uow:` block is modelled as `Enter`, the block's own steps, and
 * `Exit` with the exception the block raised, if any.
 */
module UnitOfWork {
  import opened Wrappers
  import opened Faults
  import opened Repository

  class InMemoryProductUnitOfWork {
    /** The companion repository; the in-memory unit of work never replaces it. */
    const products: InMemoryProductRepository
    var committed: bool

    /** A fresh unit of work over a fresh, empty, uncommitted repository. */
    constructor ()
      ensures fresh(products)
      ensures products.products == {} && !products.committed
      ensures !committed
    {
      products := new InMemoryProductRepository([]);
      committed := false;
    }

    /** `__enter__`: the unit of work itself, unchanged. */
    method Enter() returns (u: InMemoryProductUnitOfWork)
      ensures u == this
    {
      u := this;
    }

    /**
     * `__exit__`: commits when the block raised nothing and rolls back
     * otherwise. It returns nothing, so a raised exception propagates. Rolling
     * back the in-memory unit of work does not undo what the block changed.
     */
    method Exit(raised: Option<Fault>)
      modifies this
      ensures raised.None? ==> committed
      ensures raised.Some? ==> committed == old(committed)
      ensures products.products == old(products.products)
      ensures products.committed == old(products.committed)
    {
      if raised.None? {
        Commit();
      } else {
        Rollback(raised.value);
      }
    }

    /** `commit`: sets the flag; the repository is untouched. */
    method Commit()
      modifies this
      ensures committed
    {
      committed := true;
    }

    /** `rollback`: only reports the exception; nothing is undone and nothing changes. */
    method Rollback(raised: Fault)
      ensures committed == old(committed)
    {
    }
  }
}
