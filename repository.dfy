/**
 * The in-memory product repository of adapters/repository.py: a set of
 * `Product` objects, looked up by sku, with a `committed` flag.
 *
 * Products are kept by identity (`Product` defines no equality of its own),
 * so the store is a set of references.
 */
module Repository {
  import opened Wrappers
  import opened Faults
  import opened Model

  /** `p` has a batch with the given reference. */
  ghost predicate OwnsBatch(p: Product, ref: string)
    reads p
  {
    IndexOfReference(p.batches, ref).Some?
  }

  class InMemoryProductRepository {
    var products: set<Product>
    var committed: bool

    /** Every batch of every stored product. */
    ghost function Batches(): set<Batch>
      reads this, products
    {
      set p, b | p in products && b in p.batches :: b
    }

    /** Holds exactly the given products (none when the list is empty or absent), uncommitted. */
    constructor (initial: seq<Product>)
      ensures products == set p | p in initial
      ensures !committed
    {
      products := set p | p in initial;
      committed := false;
    }

    /** `add`: stores a `Product`; anything else is refused and the store stays as it was. */
    method Add(item: object) returns (result: Outcome<Fault>)
      modifies this
      ensures committed == old(committed)
      ensures item is Product ==> result == Pass && products == old(products) + {item as Product}
      ensures !(item is Product) ==> result == Fail(NotAProduct) && products == old(products)
    {
      if item is Product {
        products := products + {item as Product};
        result := Pass;
      } else {
        result := Fail(NotAProduct);
      }
    }

    /**
     * `get`: some stored product with the sku, or null exactly when there is
     * none. Which one, if several share the sku, is not determined.
     */
    method Get(sku: string) returns (p: Product?)
      ensures p != null ==> p in products && p.sku == sku
      ensures p == null <==> forall q :: q in products ==> q.sku != sku
    {
      var rest := products;
      while rest != {}
        invariant rest <= products
        invariant forall q :: q in products - rest ==> q.sku != sku
        decreases |rest|
      {
        var q :| q in rest;
        if q.sku == sku {
          return q;
        }
        rest := rest - {q};
      }
      p := null;
    }

    /**
     * `get_by_batchref`: some stored product owning a batch with the
     * reference, or null exactly when no stored product owns one.
     */
    method GetByBatchRef(ref: string) returns (p: Product?)
      ensures p != null ==> p in products && OwnsBatch(p, ref)
      ensures p == null <==> forall q :: q in products ==> !OwnsBatch(q, ref)
    {
      var rest := products;
      while rest != {}
        invariant rest <= products
        invariant forall q :: q in products - rest ==> !OwnsBatch(q, ref)
        decreases |rest|
      {
        var q :| q in rest;
        if IndexOfReference(q.batches, ref).Some? {
          return q;
        }
        rest := rest - {q};
      }
      p := null;
    }

    /** `commit`: marks the repository committed and changes nothing else. */
    method Commit()
      modifies this
      ensures committed
      ensures products == old(products)
    {
      committed := true;
    }

    /** `list`: every stored product, each once. */
    method List() returns (ps: seq<Product>)
      ensures forall p :: p in ps <==> p in products
      ensures forall x, y :: 0 <= x < y < |ps| ==> ps[x] != ps[y]
      ensures |ps| == |products|
    {
      ps := [];
      var rest := products;
      while rest != {}
        invariant rest <= products
        invariant forall p :: p in ps <==> p in products - rest
        invariant forall x, y :: 0 <= x < y < |ps| ==> ps[x] != ps[y]
        invariant |ps| + |rest| == |products|
        decreases |rest|
      {
        var q :| q in rest;
        assert q !in ps;
        ps := ps + [q];
        rest := rest - {q};
      }
    }
  }

  /** After `add(p)`, `get(p.sku)` never comes back empty: it finds a product with that sku. */
  method AddThenGet(repo: InMemoryProductRepository, p: Product) returns (found: Product?)
    modifies repo
    ensures repo.products == old(repo.products) + {p}
    ensures found != null && found in repo.products && found.sku == p.sku
  {
    var _ := repo.Add(p);
    found := repo.Get(p.sku);
  }
}
