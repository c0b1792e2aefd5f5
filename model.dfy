/**
 * The stock-allocation domain of domain/model.py: order lines, batches of
 * stock, and the `Product` aggregate that allocates lines to its batches.
 *
 * Expected-arrival dates (`eta`) are day numbers; `None` means the stock is
 * already in the warehouse.
 */
module Model {
  import opened Wrappers
  import opened Faults
  import M = Messages

  /** One line of a customer order. A value: equal when all fields are. */
  datatype OrderLine = OrderLine(orderid: string, sku: string, qty: int)

  // ---------------------------------------------------------------------
  // Sums of quantities over a set of order lines
  // ---------------------------------------------------------------------

  /** The sum of `qty` over a set of lines, in no particular order. */
  ghost function SumQty(lines: set<OrderLine>): int
    decreases |lines|
  {
    if lines == {} then 0 else var l :| l in lines; l.qty + SumQty(lines - {l})
  }

  /** Any line of the set may be taken out first: the sum does not depend on the order. */
  lemma {:induction false} SumQtyRemove(lines: set<OrderLine>, l: OrderLine)
    requires l in lines
    ensures SumQty(lines) == l.qty + SumQty(lines - {l})
    decreases |lines|
  {
    var m :| m in lines && SumQty(lines) == m.qty + SumQty(lines - {m});
    if m != l {
      assert l in lines - {m};
      SumQtyRemove(lines - {m}, l);
      assert m in lines - {l};
      SumQtyRemove(lines - {l}, m);
      assert lines - {m} - {l} == lines - {l} - {m};
    }
  }

  /** Adding a line that was not there adds its quantity to the sum. */
  lemma SumQtyAdd(lines: set<OrderLine>, l: OrderLine)
    requires l !in lines
    ensures SumQty(lines + {l}) == SumQty(lines) + l.qty
  {
    SumQtyRemove(lines + {l}, l);
    assert lines + {l} - {l} == lines;
  }

  /** The set of lines of a sequence. */
  ghost function Elems(lines: seq<OrderLine>): set<OrderLine>
  {
    set l | l in lines
  }

  /** The `Allocate` commands that re-request the given lines, one per line, in order. */
  function AllocateCommands(lines: seq<OrderLine>): seq<M.Message>
  {
    seq(|lines|, k requires 0 <= k < |lines| =>
      M.Command(M.Allocate(lines[k].orderid, lines[k].sku, lines[k].qty)))
  }

  // ---------------------------------------------------------------------
  // Batch
  // ---------------------------------------------------------------------

  /** A purchased quantity of one sku, with the order lines allocated to it. */
  class Batch {
    const reference: string
    const sku: string
    const eta: Option<int>
    var purchasedQuantity: int
    var allocations: set<OrderLine>

    constructor (ref: string, sku: string, qty: int, eta: Option<int>)
      ensures reference == ref && this.sku == sku && this.eta == eta
      ensures purchasedQuantity == qty && allocations == {}
      ensures Available() == qty
    {
      reference := ref;
      this.sku := sku;
      this.eta := eta;
      purchasedQuantity := qty;
      allocations := {};
    }

    /** The quantity taken by the allocated lines. */
    ghost function Allocated(): int
      reads this
    {
      SumQty(allocations)
    }

    /** What is left of the purchased quantity. */
    ghost function Available(): int
      reads this
    {
      purchasedQuantity - Allocated()
    }

    /** The line is for this batch's sku and there is enough left for it. */
    ghost predicate Fits(line: OrderLine)
      reads this
    {
      sku == line.sku && Available() >= line.qty
    }

    /** `allocated_quantity`: sums `qty` over the allocation set. */
    method AllocatedQuantity() returns (total: int)
      ensures total == SumQty(allocations)
    {
      total := 0;
      var rest := allocations;
      while rest != {}
        invariant rest <= allocations
        invariant total + SumQty(rest) == SumQty(allocations)
        decreases |rest|
      {
        var line :| line in rest;
        SumQtyRemove(rest, line);
        total := total + line.qty;
        rest := rest - {line};
      }
    }

    /** `available_quantity`: purchased quantity minus the allocated quantity. */
    method AvailableQuantity() returns (available: int)
      ensures available == purchasedQuantity - SumQty(allocations)
    {
      var taken := AllocatedQuantity();
      available := purchasedQuantity - taken;
    }

    /** `can_allocate`: same sku and enough available for the line. */
    method CanAllocate(line: OrderLine) returns (ok: bool)
      ensures ok <==> sku == line.sku && purchasedQuantity - SumQty(allocations) >= line.qty
    {
      var available := AvailableQuantity();
      ok := sku == line.sku && available >= line.qty;
    }

    /** `allocate`: adds the line when it fits, and does nothing otherwise. */
    method Allocate(line: OrderLine)
      modifies this
      ensures purchasedQuantity == old(purchasedQuantity)
      ensures allocations == if old(Fits(line)) then old(allocations) + {line} else old(allocations)
      ensures old(Fits(line)) ==> line in allocations
      ensures line in old(allocations) ==> allocations == old(allocations)
      ensures Available() ==
        if old(Fits(line)) && line !in old(allocations) then old(Available()) - line.qty
        else old(Available())
      ensures old(Fits(line)) && line !in old(allocations) ==> Available() >= 0
      ensures old(Available()) >= 0 ==> Available() >= 0
    {
      var ok := CanAllocate(line);
      if ok {
        if line !in allocations {
          SumQtyAdd(allocations, line);
        }
        allocations := allocations + {line};
      }
    }

    /** `deallocate`: removes the line if it is allocated, and does nothing otherwise. */
    method Deallocate(line: OrderLine)
      modifies this
      ensures purchasedQuantity == old(purchasedQuantity)
      ensures allocations == old(allocations) - {line}
      ensures line !in old(allocations) ==> allocations == old(allocations)
      ensures Available() ==
        if line in old(allocations) then old(Available()) + line.qty else old(Available())
    {
      if line in allocations {
        SumQtyRemove(allocations, line);
        allocations := allocations - {line};
      }
    }

    /**
     * `deallocate_one`: removes and returns some allocated line; which one is
     * not determined. Raises `KeyError` when nothing is allocated.
     */
    method DeallocateOne() returns (r: Result<OrderLine, Fault>)
      modifies this
      ensures purchasedQuantity == old(purchasedQuantity)
      ensures old(allocations) == {} ==> r == Failure(PopFromEmptySet) && allocations == {}
      ensures old(allocations) != {} ==>
        && r.Success?
        && r.value in old(allocations)
        && allocations == old(allocations) - {r.value}
        && Available() == old(Available()) + r.value.qty
    {
      if allocations == {} {
        return Failure(PopFromEmptySet);
      }
      var line :| line in allocations;
      SumQtyRemove(allocations, line);
      allocations := allocations - {line};
      r := Success(line);
    }

    /** `__eq__`: batches are the same entity when their references are equal. */
    function Equals(other: Batch): bool
    {
      reference == other.reference
    }

    /** `__hash__`: the hash is taken of the reference alone. */
    function HashKey(): string
    {
      reference
    }

    /**
     * `__gt__`: a batch without an eta is never greater; a dated batch is
     * greater than an undated one; two dated batches compare by eta.
     */
    function Greater(other: Batch): bool
    {
      if eta.None? then false
      else if other.eta.None? then true
      else eta.value > other.eta.value
    }
  }

  /** Batch equality is an equivalence that ignores all state but the reference, and agrees with the hash. */
  lemma EqualityIsByReference(a: Batch, b: Batch, c: Batch)
    ensures a.Equals(a)
    ensures a.Equals(b) <==> b.Equals(a)
    ensures a.Equals(b) && b.Equals(c) ==> a.Equals(c)
    ensures a.Equals(b) ==> a.HashKey() == b.HashKey()
  {
  }

  /**
   * `__gt__` is a strict weak order, so Python's `sorted` (which asks
   * `a < b` and gets the reflected `b > a`) is well defined on batches.
   */
  lemma GreaterIsStrictWeakOrder(a: Batch, b: Batch, c: Batch)
    ensures !a.Greater(a)
    ensures a.Greater(b) ==> !b.Greater(a)
    ensures a.Greater(b) && b.Greater(c) ==> a.Greater(c)
    ensures !a.Greater(b) && !b.Greater(a) && !b.Greater(c) && !c.Greater(b) ==>
      !a.Greater(c) && !c.Greater(a)
  {
  }

  // ---------------------------------------------------------------------
  // The order in which `sorted(batches)` visits the batches
  // ---------------------------------------------------------------------

  /**
   * Position `i` comes before position `j` in the stable sort of `bs`:
   * `bs[i] < bs[j]`, or neither is smaller and `i` comes first in the list.
   */
  predicate Precedes(bs: seq<Batch>, i: nat, j: nat)
    requires i < |bs| && j < |bs|
  {
    bs[j].Greater(bs[i]) || (!bs[i].Greater(bs[j]) && i < j)
  }

  /** The priority order spelled out: undated first, then earlier eta, then list position. */
  lemma PrecedesIsEtaThenPosition(bs: seq<Batch>, i: nat, j: nat)
    requires i < |bs| && j < |bs| && i != j
    ensures Precedes(bs, i, j) <==>
      || (bs[i].eta.None? && bs[j].eta.Some?)
      || (bs[i].eta.Some? && bs[j].eta.Some? && bs[i].eta.value < bs[j].eta.value)
      || (bs[i].eta == bs[j].eta && i < j)
  {
  }

  /** Every entry of `order` is a position of `bs`. */
  ghost predicate Positions(bs: seq<Batch>, order: seq<nat>)
  {
    forall k :: 0 <= k < |order| ==> order[k] < |bs|
  }

  /** `order` lists positions of `bs` in stable-sorted order. */
  ghost predicate SortedPositions(bs: seq<Batch>, order: seq<nat>)
  {
    && Positions(bs, order)
    && forall a, b :: 0 <= a < b < |order| ==> Precedes(bs, order[a], order[b])
  }

  /** Inserts position `i` before the first entry it precedes. */
  function InsertPosition(bs: seq<Batch>, i: nat, order: seq<nat>): seq<nat>
    requires i < |bs|
    requires forall k :: 0 <= k < |order| ==> order[k] < |bs|
  {
    if order == [] || Precedes(bs, i, order[0]) then [i] + order
    else [order[0]] + InsertPosition(bs, i, order[1..])
  }

  /** Insertion sort of the positions in `ps`. */
  function SortPositions(bs: seq<Batch>, ps: seq<nat>): (r: seq<nat>)
    requires Positions(bs, ps)
    ensures multiset(r) == multiset(ps)
    ensures Positions(bs, r)
  {
    if ps == [] then []
    else
      var sortedRest := SortPositions(bs, ps[1..]);
      InsertPositionKeepsPositions(bs, ps[0], sortedRest);
      assert ps == [ps[0]] + ps[1..];
      InsertPosition(bs, ps[0], sortedRest)
  }

  /** The positions of `bs` in the order `sorted(bs)` lists the batches. */
  function SortedOrder(bs: seq<Batch>): seq<nat>
  {
    SortPositions(bs, seq(|bs|, k => k))
  }

  lemma {:induction false} InsertPositionKeepsPositions(bs: seq<Batch>, i: nat, order: seq<nat>)
    requires i < |bs|
    requires forall k :: 0 <= k < |order| ==> order[k] < |bs|
    ensures multiset(InsertPosition(bs, i, order)) == multiset(order) + multiset{i}
    ensures forall k :: 0 <= k < |InsertPosition(bs, i, order)| ==> InsertPosition(bs, i, order)[k] < |bs|
  {
    if order == [] || Precedes(bs, i, order[0]) {
    } else {
      InsertPositionKeepsPositions(bs, i, order[1..]);
      assert order == [order[0]] + order[1..];
      var r := InsertPosition(bs, i, order[1..]);
      forall k | 0 <= k < |[order[0]] + r| ensures ([order[0]] + r)[k] < |bs| {
        if k > 0 {
          assert ([order[0]] + r)[k] == r[k - 1];
        }
      }
    }
  }

  /** Inserting a new position into a sorted order keeps it sorted. */
  lemma {:induction false} InsertPositionSorted(bs: seq<Batch>, i: nat, order: seq<nat>)
    requires i < |bs| && i !in order
    requires SortedPositions(bs, order)
    ensures SortedPositions(bs, InsertPosition(bs, i, order))
  {
    InsertPositionKeepsPositions(bs, i, order);
    var r := InsertPosition(bs, i, order);
    if order == [] || Precedes(bs, i, order[0]) {
      forall a, b | 0 <= a < b < |r| ensures Precedes(bs, r[a], r[b]) {
        if a > 0 {
          assert r[a] == order[a - 1] && r[b] == order[b - 1];
        } else if 0 < b - 1 {
          assert Precedes(bs, order[0], order[b - 1]);
          PrecedesTransitive(bs, i, order[0], order[b - 1]);
        }
      }
    } else {
      var x := order[0];
      var t := InsertPosition(bs, i, order[1..]);
      SortedTail(bs, order);
      assert i !in order[1..];
      InsertPositionSorted(bs, i, order[1..]);
      InsertPositionKeepsPositions(bs, i, order[1..]);
      assert r == [x] + t;
      forall b | 0 <= b < |t| ensures Precedes(bs, x, t[b]) {
        assert t[b] in multiset(t);
        if t[b] != i {
          assert t[b] in multiset(order[1..]);
          var c :| 0 <= c < |order[1..]| && order[1..][c] == t[b];
          assert order[c + 1] == t[b];
        }
      }
      ConsSorted(bs, x, t);
    }
  }

  /** The tail of a sorted order is sorted. */
  lemma SortedTail(bs: seq<Batch>, order: seq<nat>)
    requires SortedPositions(bs, order) && order != []
    ensures SortedPositions(bs, order[1..])
  {
    forall a, b | 0 <= a < b < |order[1..]|
      ensures Precedes(bs, order[1..][a], order[1..][b])
    {
      assert order[1..][a] == order[a + 1] && order[1..][b] == order[b + 1];
    }
  }

  /** A position that precedes every entry of a sorted order can head it. */
  lemma ConsSorted(bs: seq<Batch>, x: nat, t: seq<nat>)
    requires x < |bs| && SortedPositions(bs, t)
    requires forall b :: 0 <= b < |t| ==> Precedes(bs, x, t[b])
    ensures SortedPositions(bs, [x] + t)
  {
    var r := [x] + t;
    forall a, b | 0 <= a < b < |r| ensures Precedes(bs, r[a], r[b]) {
      if a > 0 {
        assert r[a] == t[a - 1] && r[b] == t[b - 1];
      } else {
        assert r[b] == t[b - 1];
      }
    }
  }

  /** The stable-sort order is transitive on positions. */
  lemma PrecedesTransitive(bs: seq<Batch>, i: nat, j: nat, k: nat)
    requires i < |bs| && j < |bs| && k < |bs|
    requires Precedes(bs, i, j) && Precedes(bs, j, k)
    ensures Precedes(bs, i, k)
  {
  }

  /** Sorting the positions `ps` sorts them and loses or adds none. */
  lemma {:induction false} SortPositionsSorted(bs: seq<Batch>, ps: seq<nat>)
    requires forall k :: 0 <= k < |ps| ==> ps[k] < |bs|
    requires forall a, b :: 0 <= a < b < |ps| ==> ps[a] != ps[b]
    ensures multiset(SortPositions(bs, ps)) == multiset(ps)
    ensures SortedPositions(bs, SortPositions(bs, ps))
  {
    if ps != [] {
      var rest := ps[1..];
      SortPositionsSorted(bs, rest);
      var sortedRest := SortPositions(bs, rest);
      InsertPositionKeepsPositions(bs, ps[0], sortedRest);
      assert ps == [ps[0]] + rest;
      assert ps[0] !in rest;
      assert ps[0] !in sortedRest by {
        assert ps[0] !in multiset(rest);
      }
      InsertPositionSorted(bs, ps[0], sortedRest);
    }
  }

  /**
   * `sorted(bs)` visits every position exactly once, in stable-sort order:
   * undated batches first, then ascending eta, ties by list position.
   */
  lemma SortedOrderIsStableSort(bs: seq<Batch>)
    ensures |SortedOrder(bs)| == |bs|
    ensures forall j :: 0 <= j < |bs| <==> j in SortedOrder(bs)
    ensures SortedPositions(bs, SortedOrder(bs))
  {
    var ps := seq(|bs|, k => k);
    SortPositionsSorted(bs, ps);
    var order := SortedOrder(bs);
    assert multiset(order) == multiset(ps);
    assert |order| == |multiset(order)| == |multiset(ps)| == |ps|;
    forall j | 0 <= j < |bs| ensures j in order {
      assert ps[j] == j;
      assert j in multiset(ps);
    }
    forall j | j in order ensures 0 <= j < |bs| {
      assert j in multiset(ps);
    }
  }

  // ---------------------------------------------------------------------
  // Batch selection: `next(b for b in sorted(batches) if b.can_allocate(line))`
  // ---------------------------------------------------------------------

  /**
   * Batch `i` is the one the allocation picks: it fits the line, and it comes
   * before every other batch that fits in the stable-sort order.
   */
  ghost predicate IsFirstFit(bs: seq<Batch>, line: OrderLine, i: nat)
    reads bs
  {
    && i < |bs|
    && bs[i].Fits(line)
    && forall j :: 0 <= j < |bs| && j != i && bs[j].Fits(line) ==> Precedes(bs, i, j)
  }

  /** No batch can take the line. */
  ghost predicate NoneFits(bs: seq<Batch>, line: OrderLine)
    reads bs
  {
    forall j :: 0 <= j < |bs| ==> !bs[j].Fits(line)
  }

  /** The first entry of `order` whose batch fits the line. */
  ghost function FirstFitIn(bs: seq<Batch>, order: seq<nat>, line: OrderLine): (r: Option<nat>)
    requires Positions(bs, order)
    reads bs
    ensures r.Some? ==> r.value in order
  {
    if order == [] then None
    else if bs[order[0]].Fits(line) then Some(order[0])
    else FirstFitIn(bs, order[1..], line)
  }

  /** The position of the batch `sorted(bs)` yields first among those that fit. */
  ghost function FirstFit(bs: seq<Batch>, line: OrderLine): (r: Option<nat>)
    reads bs
    ensures r.Some? ==> r.value < |bs|
  {
    SortedOrderIsStableSort(bs);
    FirstFitIn(bs, SortedOrder(bs), line)
  }

  lemma {:induction false} FirstFitInFound(bs: seq<Batch>, order: seq<nat>, line: OrderLine)
    requires Positions(bs, order)
    ensures FirstFitIn(bs, order, line).Some? ==>
      exists m :: 0 <= m < |order| && order[m] == FirstFitIn(bs, order, line).value
        && bs[order[m]].Fits(line)
        && forall n :: 0 <= n < m ==> !bs[order[n]].Fits(line)
    ensures FirstFitIn(bs, order, line).None? ==>
      forall n :: 0 <= n < |order| ==> !bs[order[n]].Fits(line)
  {
    if order != [] && !bs[order[0]].Fits(line) {
      var rest := order[1..];
      FirstFitInFound(bs, rest, line);
      if FirstFitIn(bs, rest, line).Some? {
        var m :| 0 <= m < |rest| && rest[m] == FirstFitIn(bs, rest, line).value
          && bs[rest[m]].Fits(line)
          && forall n :: 0 <= n < m ==> !bs[rest[n]].Fits(line);
        assert order[m + 1] == rest[m];
        forall n | 0 <= n < m + 1 ensures !bs[order[n]].Fits(line) {
          if n > 0 { assert order[n] == rest[n - 1]; }
        }
      } else {
        forall n | 0 <= n < |order| ensures !bs[order[n]].Fits(line) {
          if n > 0 { assert order[n] == rest[n - 1]; }
        }
      }
    }
  }

  /**
   * The selection picks the first fitting batch in priority order, and finds
   * nothing exactly when no batch fits.
   */
  lemma FirstFitSelects(bs: seq<Batch>, line: OrderLine)
    ensures FirstFit(bs, line).Some? ==> IsFirstFit(bs, line, FirstFit(bs, line).value)
    ensures FirstFit(bs, line).None? <==> NoneFits(bs, line)
  {
    SortedOrderIsStableSort(bs);
    var order := SortedOrder(bs);
    FirstFitInFound(bs, order, line);
    var r := FirstFit(bs, line);
    if r.Some? {
      var m :| 0 <= m < |order| && order[m] == r.value
        && bs[order[m]].Fits(line)
        && forall n :: 0 <= n < m ==> !bs[order[n]].Fits(line);
      forall j | 0 <= j < |bs| && j != r.value && bs[j].Fits(line)
        ensures Precedes(bs, r.value, j)
      {
        assert j in order;
        var q :| 0 <= q < |order| && order[q] == j;
        assert q != m;
      }
      assert !NoneFits(bs, line);
    } else {
      forall j | 0 <= j < |bs| ensures !bs[j].Fits(line) {
        assert j in order;
        var q :| 0 <= q < |order| && order[q] == j;
      }
    }
  }

  /** At most one batch is the first fit: the selection is deterministic. */
  lemma FirstFitIsUnique(bs: seq<Batch>, line: OrderLine, i: nat, k: nat)
    requires IsFirstFit(bs, line, i) && IsFirstFit(bs, line, k)
    ensures i == k
  {
  }

  /** Conversely, a batch that is the first fit is the one the selection finds. */
  lemma FirstFitFound(bs: seq<Batch>, line: OrderLine, i: nat)
    requires IsFirstFit(bs, line, i)
    ensures FirstFit(bs, line) == Some(i)
  {
    FirstFitSelects(bs, line);
    FirstFitIsUnique(bs, line, i, FirstFit(bs, line).value);
  }

  /** The reference `allocate` returns for the line, or None when nothing fits. */
  ghost function AllocationOutcome(bs: seq<Batch>, line: OrderLine): Option<string>
    reads bs
  {
    FirstFitSelects(bs, line);
    match FirstFit(bs, line)
    case Some(i) => Some(bs[i].reference)
    case None => None
  }

  /**
   * The selection step shared by `Product.allocate` and the module-level
   * `allocate`: walks `sorted(bs)` and stops at the first batch that can
   * allocate the line.
   */
  method SelectBatch(bs: seq<Batch>, line: OrderLine) returns (choice: Option<nat>)
    ensures choice == FirstFit(bs, line)
    ensures choice.Some? ==> IsFirstFit(bs, line, choice.value)
    ensures choice.None? <==> NoneFits(bs, line)
  {
    FirstFitSelects(bs, line);
    SortedOrderIsStableSort(bs);
    var order := SortedOrder(bs);
    var n := 0;
    while n < |order|
      invariant n <= |order|
      invariant Positions(bs, order[n..])
      invariant FirstFitIn(bs, order[n..], line) == FirstFit(bs, line)
    {
      var ok := bs[order[n]].CanAllocate(line);
      if ok {
        return Some(order[n]);
      }
      assert order[n..][1..] == order[n + 1..];
      n := n + 1;
    }
    choice := None;
  }

  /** The first position holding a batch with the given reference, as `next(...)` finds it. */
  function IndexOfReference(bs: seq<Batch>, ref: string): (r: Option<nat>)
    ensures r.Some? ==>
      && r.value < |bs|
      && bs[r.value].reference == ref
      && forall j :: 0 <= j < r.value ==> bs[j].reference != ref
    ensures r.None? <==> forall j :: 0 <= j < |bs| ==> bs[j].reference != ref
  {
    if bs == [] then None
    else if bs[0].reference == ref then Some(0)
    else
      match IndexOfReference(bs[1..], ref)
      case Some(k) => Some(k + 1)
      case None => None
  }

  /**
   * `evicted` is a record of evictions from a batch that held `before` and
   * now has purchased quantity `qty`: distinct lines of `before`, each taken
   * while the batch was still over-allocated.
   */
  ghost predicate EvictionLog(before: set<OrderLine>, qty: int, evicted: seq<OrderLine>)
  {
    && (forall x, y :: 0 <= x < y < |evicted| ==> evicted[x] != evicted[y])
    && Elems(evicted) <= before
    && forall k :: 0 <= k < |evicted| ==> qty - SumQty(before - Elems(evicted[..k])) < 0
  }

  /** Evicting one more remaining line while over-allocated extends the record. */
  lemma EvictionLogStep(before: set<OrderLine>, qty: int, evicted: seq<OrderLine>, line: OrderLine)
    requires EvictionLog(before, qty, evicted)
    requires line in before - Elems(evicted)
    requires qty - SumQty(before - Elems(evicted)) < 0
    ensures EvictionLog(before, qty, evicted + [line])
    ensures before - Elems(evicted + [line]) == before - Elems(evicted) - {line}
  {
    var longer := evicted + [line];
    assert Elems(longer) == Elems(evicted) + {line};
    forall k | 0 <= k < |longer| ensures qty - SumQty(before - Elems(longer[..k])) < 0 {
      if k < |evicted| {
        assert longer[..k] == evicted[..k];
      } else {
        assert longer[..k] == evicted;
      }
    }
  }

  /** One more evicted line adds its command at the end. */
  lemma AllocateCommandsStep(lines: seq<OrderLine>, line: OrderLine)
    ensures AllocateCommands(lines + [line]) ==
      AllocateCommands(lines) + [M.Command(M.Allocate(line.orderid, line.sku, line.qty))]
  {
  }

  /**
   * The state part-way through shedding allocations: `evicted` is a record of
   * evictions from `before`, `current` is what is left, and nothing has been
   * evicted if the quantity covered the original allocations.
   */
  ghost predicate Evicting(before: set<OrderLine>, qty: int, evicted: seq<OrderLine>, current: set<OrderLine>)
  {
    && EvictionLog(before, qty, evicted)
    && current == before - Elems(evicted)
    && (qty - SumQty(before) >= 0 ==> evicted == [])
  }

  /** Evicting a remaining line while over-allocated keeps the shedding state. */
  lemma EvictingStep(before: set<OrderLine>, qty: int, evicted: seq<OrderLine>, current: set<OrderLine>,
                     line: OrderLine)
    requires Evicting(before, qty, evicted, current)
    requires line in current && qty - SumQty(current) < 0
    ensures Evicting(before, qty, evicted + [line], current - {line})
  {
    EvictionLogStep(before, qty, evicted, line);
    assert evicted == [] ==> current == before;
  }

  /**
   * What shedding allocations did to a batch that held `before` and now has
   * purchased quantity `qty` and allocations `after`: it evicted the lines of
   * `evicted`, each while still over-allocated, and on success left the batch
   * not over-allocated. It fails only when the set ran empty, which needs a
   * negative quantity; a quantity that already covers the allocations evicts nothing.
   */
  ghost predicate Evicted(before: set<OrderLine>, after: set<OrderLine>, qty: int,
                          evicted: seq<OrderLine>, result: Outcome<Fault>)
  {
    && EvictionLog(before, qty, evicted)
    && after == before - Elems(evicted)
    && (result.Pass? ==> qty - SumQty(after) >= 0)
    && (result.Fail? ==> result == Fail(PopFromEmptySet) && after == {} && qty < 0)
    && (qty >= 0 ==> result.Pass?)
    && (qty - SumQty(before) >= 0 ==> evicted == [])
  }

  // ---------------------------------------------------------------------
  // Product, the aggregate
  // ---------------------------------------------------------------------

  /** All the batches of one sku, with a version number and an outbox of messages. */
  class Product {
    const sku: string
    var batches: seq<Batch>
    var versionNumber: int
    var messages: seq<M.Message>

    constructor (sku: string, batches: seq<Batch>, versionNumber: int)
      ensures this.sku == sku && this.batches == batches
      ensures this.versionNumber == versionNumber && messages == []
    {
      this.sku := sku;
      this.batches := batches;
      this.versionNumber := versionNumber;
      messages := [];
    }

    /** No batch of the product has more allocated than purchased. */
    ghost predicate NoneOverAllocated()
      reads this, batches
    {
      forall b :: b in batches ==> b.Available() >= 0
    }

    /**
     * `allocate`: allocates the line to the first batch that can take it in
     * priority order, bumps the version and records `Allocated`; when no
     * batch can, records `OutofStock` and returns None.
     */
    method Allocate(line: OrderLine) returns (r: Option<string>)
      modifies this, batches
      ensures batches == old(batches)
      ensures r == old(AllocationOutcome(batches, line))
      ensures old(FirstFit(batches, line)).Some? ==>
        var b := batches[old(FirstFit(batches, line)).value];
        && r == Some(b.reference)
        && b.allocations == old(b.allocations) + {line}
        && b.purchasedQuantity == old(b.purchasedQuantity)
        && b.Available() ==
             (if line in old(b.allocations) then old(b.Available()) else old(b.Available()) - line.qty)
        && versionNumber == old(versionNumber) + 1
        && messages == old(messages) + [M.Event(M.Allocated(line.orderid, line.sku, line.qty, b.reference))]
        && forall c :: c in batches && c != b ==> unchanged(c)
      ensures old(FirstFit(batches, line)).None? ==>
        && r == None
        && versionNumber == old(versionNumber)
        && messages == old(messages) + [M.Event(M.OutofStock(line.sku))]
        && forall c :: c in batches ==> unchanged(c)
      ensures old(NoneOverAllocated()) ==> NoneOverAllocated()
    {
      var choice := SelectBatch(batches, line);
      if choice.Some? {
        var batch := batches[choice.value];
        batch.Allocate(line);
        versionNumber := versionNumber + 1;
        messages := messages + [M.Event(M.Allocated(line.orderid, line.sku, line.qty, batch.reference))];
        r := Some(batch.reference);
      } else {
        messages := messages + [M.Event(M.OutofStock(line.sku))];
        r := None;
      }
    }

    /**
     * `change_batch_quantity`: sets the purchased quantity of the first batch
     * with reference `ref` (raising `StopIteration` when there is none), then
     * sheds allocations from it as `EvictWhileOverAllocated` describes.
     * `evicted` lists the evicted lines in eviction order.
     */
    method ChangeBatchQuantity(ref: string, qty: int) returns (result: Outcome<Fault>, ghost evicted: seq<OrderLine>)
      modifies this, batches
      ensures batches == old(batches) && versionNumber == old(versionNumber)
      ensures IndexOfReference(batches, ref).None? ==>
        && result == Fail(NoSuchBatch(ref))
        && evicted == []
        && messages == old(messages)
        && forall c :: c in batches ==> unchanged(c)
      ensures IndexOfReference(batches, ref).Some? ==>
        var b := batches[IndexOfReference(batches, ref).value];
        && b.purchasedQuantity == qty
        && Evicted(old(b.allocations), b.allocations, qty, evicted, result)
        && messages == old(messages) + AllocateCommands(evicted)
        && forall c :: c in batches && c != b ==> unchanged(c)
    {
      var found := IndexOfReference(batches, ref);
      if found.None? {
        return Fail(NoSuchBatch(ref)), [];
      }
      var batch := batches[found.value];
      batch.purchasedQuantity := qty;
      result, evicted := EvictWhileOverAllocated(batch);
    }

    /**
     * The loop of `change_batch_quantity`: while `batch` is over-allocated,
     * evicts one allocated line (`deallocate_one`) and records an `Allocate`
     * command for it.
     */
    method EvictWhileOverAllocated(batch: Batch) returns (result: Outcome<Fault>, ghost evicted: seq<OrderLine>)
      modifies this`messages, batch
      ensures batch.purchasedQuantity == old(batch.purchasedQuantity)
      ensures Evicted(old(batch.allocations), batch.allocations, batch.purchasedQuantity, evicted, result)
      ensures messages == old(messages) + AllocateCommands(evicted)
    {
      evicted := [];
      ghost var before := batch.allocations;
      ghost var qty := batch.purchasedQuantity;
      var available := batch.AvailableQuantity();
      while available < 0
        invariant batch.purchasedQuantity == qty
        invariant Evicting(before, qty, evicted, batch.allocations)
        invariant messages == old(messages) + AllocateCommands(evicted)
        invariant available == qty - SumQty(batch.allocations)
        decreases |batch.allocations|
      {
        ghost var current := batch.allocations;
        var popped := batch.DeallocateOne();
        if popped.Failure? {
          assert SumQty(batch.allocations) == 0;
          result := Fail(PopFromEmptySet);
          return;
        }
        var line := popped.value;
        EvictingStep(before, qty, evicted, current, line);
        var command := M.Command(M.Allocate(line.orderid, line.sku, line.qty));
        AllocateCommandsStep(evicted, line);
        assert old(messages) + AllocateCommands(evicted) + [command] == old(messages) + AllocateCommands(evicted + [line]);
        messages := messages + [command];
        evicted := evicted + [line];
        available := batch.AvailableQuantity();
      }
      result := Pass;
    }
  }

  /**
   * The module-level `allocate`: the same selection as `Product.allocate`
   * over a plain list of batches, but it raises `OutOfStock` instead of
   * recording a message.
   */
  method Allocate(line: OrderLine, batches: seq<Batch>) returns (r: Result<string, Fault>)
    modifies batches
    ensures old(FirstFit(batches, line)).Some? ==>
      var b := batches[old(FirstFit(batches, line)).value];
      && r == Success(b.reference)
      && b.allocations == old(b.allocations) + {line}
      && b.purchasedQuantity == old(b.purchasedQuantity)
      && forall c :: c in batches && c != b ==> unchanged(c)
    ensures old(FirstFit(batches, line)).None? ==>
      r == Failure(OutOfStock(line.sku)) && forall c :: c in batches ==> unchanged(c)
    ensures old(NoneFits(batches, line)) <==> r.Failure?
  {
    var choice := SelectBatch(batches, line);
    if choice.Some? {
      var batch := batches[choice.value];
      batch.Allocate(line);
      r := Success(batch.reference);
    } else {
      r := Failure(OutOfStock(line.sku));
    }
  }
}
