/** First-fit batch assignment: create_batch, add_to_batch and batch_orders.
    A batch is an object updated in place; the partition it ends up in is
    specified by Assignment, a function over input positions, so that "each
    order lands in exactly one batch" means each position does. */
module Batching {
  import opened Warehouse

  predicate OrdersResolve(catalog: seq<Product>, orders: seq<Order>) {
    forall i :: 0 <= i < |orders| ==> LinesResolve(catalog, orders[i].items)
  }

  /** Total weight of the orders, order after order. */
  function LoadWeight(catalog: seq<Product>, orders: seq<Order>): real
  {
    if orders == [] then 0.0
    else LoadWeight(catalog, orders[..|orders| - 1]) + ItemsWeight(catalog, orders[|orders| - 1].items)
  }

  /** Total item count of the orders, order after order. */
  function LoadItems(orders: seq<Order>): int
  {
    if orders == [] then 0 else LoadItems(orders[..|orders| - 1]) + ItemsQty(orders[|orders| - 1].items)
  }

  /** The order's weight and item count, as batch_orders sums them before
      looking for a batch. */
  method OrderTotals(o: Order, catalog: seq<Product>) returns (ow: real, oi: int)
    requires LinesResolve(catalog, o.items)
    ensures ow == ItemsWeight(catalog, o.items)
    ensures oi == ItemsQty(o.items)
  {
    ow, oi := 0.0, 0;
    var j := 0;
    while j < |o.items|
      invariant 0 <= j <= |o.items|
      invariant ow == ItemsWeight(catalog, o.items[..j])
      invariant oi == ItemsQty(o.items[..j])
    {
      var r := FindProduct(catalog, o.items[j].productId);
      var p := catalog[r.value];
      assert o.items[..j + 1][..j] == o.items[..j];
      ow := ow + LineWeight(p.weight, o.items[j].qty);
      oi := oi + o.items[j].qty;
      j := j + 1;
    }
    assert o.items[..j] == o.items;
  }

  class Batch {
    /** The batch's orders in the order they were added (order_count is |orders|). */
    var orders: seq<Order>
    var totalWeight: real
    var totalItems: int

    /** The running totals equal the sums over the batch's orders. */
    ghost predicate Valid(catalog: seq<Product>)
      reads this
    {
      totalWeight == LoadWeight(catalog, orders) &&
      totalItems == LoadItems(orders)
    }

    /** create_batch: an empty batch with zero totals. */
    constructor ()
      ensures orders == [] && totalWeight == 0.0 && totalItems == 0
    {
      orders := [];
      totalWeight := 0.0;
      totalItems := 0;
    }

    /** add_to_batch: appends the order and adds its lines to the totals. */
    method AddOrder(o: Order, catalog: seq<Product>)
      requires LinesResolve(catalog, o.items)
      modifies this
      ensures orders == old(orders) + [o]
      ensures totalWeight == old(totalWeight) + ItemsWeight(catalog, o.items)
      ensures totalItems == old(totalItems) + ItemsQty(o.items)
      ensures old(Valid(catalog)) ==> Valid(catalog)
    {
      orders := orders + [o];
      ghost var weight0, items0 := totalWeight, totalItems;
      var i := 0;
      while i < |o.items|
        invariant 0 <= i <= |o.items|
        invariant orders == old(orders) + [o]
        invariant LinesResolve(catalog, o.items[..i])
        invariant totalWeight == weight0 + ItemsWeight(catalog, o.items[..i])
        invariant totalItems == items0 + ItemsQty(o.items[..i])
      {
        var r := FindProduct(catalog, o.items[i].productId);
        var p := catalog[r.value];
        assert o.items[..i + 1][..i] == o.items[..i];
        totalWeight := totalWeight + LineWeight(p.weight, o.items[i].qty);
        totalItems := totalItems + o.items[i].qty;
        i := i + 1;
      }
      assert o.items[..i] == o.items;
      if old(Valid(catalog)) {
        LoadAppend(catalog, old(orders), o);
      }
    }
  }

  /** A batch of the specification: the input positions of its orders and
      the running totals that add_to_batch keeps. */
  datatype Bin = Bin(members: seq<nat>, weight: real, items: int)

  /** Every position in every bin is below n. */
  predicate InRange(bins: seq<Bin>, n: nat) {
    forall b, k :: 0 <= b < |bins| && 0 <= k < |bins[b].members| ==> bins[b].members[k] < n
  }

  /** The orders at the given input positions. */
  function Members(orders: seq<Order>, idx: seq<nat>): seq<Order>
    requires forall k :: 0 <= k < |idx| ==> idx[k] < |orders|
  {
    seq(|idx|, k requires 0 <= k < |idx| => orders[idx[k]])
  }

  lemma MembersAppend(orders: seq<Order>, idx: seq<nat>, i: nat)
    requires forall k :: 0 <= k < |idx| ==> idx[k] < |orders|
    requires i < |orders|
    ensures Members(orders, idx + [i]) == Members(orders, idx) + [orders[i]]
  {
  }

  lemma LoadAppend(catalog: seq<Product>, load: seq<Order>, o: Order)
    ensures LoadWeight(catalog, load + [o]) == LoadWeight(catalog, load) + ItemsWeight(catalog, o.items)
    ensures LoadItems(load + [o]) == LoadItems(load) + ItemsQty(o.items)
  {
    assert (load + [o])[..|load|] == load;
  }

  /** The test of batch_orders (warehouse.c:90-91): an order of weight w and item
      count q fits the bin when both bounds still hold afterwards. */
  predicate Fits(bin: Bin, w: real, q: int, maxWeight: real, maxItems: int) {
    bin.weight + w <= maxWeight && bin.items + q <= maxItems
  }

  /** The scan of batch_orders from bin `from` on: the first bin the order
      fits, or |bins| when it fits none. */
  function FirstFitting(bins: seq<Bin>, w: real, q: int, maxWeight: real, maxItems: int, from: nat): (k: nat)
    requires from <= |bins|
    ensures from <= k <= |bins|
    ensures k < |bins| ==> Fits(bins[k], w, q, maxWeight, maxItems)
    ensures forall b :: from <= b < k ==> !Fits(bins[b], w, q, maxWeight, maxItems)
    decreases |bins| - from
  {
    if from == |bins| then from
    else if Fits(bins[from], w, q, maxWeight, maxItems) then from
    else FirstFitting(bins, w, q, maxWeight, maxItems, from + 1)
  }

  /** Position i, of weight w and item count q, added to bin k (add_to_batch),
      or to a new bin when k == |bins| (create_batch, then add_to_batch). */
  function Place(bins: seq<Bin>, k: nat, i: nat, w: real, q: int): (bins': seq<Bin>)
    requires k <= |bins|
    ensures |bins'| == if k < |bins| then |bins| else |bins| + 1
  {
    if k < |bins| then bins[k := Bin(bins[k].members + [i], bins[k].weight + w, bins[k].items + q)]
    else bins + [Bin([i], 0.0 + w, 0 + q)]
  }

  /** The bins after first-fit has placed orders[..n], in creation order. */
  function Assignment(orders: seq<Order>, catalog: seq<Product>, maxWeight: real, maxItems: int, n: nat)
    : (bins: seq<Bin>)
    requires n <= |orders|
    ensures InRange(bins, n)
  {
    if n == 0 then []
    else
      var prev := Assignment(orders, catalog, maxWeight, maxItems, n - 1);
      var w := ItemsWeight(catalog, orders[n - 1].items);
      var q := ItemsQty(orders[n - 1].items);
      Place(prev, FirstFitting(prev, w, q, maxWeight, maxItems, 0), n - 1, w, q)
  }

  /** Whether order i fits bin b. */
  predicate OrderFits(orders: seq<Order>, catalog: seq<Product>, bins: seq<Bin>, b: nat, i: nat,
                      maxWeight: real, maxItems: int)
    requires b < |bins| && i < |orders|
  {
    Fits(bins[b], ItemsWeight(catalog, orders[i].items), ItemsQty(orders[i].items), maxWeight, maxItems)
  }

  /** The next step of Assignment, given the bin the scan stops at. */
  lemma AssignmentNext(orders: seq<Order>, catalog: seq<Product>, maxWeight: real, maxItems: int, i: nat, k: nat)
    requires i < |orders|
    requires var bins := Assignment(orders, catalog, maxWeight, maxItems, i);
             k <= |bins| &&
             (k < |bins| ==> OrderFits(orders, catalog, bins, k, i, maxWeight, maxItems)) &&
             forall c :: 0 <= c < k ==> !OrderFits(orders, catalog, bins, c, i, maxWeight, maxItems)
    ensures Assignment(orders, catalog, maxWeight, maxItems, i + 1)
            == Place(Assignment(orders, catalog, maxWeight, maxItems, i), k, i,
                     ItemsWeight(catalog, orders[i].items), ItemsQty(orders[i].items))
  {
    var bins := Assignment(orders, catalog, maxWeight, maxItems, i);
    var w, q := ItemsWeight(catalog, orders[i].items), ItemsQty(orders[i].items);
    var k' := FirstFitting(bins, w, q, maxWeight, maxItems, 0);
    if k' < k {
      assert OrderFits(orders, catalog, bins, k', i, maxWeight, maxItems);
    }
  }

  /** A bin's running totals are the sums over its orders, as a batch's
      totals are the sums over its assigned orders. */
  predicate BinMatches(orders: seq<Order>, catalog: seq<Product>, bin: Bin)
    requires forall k :: 0 <= k < |bin.members| ==> bin.members[k] < |orders|
  {
    bin.weight == LoadWeight(catalog, Members(orders, bin.members)) &&
    bin.items == LoadItems(Members(orders, bin.members))
  }

  /** Every bin's running totals match its orders. */
  predicate TotalsMatch(orders: seq<Order>, catalog: seq<Product>, bins: seq<Bin>)
    requires InRange(bins, |orders|)
  {
    forall b :: 0 <= b < |bins| ==> BinMatches(orders, catalog, bins[b])
  }

  /** Adding order i to a bin whose totals match (add_to_batch) keeps them matching. */
  lemma GrowTotals(orders: seq<Order>, catalog: seq<Product>, bin: Bin, i: nat)
    requires forall k :: 0 <= k < |bin.members| ==> bin.members[k] < |orders|
    requires i < |orders| && BinMatches(orders, catalog, bin)
    ensures BinMatches(orders, catalog, Bin(bin.members + [i], bin.weight + ItemsWeight(catalog, orders[i].items),
                                            bin.items + ItemsQty(orders[i].items)))
  {
    MembersAppend(orders, bin.members, i);
    LoadAppend(catalog, Members(orders, bin.members), orders[i]);
  }

  lemma PlaceTotals(orders: seq<Order>, catalog: seq<Product>, bins: seq<Bin>, k: nat, i: nat, bins': seq<Bin>)
    requires InRange(bins, |orders|) && i < |orders| && k <= |bins|
    requires TotalsMatch(orders, catalog, bins)
    requires bins' == Place(bins, k, i, ItemsWeight(catalog, orders[i].items), ItemsQty(orders[i].items))
    ensures InRange(bins', |orders|) && TotalsMatch(orders, catalog, bins')
  {
    var empty := Bin([], 0.0, 0);
    assert Members(orders, []) == [];
    var grown := if k < |bins| then bins[k] else empty;
    GrowTotals(orders, catalog, grown, i);
    assert bins'[k].members == grown.members + [i];
    forall b | 0 <= b < |bins'|
      ensures BinMatches(orders, catalog, bins'[b])
    {
      if b != k {
        assert bins'[b] == bins[b];
      }
    }
  }

  /** Batch totals: every bin's weight and item count equal the sums over
      the orders assigned to it. */
  lemma {:induction false} AssignmentTotals(orders: seq<Order>, catalog: seq<Product>,
                                            maxWeight: real, maxItems: int, n: nat)
    requires n <= |orders|
    ensures InRange(Assignment(orders, catalog, maxWeight, maxItems, n), |orders|)
    ensures TotalsMatch(orders, catalog, Assignment(orders, catalog, maxWeight, maxItems, n))
  {
    if n > 0 {
      AssignmentTotals(orders, catalog, maxWeight, maxItems, n - 1);
      var prev := Assignment(orders, catalog, maxWeight, maxItems, n - 1);
      var w := ItemsWeight(catalog, orders[n - 1].items);
      var q := ItemsQty(orders[n - 1].items);
      var k := FirstFitting(prev, w, q, maxWeight, maxItems, 0);
      PlaceTotals(orders, catalog, prev, k, n - 1, Place(prev, k, n - 1, w, q));
    }
  }

  /** b is the lowest-index bin that order i fits. */
  predicate LowestFitting(orders: seq<Order>, catalog: seq<Product>, bins: seq<Bin>, b: nat, i: nat,
                          maxWeight: real, maxItems: int)
    requires b < |bins| && i < |orders|
  {
    OrderFits(orders, catalog, bins, b, i, maxWeight, maxItems) &&
    forall c :: 0 <= c < b ==> !OrderFits(orders, catalog, bins, c, i, maxWeight, maxItems)
  }

  /** The first-fit rule, one order at a time: order i goes to the end of the
      lowest-index batch it fits, every other batch keeps its orders, and a
      batch holding just [i] is opened exactly when it fits no existing batch. */
  lemma AssignmentStep(orders: seq<Order>, catalog: seq<Product>, maxWeight: real, maxItems: int, i: nat)
    requires i < |orders|
    ensures var prev := Assignment(orders, catalog, maxWeight, maxItems, i);
            var next := Assignment(orders, catalog, maxWeight, maxItems, i + 1);
            (|next| == |prev| + 1 <==>
               forall b :: 0 <= b < |prev| ==> !OrderFits(orders, catalog, prev, b, i, maxWeight, maxItems)) &&
            (|next| == |prev| || |next| == |prev| + 1) &&
            (|next| == |prev| + 1 ==> next[|prev|].members == [i]) &&
            (forall b :: 0 <= b < |prev| ==>
               next[b].members == if LowestFitting(orders, catalog, prev, b, i, maxWeight, maxItems)
                                  then prev[b].members + [i] else prev[b].members)
  {
    var prev := Assignment(orders, catalog, maxWeight, maxItems, i);
    var k := FirstFitting(prev, ItemsWeight(catalog, orders[i].items), ItemsQty(orders[i].items),
                          maxWeight, maxItems, 0);
    forall b | 0 <= b < |prev|
      ensures LowestFitting(orders, catalog, prev, b, i, maxWeight, maxItems) <==> b == k
    {
      if b < k {
        assert !OrderFits(orders, catalog, prev, b, i, maxWeight, maxItems);
      } else if k < b && k < |prev| {
        assert OrderFits(orders, catalog, prev, k, i, maxWeight, maxItems);
      }
    }
    if k < |prev| {
      assert OrderFits(orders, catalog, prev, k, i, maxWeight, maxItems);
    }
    AssignmentNext(orders, catalog, maxWeight, maxItems, i, k);
  }

  /** Every bin is non-empty. */
  predicate NonEmpty(bins: seq<Bin>) {
    forall b :: 0 <= b < |bins| ==> |bins[b].members| > 0
  }

  /** Within each bin, orders keep input order (so no position repeats in a bin). */
  predicate Ascending(bins: seq<Bin>) {
    forall b, k1, k2 :: 0 <= b < |bins| && 0 <= k1 < k2 < |bins[b].members| ==>
      bins[b].members[k1] < bins[b].members[k2]
  }

  /** No position occurs in two different bins. */
  predicate Disjoint(bins: seq<Bin>) {
    forall b1, b2, k1, k2 ::
      0 <= b1 < b2 < |bins| && 0 <= k1 < |bins[b1].members| && 0 <= k2 < |bins[b2].members| ==>
      bins[b1].members[k1] != bins[b2].members[k2]
  }

  /** Position i occurs in some bin. */
  predicate Placed(bins: seq<Bin>, i: nat) {
    exists b, k :: 0 <= b < |bins| && 0 <= k < |bins[b].members| && bins[b].members[k] == i
  }

  /** Every position below n occurs in some bin. */
  predicate Covers(bins: seq<Bin>, n: nat) {
    forall i :: 0 <= i < n ==> Placed(bins, i)
  }

  /** The bins partition the positions 0..n-1, each bin in input order. */
  predicate Partitions(bins: seq<Bin>, n: nat) {
    NonEmpty(bins) && Ascending(bins) && Disjoint(bins) && Covers(bins, n)
  }

  /** Adding position n to a partition of 0..n-1 gives a partition of 0..n. */
  lemma PlacePartition(bins: seq<Bin>, k: nat, n: nat, w: real, q: int, bins': seq<Bin>)
    requires k <= |bins| && bins' == Place(bins, k, n, w, q)
    requires InRange(bins, n) && Partitions(bins, n)
    ensures Partitions(bins', n + 1)
  {
    assert Placed(bins', n) by {
      if k < |bins| {
        assert bins'[k].members[|bins[k].members|] == n;
      } else {
        assert bins'[|bins|].members[0] == n;
      }
    }
    forall i | 0 <= i < n
      ensures Placed(bins', i)
    {
      assert Placed(bins, i);
      var b, j :| 0 <= b < |bins| && 0 <= j < |bins[b].members| && bins[b].members[j] == i;
      assert bins'[b].members[j] == i;
    }
    forall b, j | 0 <= b < |bins'| && 0 <= j < |bins'[b].members|
      ensures bins'[b].members[j] == if b == k && j == |bins'[b].members| - 1 then n else bins[b].members[j]
    {
    }
  }

  /** Partition completeness: after first-fit has placed orders[..n], every
      position 0..n-1 is in exactly one batch, and each batch lists its
      orders in input order. */
  lemma {:induction false} AssignmentPartition(orders: seq<Order>, catalog: seq<Product>,
                                               maxWeight: real, maxItems: int, n: nat)
    requires n <= |orders|
    ensures Partitions(Assignment(orders, catalog, maxWeight, maxItems, n), n)
  {
    if n > 0 {
      AssignmentPartition(orders, catalog, maxWeight, maxItems, n - 1);
      var prev := Assignment(orders, catalog, maxWeight, maxItems, n - 1);
      var w := ItemsWeight(catalog, orders[n - 1].items);
      var q := ItemsQty(orders[n - 1].items);
      var next := Assignment(orders, catalog, maxWeight, maxItems, n);
      PlacePartition(prev, FirstFitting(prev, w, q, maxWeight, maxItems, 0), n - 1, w, q, next);
    }
  }

  /** Sum of the bin sizes. */
  function TotalOrders(bins: seq<Bin>): nat {
    if bins == [] then 0 else TotalOrders(bins[..|bins| - 1]) + |bins[|bins| - 1].members|
  }

  lemma {:induction false} TotalOrdersPlace(bins: seq<Bin>, k: nat, i: nat, w: real, q: int, bins': seq<Bin>)
    requires k <= |bins| && bins' == Place(bins, k, i, w, q)
    ensures TotalOrders(bins') == TotalOrders(bins) + 1
    ensures |bins'| <= |bins| + 1
    decreases |bins|
  {
    if k == |bins| {
      assert bins'[..|bins|] == bins;
    } else if k < |bins| - 1 {
      assert bins'[..|bins'| - 1] == Place(bins[..|bins| - 1], k, i, w, q);
      TotalOrdersPlace(bins[..|bins| - 1], k, i, w, q, bins'[..|bins'| - 1]);
    } else {
      assert bins'[..|bins'| - 1] == bins[..|bins| - 1];
    }
  }

  /** The batch sizes add up to the number of orders placed, and there are
      never more batches than orders. */
  lemma {:induction false} AssignmentCount(orders: seq<Order>, catalog: seq<Product>,
                                           maxWeight: real, maxItems: int, n: nat)
    requires n <= |orders|
    ensures var bins := Assignment(orders, catalog, maxWeight, maxItems, n);
            TotalOrders(bins) == n && |bins| <= n
  {
    if n > 0 {
      AssignmentCount(orders, catalog, maxWeight, maxItems, n - 1);
      var prev := Assignment(orders, catalog, maxWeight, maxItems, n - 1);
      var w := ItemsWeight(catalog, orders[n - 1].items);
      var q := ItemsQty(orders[n - 1].items);
      var next := Assignment(orders, catalog, maxWeight, maxItems, n);
      var k := FirstFitting(prev, w, q, maxWeight, maxItems, 0);
      assert next == Place(prev, k, n - 1, w, q);
      TotalOrdersPlace(prev, k, n - 1, w, q, next);
    }
  }

  /** Every bin's running totals are within both bounds, unless the bin
      holds a single order. */
  predicate RespectsCapacity(bins: seq<Bin>, maxWeight: real, maxItems: int) {
    forall b :: 0 <= b < |bins| ==>
      |bins[b].members| == 1 || (bins[b].weight <= maxWeight && bins[b].items <= maxItems)
  }

  lemma {:induction false} AssignmentRespectsCapacity(orders: seq<Order>, catalog: seq<Product>,
                                                      maxWeight: real, maxItems: int, n: nat)
    requires n <= |orders|
    ensures RespectsCapacity(Assignment(orders, catalog, maxWeight, maxItems, n), maxWeight, maxItems)
  {
    if n > 0 {
      AssignmentRespectsCapacity(orders, catalog, maxWeight, maxItems, n - 1);
      var prev := Assignment(orders, catalog, maxWeight, maxItems, n - 1);
      var w := ItemsWeight(catalog, orders[n - 1].items);
      var q := ItemsQty(orders[n - 1].items);
      var k := FirstFitting(prev, w, q, maxWeight, maxItems, 0);
      var bins := Place(prev, k, n - 1, w, q);
      forall b | 0 <= b < |bins|
        ensures |bins[b].members| == 1 || (bins[b].weight <= maxWeight && bins[b].items <= maxItems)
      {
        if b < |prev| && b != k {
          assert bins[b] == prev[b];
        }
      }
    }
  }

  /** Capacity rule: the orders of every batch weigh at most maxWeight and
      hold at most maxItems items, or the batch holds a single order (one
      that alone exceeds a bound). */
  lemma AssignmentCapacity(orders: seq<Order>, catalog: seq<Product>, maxWeight: real, maxItems: int, n: nat)
    requires n <= |orders|
    ensures var bins := Assignment(orders, catalog, maxWeight, maxItems, n);
            InRange(bins, |orders|) &&
            forall b :: 0 <= b < |bins| ==>
              |bins[b].members| == 1 ||
              (LoadWeight(catalog, Members(orders, bins[b].members)) <= maxWeight &&
               LoadItems(Members(orders, bins[b].members)) <= maxItems)
  {
    AssignmentRespectsCapacity(orders, catalog, maxWeight, maxItems, n);
    AssignmentTotals(orders, catalog, maxWeight, maxItems, n);
  }

  /** No batch object appears twice. */
  predicate DistinctBatches(batches: seq<Batch>)
  {
    forall b1, b2 :: 0 <= b1 < b2 < |batches| ==> batches[b1] != batches[b2]
  }

  /** The batches mirror the bins: one batch per bin, holding the
      bin's orders in its order and carrying the bin's running totals. */
  ghost predicate Mirrors(batches: seq<Batch>, orders: seq<Order>, bins: seq<Bin>)
    reads set b | b in batches
  {
    InRange(bins, |orders|) && |batches| == |bins| &&
    forall b :: 0 <= b < |batches| ==>
      batches[b].orders == Members(orders, bins[b].members) &&
      batches[b].totalWeight == bins[b].weight && batches[b].totalItems == bins[b].items
  }

  /** The scan of batch_orders (warehouse.c:89-96) over batches whose totals are
      those of the bins: it stops at the bin first-fit picks, or at |batches|
      when the order fits none. */
  method FirstRoom(batches: seq<Batch>, ghost bins: seq<Bin>, w: real, q: int, maxWeight: real, maxItems: int)
    returns (b: nat)
    requires |batches| == |bins|
    requires forall c :: 0 <= c < |batches| ==>
               batches[c].totalWeight == bins[c].weight && batches[c].totalItems == bins[c].items
    ensures b == FirstFitting(bins, w, q, maxWeight, maxItems, 0)
  {
    b := 0;
    while b < |batches|
      invariant b <= |batches|
      invariant FirstFitting(bins, w, q, maxWeight, maxItems, b) == FirstFitting(bins, w, q, maxWeight, maxItems, 0)
    {
      if batches[b].totalWeight + w <= maxWeight && batches[b].totalItems + q <= maxItems {
        return;
      }
      b := b + 1;
    }
  }

  /** warehouse.c:88-102: order i joins batch b, or a new batch when b == |batches|. */
  method Deliver(batches: seq<Batch>, ghost bins: seq<Bin>, orders: seq<Order>, catalog: seq<Product>,
                 i: nat, b: nat, ow: real, oi: int)
    returns (batches': seq<Batch>)
    requires i < |orders| && LinesResolve(catalog, orders[i].items)
    requires ow == ItemsWeight(catalog, orders[i].items) && oi == ItemsQty(orders[i].items)
    requires Mirrors(batches, orders, bins) && DistinctBatches(batches) && b <= |batches|
    modifies set c | c in batches
    ensures Mirrors(batches', orders, Place(bins, b, i, ow, oi)) && DistinctBatches(batches')
    ensures forall c :: 0 <= c < |batches'| ==> (c < |batches| && batches'[c] == batches[c]) || fresh(batches'[c])
  {
    if b < |batches| {
      JoinBatch(batches, bins, orders, catalog, i, b, ow, oi);
      batches' := batches;
    } else {
      batches' := OpenBatch(batches, bins, orders, catalog, i, ow, oi);
    }
  }

  /** warehouse.c:92-94: order i joins the existing batch b; no other batch changes. */
  method JoinBatch(batches: seq<Batch>, ghost bins: seq<Bin>, orders: seq<Order>, catalog: seq<Product>,
                   i: nat, b: nat, ow: real, oi: int)
    requires i < |orders| && LinesResolve(catalog, orders[i].items)
    requires ow == ItemsWeight(catalog, orders[i].items) && oi == ItemsQty(orders[i].items)
    requires Mirrors(batches, orders, bins) && DistinctBatches(batches) && b < |batches|
    modifies batches[b]
    ensures Mirrors(batches, orders, Place(bins, b, i, ow, oi))
  {
    MembersAppend(orders, bins[b].members, i);
    batches[b].AddOrder(orders[i], catalog);
  }

  /** warehouse.c:98-102: a new batch is created for order i and appended. */
  method OpenBatch(batches: seq<Batch>, ghost bins: seq<Bin>, orders: seq<Order>, catalog: seq<Product>,
                   i: nat, ow: real, oi: int)
    returns (batches': seq<Batch>)
    requires i < |orders| && LinesResolve(catalog, orders[i].items)
    requires ow == ItemsWeight(catalog, orders[i].items) && oi == ItemsQty(orders[i].items)
    requires Mirrors(batches, orders, bins) && DistinctBatches(batches)
    ensures Mirrors(batches', orders, Place(bins, |batches|, i, ow, oi)) && DistinctBatches(batches')
    ensures |batches'| == |batches| + 1 && batches'[..|batches|] == batches && fresh(batches'[|batches|])
  {
    var nb := new Batch();
    nb.AddOrder(orders[i], catalog);
    batches' := batches + [nb];
    assert Members(orders, [i]) == [orders[i]];
  }

  /** One pass of batch_orders' loop (warehouse.c:79-102): order i is totalled
      and delivered to the batch first-fit picks, so the batches that
      mirrored the first i placements mirror the first i + 1. */
  method AdmitOrder(batches: seq<Batch>, orders: seq<Order>, catalog: seq<Product>, i: nat,
                    maxWeight: real, maxItems: int)
    returns (batches': seq<Batch>)
    requires i < |orders| && LinesResolve(catalog, orders[i].items)
    requires Mirrors(batches, orders, Assignment(orders, catalog, maxWeight, maxItems, i)) && DistinctBatches(batches)
    modifies set c | c in batches
    ensures Mirrors(batches', orders, Assignment(orders, catalog, maxWeight, maxItems, i + 1)) && DistinctBatches(batches')
    ensures forall c :: 0 <= c < |batches'| ==> (c < |batches| && batches'[c] == batches[c]) || fresh(batches'[c])
  {
    ghost var bins := Assignment(orders, catalog, maxWeight, maxItems, i);
    var ow, oi := OrderTotals(orders[i], catalog);
    var b := FirstRoom(batches, bins, ow, oi, maxWeight, maxItems);
    assert Place(bins, b, i, ow, oi) == Assignment(orders, catalog, maxWeight, maxItems, i + 1);
    batches' := Deliver(batches, bins, orders, catalog, i, b, ow, oi);
  }

  /** batch_orders: first-fit over the orders in input order. It returns new,
      distinct batches, in creation order; batch b holds the orders that
      Assignment puts in bin b, in input order, with running totals equal to
      the sums over them. */
  method BatchOrders(orders: seq<Order>, catalog: seq<Product>, maxWeight: real, maxItems: int)
    returns (batches: seq<Batch>)
    requires OrdersResolve(catalog, orders)
    ensures Mirrors(batches, orders, Assignment(orders, catalog, maxWeight, maxItems, |orders|)) && DistinctBatches(batches)
    ensures forall b :: 0 <= b < |batches| ==> batches[b].Valid(catalog)
    ensures forall b :: 0 <= b < |batches| ==> fresh(batches[b])
  {
    batches := AdmitAll(orders, catalog, maxWeight, maxItems);
    AssignmentTotals(orders, catalog, maxWeight, maxItems, |orders|);
    MirrorsValid(batches, orders, catalog, Assignment(orders, catalog, maxWeight, maxItems, |orders|));
  }

  /** The loop of batch_orders (warehouse.c:77-103): every order is admitted in
      turn, and the batches built so far mirror first-fit's bins. */
  method AdmitAll(orders: seq<Order>, catalog: seq<Product>, maxWeight: real, maxItems: int)
    returns (batches: seq<Batch>)
    requires OrdersResolve(catalog, orders)
    ensures Mirrors(batches, orders, Assignment(orders, catalog, maxWeight, maxItems, |orders|)) && DistinctBatches(batches)
    ensures forall b :: 0 <= b < |batches| ==> fresh(batches[b])
  {
    batches := [];
    for i := 0 to |orders|
      invariant Mirrors(batches, orders, Assignment(orders, catalog, maxWeight, maxItems, i)) && DistinctBatches(batches)
      invariant forall b :: 0 <= b < |batches| ==> fresh(batches[b])
    {
      batches := AdmitOrder(batches, orders, catalog, i, maxWeight, maxItems);
    }
  }

  /** Batches that mirror bins whose totals match are valid. */
  lemma MirrorsValid(batches: seq<Batch>, orders: seq<Order>, catalog: seq<Product>, bins: seq<Bin>)
    requires Mirrors(batches, orders, bins) && TotalsMatch(orders, catalog, bins)
    ensures forall b :: 0 <= b < |batches| ==> batches[b].Valid(catalog)
  {
    forall b | 0 <= b < |batches|
      ensures batches[b].Valid(catalog)
    {
      assert BinMatches(orders, catalog, bins[b]);
    }
  }
}
