/** Pick-point aggregation (build_pickpoints): every order line of a batch is
    merged into one pick point per distinct product, in first-seen order,
    with the quantities summed and the location taken from the catalog. */
module Picking {
  import opened Warehouse
  import opened Batching

  /** The lines of the orders, order after order (the order the C loops visit them). */
  function BatchLines(orders: seq<Order>): seq<OrderItem>
  {
    if orders == [] then [] else BatchLines(orders[..|orders| - 1]) + orders[|orders| - 1].items
  }

  /** The product ids named by the lines. */
  function LineIds(lines: seq<OrderItem>): set<int> {
    set j | 0 <= j < |lines| :: lines[j].productId
  }

  /** The product ids of the pick points. */
  function PointIds(pp: seq<PickPoint>): set<int> {
    set k | 0 <= k < |pp| :: pp[k].productId
  }

  /** The inner scan of build_pickpoints (warehouse.c:120-124): the LAST point with
      product `pid` (found = k overwrites earlier matches), or -1. */
  function FindPoint(pp: seq<PickPoint>, pid: int): (f: int)
    ensures -1 <= f < |pp|
    ensures f >= 0 ==> pp[f].productId == pid && forall k :: f < k < |pp| ==> pp[k].productId != pid
    ensures f == -1 <==> pid !in PointIds(pp)
  {
    if pp == [] then -1
    else if pp[|pp| - 1].productId == pid then |pp| - 1
    else
      FindPoint(pp[..|pp| - 1], pid)
  }

  /** One line merged into the points (warehouse.c:126-137): a new point at the
      catalog location of the product, or the quantity added to its point. */
  function AddLine(catalog: seq<Product>, pp: seq<PickPoint>, line: OrderItem): seq<PickPoint>
    requires Resolves(catalog, line.productId)
  {
    var f := FindPoint(pp, line.productId);
    if f == -1 then
      var p := ProductFor(catalog, line.productId);
      pp + [PickPoint(line.productId, p.aisle, p.shelf, line.qty)]
    else
      pp[f := pp[f].(qty := pp[f].qty + line.qty)]
  }

  /** The pick points after the lines have been merged front to back. */
  function Aggregate(catalog: seq<Product>, lines: seq<OrderItem>): seq<PickPoint>
    requires LinesResolve(catalog, lines)
  {
    if lines == [] then []
    else
      assert LinesResolve(catalog, lines[..|lines| - 1]);
      AddLine(catalog, Aggregate(catalog, lines[..|lines| - 1]), lines[|lines| - 1])
  }

  /** build_pickpoints: the batch's lines merged, in the order the nested
      loops visit them, by AddLine. */
  method BuildPickPoints(b: Batch, catalog: seq<Product>) returns (pp: seq<PickPoint>)
    requires LinesResolve(catalog, BatchLines(b.orders))
    ensures pp == Aggregate(catalog, BatchLines(b.orders))
  {
    pp := [];
    var i := 0;
    while i < |b.orders|
      invariant 0 <= i <= |b.orders|
      invariant LinesResolve(catalog, BatchLines(b.orders[..i]))
      invariant pp == Aggregate(catalog, BatchLines(b.orders[..i]))
    {
      var o := b.orders[i];
      ghost var seen := BatchLines(b.orders[..i]);
      BatchLinesPrefix(b.orders, i + 1);
      assert b.orders[..i + 1][..i] == b.orders[..i];
      assert BatchLines(b.orders[..i + 1]) == seen + o.items;
      assert seen + o.items[..0] == seen;
      var j := 0;
      while j < |o.items|
        invariant 0 <= j <= |o.items|
        invariant LinesResolve(catalog, seen + o.items) && LinesResolve(catalog, seen + o.items[..j])
        invariant pp == Aggregate(catalog, seen + o.items[..j])
      {
        assert (seen + o.items)[|seen| + j] == o.items[j];
        pp := MergeLine(pp, catalog, o.items[j]);
        AggregateNext(catalog, seen, o.items, j);
        j := j + 1;
      }
      assert o.items[..j] == o.items;
      i := i + 1;
    }
    assert b.orders[..i] == b.orders;
  }

  /** The body of the inner loop (warehouse.c:117-137) for one line. */
  method MergeLine(pp: seq<PickPoint>, catalog: seq<Product>, line: OrderItem) returns (pp': seq<PickPoint>)
    requires Resolves(catalog, line.productId)
    ensures pp' == AddLine(catalog, pp, line)
  {
    var found := LastPoint(pp, line.productId);
    var r := FindProduct(catalog, line.productId);
    var p := catalog[r.value];
    if found == -1 {
      pp' := pp + [PickPoint(line.productId, p.aisle, p.shelf, line.qty)];
    } else {
      pp' := pp[found := pp[found].(qty := pp[found].qty + line.qty)];
    }
  }

  /** Merging line j of an order continues the aggregation of the lines seen so far. */
  lemma AggregateNext(catalog: seq<Product>, seen: seq<OrderItem>, items: seq<OrderItem>, j: nat)
    requires j < |items| && LinesResolve(catalog, seen + items)
    ensures LinesResolve(catalog, seen + items[..j]) && LinesResolve(catalog, seen + items[..j + 1])
    ensures Resolves(catalog, items[j].productId)
    ensures Aggregate(catalog, seen + items[..j + 1])
            == AddLine(catalog, Aggregate(catalog, seen + items[..j]), items[j])
  {
    assert items[..j + 1] == items[..j] + [items[j]];
    assert seen + items[..j + 1] == (seen + items[..j]) + [items[j]];
    assert (seen + items)[|seen| + j] == items[j];
    var next := seen + items[..j + 1];
    forall k | 0 <= k < |next|
      ensures Resolves(catalog, next[k].productId)
    {
      assert next[k] == (seen + items)[k];
    }
    AggregateSnoc(catalog, seen + items[..j], items[j]);
  }

  lemma AggregateSnoc(catalog: seq<Product>, lines: seq<OrderItem>, line: OrderItem)
    requires LinesResolve(catalog, lines + [line])
    ensures LinesResolve(catalog, lines) && Resolves(catalog, line.productId)
    ensures Aggregate(catalog, lines + [line]) == AddLine(catalog, Aggregate(catalog, lines), line)
  {
    assert (lines + [line])[..|lines|] == lines;
    assert (lines + [line])[|lines|] == line;
  }

  /** The scan of warehouse.c:120-124: every point is inspected and the last
      match wins. */
  method LastPoint(pp: seq<PickPoint>, pid: int) returns (found: int)
    ensures found == FindPoint(pp, pid)
  {
    found := -1;
    var k := 0;
    while k < |pp|
      invariant 0 <= k <= |pp|
      invariant found == FindPoint(pp[..k], pid)
    {
      assert pp[..k + 1][..k] == pp[..k];
      if pp[k].productId == pid {
        found := k;
      }
      k := k + 1;
    }
    assert pp[..k] == pp;
  }

  lemma {:induction false} BatchLinesAppend(a: seq<Order>, c: seq<Order>)
    ensures BatchLines(a + c) == BatchLines(a) + BatchLines(c)
    decreases |c|
  {
    if c != [] {
      var c' := c[..|c| - 1];
      assert (a + c)[..|a + c| - 1] == a + c';
      BatchLinesAppend(a, c');
    } else {
      assert a + c == a;
    }
  }

  /** The lines of the first n orders are a prefix of the batch's lines. */
  lemma BatchLinesPrefix(orders: seq<Order>, n: nat)
    requires n <= |orders|
    ensures |BatchLines(orders[..n])| <= |BatchLines(orders)|
    ensures BatchLines(orders)[..|BatchLines(orders[..n])|] == BatchLines(orders[..n])
  {
    assert orders == orders[..n] + orders[n..];
    BatchLinesAppend(orders[..n], orders[n..]);
  }

  /** Every line of the batch resolves when every order's lines do. */
  lemma {:induction false} BatchLinesResolve(catalog: seq<Product>, orders: seq<Order>)
    requires OrdersResolve(catalog, orders)
    ensures LinesResolve(catalog, BatchLines(orders))
  {
    if orders != [] {
      BatchLinesResolve(catalog, orders[..|orders| - 1]);
      assert LinesResolve(catalog, orders[|orders| - 1].items);
    }
  }

  /** Sum of qty over the lines with product `pid`. */
  function QtyOf(lines: seq<OrderItem>, pid: int): int {
    if lines == [] then 0
    else QtyOf(lines[..|lines| - 1], pid) + (if lines[|lines| - 1].productId == pid then lines[|lines| - 1].qty else 0)
  }

  /** The position of the first line with product `pid`. */
  function FirstLine(lines: seq<OrderItem>, pid: int): (j: nat)
    requires pid in LineIds(lines)
    ensures j < |lines| && lines[j].productId == pid
    ensures forall i :: 0 <= i < j ==> lines[i].productId != pid
  {
    var n := |lines| - 1;
    if pid in LineIds(lines[..n]) then FirstLine(lines[..n], pid)
    else
      assert forall i :: 0 <= i < n ==> lines[..n][i] == lines[i];
      n
  }

  /** Sum of qty over the pick points. */
  function PointsQty(pp: seq<PickPoint>): int {
    if pp == [] then 0 else PointsQty(pp[..|pp| - 1]) + pp[|pp| - 1].qty
  }

  /** No product has two points. */
  predicate DistinctIds(pp: seq<PickPoint>) {
    forall a, b :: 0 <= a < b < |pp| ==> pp[a].productId != pp[b].productId
  }

  /** Each point carries the summed quantity of its product's lines. */
  predicate QtysMatch(lines: seq<OrderItem>, pp: seq<PickPoint>) {
    forall k :: 0 <= k < |pp| ==> pp[k].qty == QtyOf(lines, pp[k].productId)
  }

  /** Each point sits at its product's catalog location. */
  predicate AtCatalog(catalog: seq<Product>, pp: seq<PickPoint>) {
    forall k :: 0 <= k < |pp| ==>
      Resolves(catalog, pp[k].productId) &&
      pp[k].aisle == ProductFor(catalog, pp[k].productId).aisle &&
      pp[k].shelf == ProductFor(catalog, pp[k].productId).shelf
  }

  /** Products x and y both occur in the lines, x first. */
  predicate SeenBefore(lines: seq<OrderItem>, x: int, y: int) {
    x in LineIds(lines) && y in LineIds(lines) && FirstLine(lines, x) < FirstLine(lines, y)
  }

  /** Points are ordered by the first line of their product. */
  predicate FirstSeenOrder(lines: seq<OrderItem>, pp: seq<PickPoint>) {
    forall a, b :: 0 <= a < b < |pp| ==> SeenBefore(lines, pp[a].productId, pp[b].productId)
  }

  /** pp is the summary of the lines: one point per distinct product of the
      lines and no other, in the order of each product's first line, each
      with the product's summed quantity and its catalog location. */
  predicate Summarizes(catalog: seq<Product>, lines: seq<OrderItem>, pp: seq<PickPoint>) {
    DistinctIds(pp) && PointIds(pp) == LineIds(lines) && QtysMatch(lines, pp) &&
    AtCatalog(catalog, pp) && FirstSeenOrder(lines, pp)
  }

  lemma LineIdsAppend(lines: seq<OrderItem>, line: OrderItem)
    ensures LineIds(lines + [line]) == LineIds(lines) + {line.productId}
  {
    var lines' := lines + [line];
    forall pid | pid in LineIds(lines') ensures pid in LineIds(lines) + {line.productId} {
      var j :| 0 <= j < |lines'| && lines'[j].productId == pid;
      if j < |lines| {
        assert lines[j].productId == pid;
      }
    }
    forall pid | pid in LineIds(lines) ensures pid in LineIds(lines') {
      var j :| 0 <= j < |lines| && lines[j].productId == pid;
      assert lines'[j].productId == pid;
    }
    assert lines'[|lines|] == line;
  }

  lemma QtyOfAppend(lines: seq<OrderItem>, line: OrderItem, pid: int)
    ensures QtyOf(lines + [line], pid) == QtyOf(lines, pid) + (if line.productId == pid then line.qty else 0)
  {
    assert (lines + [line])[..|lines|] == lines;
  }

  lemma {:induction false} QtyOfAbsent(lines: seq<OrderItem>, pid: int)
    requires pid !in LineIds(lines)
    ensures QtyOf(lines, pid) == 0
  {
    if lines != [] {
      var n := |lines| - 1;
      assert lines[n].productId != pid;
      assert pid !in LineIds(lines[..n]);
      QtyOfAbsent(lines[..n], pid);
    }
  }

  lemma FirstLineAppend(lines: seq<OrderItem>, line: OrderItem, pid: int)
    requires pid in LineIds(lines) || pid == line.productId
    ensures LineIds(lines + [line]) == LineIds(lines) + {line.productId}
    ensures FirstLine(lines + [line], pid) == if pid in LineIds(lines) then FirstLine(lines, pid) else |lines|
  {
    LineIdsAppend(lines, line);
    assert (lines + [line])[..|lines|] == lines;
  }

  /** A point for a product not seen before, appended at the end. */
  lemma NewPointSummarizes(catalog: seq<Product>, lines: seq<OrderItem>, pp: seq<PickPoint>,
                           line: OrderItem, np: PickPoint)
    requires Resolves(catalog, line.productId) && line.productId !in PointIds(pp)
    requires np == PickPoint(line.productId, ProductFor(catalog, line.productId).aisle,
                             ProductFor(catalog, line.productId).shelf, line.qty)
    requires Summarizes(catalog, lines, pp)
    ensures Summarizes(catalog, lines + [line], pp + [np])
  {
    var pp' := pp + [np];
    var lines' := lines + [line];
    LineIdsAppend(lines, line);
    PointIdsAppend(pp, np);
    NewPointDistinct(pp, np);
    NewPointQtys(lines, pp, line, np);
    NewPointAtCatalog(catalog, pp, np);
    NewPointOrder(lines, pp, line, np);
  }

  lemma PointIdsAppend(pp: seq<PickPoint>, np: PickPoint)
    ensures PointIds(pp + [np]) == PointIds(pp) + {np.productId}
  {
    var pp' := pp + [np];
    forall x | x in PointIds(pp') ensures x in PointIds(pp) + {np.productId} {
      var k :| 0 <= k < |pp'| && pp'[k].productId == x;
      if k < |pp| {
        assert pp[k].productId == x;
      }
    }
    forall x | x in PointIds(pp) ensures x in PointIds(pp') {
      var k :| 0 <= k < |pp| && pp[k].productId == x;
      assert pp'[k].productId == x;
    }
    assert pp'[|pp|] == np;
  }

  lemma NewPointDistinct(pp: seq<PickPoint>, np: PickPoint)
    requires DistinctIds(pp) && np.productId !in PointIds(pp)
    ensures DistinctIds(pp + [np])
  {
    var pp' := pp + [np];
    forall a, b | 0 <= a < b < |pp'|
      ensures pp'[a].productId != pp'[b].productId
    {
      if b == |pp| {
        assert pp[a].productId in PointIds(pp);
      }
    }
  }

  lemma NewPointQtys(lines: seq<OrderItem>, pp: seq<PickPoint>, line: OrderItem, np: PickPoint)
    requires QtysMatch(lines, pp) && PointIds(pp) == LineIds(lines)
    requires np.productId == line.productId && np.qty == line.qty && line.productId !in LineIds(lines)
    ensures QtysMatch(lines + [line], pp + [np])
  {
    var pp' := pp + [np];
    forall k | 0 <= k < |pp'|
      ensures pp'[k].qty == QtyOf(lines + [line], pp'[k].productId)
    {
      QtyOfAppend(lines, line, pp'[k].productId);
      if k < |pp| {
        assert pp[k].productId in PointIds(pp);
      } else {
        QtyOfAbsent(lines, line.productId);
      }
    }
  }

  lemma NewPointAtCatalog(catalog: seq<Product>, pp: seq<PickPoint>, np: PickPoint)
    requires AtCatalog(catalog, pp)
    requires Resolves(catalog, np.productId)
    requires np.aisle == ProductFor(catalog, np.productId).aisle
    requires np.shelf == ProductFor(catalog, np.productId).shelf
    ensures AtCatalog(catalog, pp + [np])
  {
    var pp' := pp + [np];
    assert forall k :: 0 <= k < |pp| ==> pp'[k] == pp[k];
  }

  lemma NewPointOrder(lines: seq<OrderItem>, pp: seq<PickPoint>, line: OrderItem, np: PickPoint)
    requires FirstSeenOrder(lines, pp) && PointIds(pp) == LineIds(lines)
    requires np.productId == line.productId && line.productId !in LineIds(lines)
    ensures FirstSeenOrder(lines + [line], pp + [np])
  {
    var pp' := pp + [np];
    var lines' := lines + [line];
    LineIdsAppend(lines, line);
    forall a, b | 0 <= a < b < |pp'|
      ensures SeenBefore(lines', pp'[a].productId, pp'[b].productId)
    {
      assert pp[a].productId in PointIds(pp);
      FirstLineAppend(lines, line, pp'[a].productId);
      if b < |pp| {
        assert pp[b].productId in PointIds(pp);
        FirstLineAppend(lines, line, pp'[b].productId);
      } else {
        FirstLineAppend(lines, line, line.productId);
      }
    }
  }

  /** A line of a product that has point f adds its quantity to that point. */
  lemma BumpPointSummarizes(catalog: seq<Product>, lines: seq<OrderItem>, pp: seq<PickPoint>,
                            line: OrderItem, f: nat, pp': seq<PickPoint>)
    requires f < |pp| && pp[f].productId == line.productId
    requires pp' == pp[f := pp[f].(qty := pp[f].qty + line.qty)]
    requires Summarizes(catalog, lines, pp)
    ensures Summarizes(catalog, lines + [line], pp')
  {
    LineIdsAppend(lines, line);
    assert line.productId in PointIds(pp);
    BumpPointIds(pp, f, pp[f].qty + line.qty, pp');
    BumpPointQtys(lines, pp, line, f, pp');
    BumpPointOrder(lines, pp, line, pp');
  }

  /** Changing a point's qty keeps every id and location. */
  lemma BumpPointIds(pp: seq<PickPoint>, f: nat, x: int, pp': seq<PickPoint>)
    requires f < |pp| && pp' == pp[f := pp[f].(qty := x)]
    ensures PointIds(pp') == PointIds(pp)
    ensures DistinctIds(pp) ==> DistinctIds(pp')
    ensures forall c: seq<Product> :: AtCatalog(c, pp) ==> AtCatalog(c, pp')
  {
    assert forall k :: 0 <= k < |pp| ==> pp'[k].productId == pp[k].productId;
    forall x | x in PointIds(pp') ensures x in PointIds(pp) {
      var k :| 0 <= k < |pp'| && pp'[k].productId == x;
      assert pp[k].productId == x;
    }
    forall x | x in PointIds(pp) ensures x in PointIds(pp') {
      var k :| 0 <= k < |pp| && pp[k].productId == x;
      assert pp'[k].productId == x;
    }
  }

  lemma BumpPointQtys(lines: seq<OrderItem>, pp: seq<PickPoint>, line: OrderItem, f: nat, pp': seq<PickPoint>)
    requires f < |pp| && pp[f].productId == line.productId && DistinctIds(pp)
    requires pp' == pp[f := pp[f].(qty := pp[f].qty + line.qty)]
    requires QtysMatch(lines, pp)
    ensures QtysMatch(lines + [line], pp')
  {
    forall k | 0 <= k < |pp'|
      ensures pp'[k].qty == QtyOf(lines + [line], pp'[k].productId)
    {
      QtyOfAppend(lines, line, pp'[k].productId);
      if k != f {
        assert pp'[k] == pp[k];
      }
    }
  }

  lemma BumpPointOrder(lines: seq<OrderItem>, pp: seq<PickPoint>, line: OrderItem, pp': seq<PickPoint>)
    requires |pp'| == |pp| && forall k :: 0 <= k < |pp| ==> pp'[k].productId == pp[k].productId
    requires FirstSeenOrder(lines, pp)
    ensures FirstSeenOrder(lines + [line], pp')
  {
    var lines' := lines + [line];
    forall a, b | 0 <= a < b < |pp'|
      ensures SeenBefore(lines', pp'[a].productId, pp'[b].productId)
    {
      assert SeenBefore(lines, pp[a].productId, pp[b].productId);
      assert pp'[a].productId == pp[a].productId && pp'[b].productId == pp[b].productId;
      FirstLineAppend(lines, line, pp[a].productId);
      FirstLineAppend(lines, line, pp[b].productId);
    }
  }

  /** One AddLine step keeps the summary. */
  lemma AddLineSummarizes(catalog: seq<Product>, lines: seq<OrderItem>, pp: seq<PickPoint>, line: OrderItem)
    requires Resolves(catalog, line.productId)
    requires Summarizes(catalog, lines, pp)
    ensures Summarizes(catalog, lines + [line], AddLine(catalog, pp, line))
  {
    var f := FindPoint(pp, line.productId);
    if f == -1 {
      var p := ProductFor(catalog, line.productId);
      NewPointSummarizes(catalog, lines, pp, line, PickPoint(line.productId, p.aisle, p.shelf, line.qty));
    } else {
      BumpPointSummarizes(catalog, lines, pp, line, f, AddLine(catalog, pp, line));
    }
  }

  lemma {:induction false} AggregateSummarizes(catalog: seq<Product>, lines: seq<OrderItem>)
    requires LinesResolve(catalog, lines)
    ensures Summarizes(catalog, lines, Aggregate(catalog, lines))
  {
    if lines == [] {
      assert LineIds(lines) == {};
    } else {
      var n := |lines| - 1;
      assert LinesResolve(catalog, lines[..n]);
      AggregateSummarizes(catalog, lines[..n]);
      assert lines == lines[..n] + [lines[n]];
      AddLineSummarizes(catalog, lines[..n], Aggregate(catalog, lines[..n]), lines[n]);
    }
  }

  /** One pick point per product: no product id occurs twice. */
  lemma PickPointsDistinct(catalog: seq<Product>, lines: seq<OrderItem>)
    requires LinesResolve(catalog, lines)
    ensures var pp := Aggregate(catalog, lines);
            forall a, b :: 0 <= a < b < |pp| ==> pp[a].productId != pp[b].productId
  {
    AggregateSummarizes(catalog, lines);
  }

  /** A product has a pick point exactly when some line names it. */
  lemma PickPointsCoverProducts(catalog: seq<Product>, lines: seq<OrderItem>, pid: int)
    requires LinesResolve(catalog, lines)
    ensures var pp := Aggregate(catalog, lines);
            (exists k :: 0 <= k < |pp| && pp[k].productId == pid) <==>
            (exists j :: 0 <= j < |lines| && lines[j].productId == pid)
  {
    AggregateIds(catalog, lines);
    PointIdsHas(Aggregate(catalog, lines), pid);
    LineIdsHas(lines, pid);
  }

  lemma AggregateIds(catalog: seq<Product>, lines: seq<OrderItem>)
    requires LinesResolve(catalog, lines)
    ensures PointIds(Aggregate(catalog, lines)) == LineIds(lines)
  {
    AggregateSummarizes(catalog, lines);
  }

  lemma PointIdsHas(pp: seq<PickPoint>, pid: int)
    ensures pid in PointIds(pp) <==> exists k :: 0 <= k < |pp| && pp[k].productId == pid
  {
  }

  lemma LineIdsHas(lines: seq<OrderItem>, pid: int)
    ensures pid in LineIds(lines) <==> exists j :: 0 <= j < |lines| && lines[j].productId == pid
  {
  }

  /** Points appear in first-seen order: of two points, the earlier one's
      product first occurs in the lines before the later one's. */
  lemma PickPointsFirstSeen(catalog: seq<Product>, lines: seq<OrderItem>)
    requires LinesResolve(catalog, lines)
    ensures var pp := Aggregate(catalog, lines);
            forall a, b :: 0 <= a < b < |pp| ==>
              pp[a].productId in LineIds(lines) && pp[b].productId in LineIds(lines) &&
              FirstLine(lines, pp[a].productId) < FirstLine(lines, pp[b].productId)
  {
    AggregateSummarizes(catalog, lines);
  }

  /** Each point's quantity is the sum over the lines of its product. */
  lemma PickPointsQuantities(catalog: seq<Product>, lines: seq<OrderItem>)
    requires LinesResolve(catalog, lines)
    ensures var pp := Aggregate(catalog, lines);
            forall k :: 0 <= k < |pp| ==> pp[k].qty == QtyOf(lines, pp[k].productId)
  {
    AggregateSummarizes(catalog, lines);
  }

  /** Each point's aisle and shelf are its product's catalog location. */
  lemma PickPointsLocations(catalog: seq<Product>, lines: seq<OrderItem>)
    requires LinesResolve(catalog, lines)
    ensures var pp := Aggregate(catalog, lines);
            forall k :: 0 <= k < |pp| ==>
              Resolves(catalog, pp[k].productId) &&
              pp[k].aisle == ProductFor(catalog, pp[k].productId).aisle &&
              pp[k].shelf == ProductFor(catalog, pp[k].productId).shelf
  {
    AggregateSummarizes(catalog, lines);
  }

  lemma PointsQtyAppend(pp: seq<PickPoint>, np: PickPoint)
    ensures PointsQty(pp + [np]) == PointsQty(pp) + np.qty
  {
    assert (pp + [np])[..|pp|] == pp;
  }

  lemma {:induction false} PointsQtyBump(pp: seq<PickPoint>, f: nat, x: int)
    requires f < |pp|
    ensures PointsQty(pp[f := pp[f].(qty := pp[f].qty + x)]) == PointsQty(pp) + x
  {
    var pp' := pp[f := pp[f].(qty := pp[f].qty + x)];
    var n := |pp| - 1;
    if f == n {
      assert pp'[..n] == pp[..n];
    } else {
      assert pp'[..n] == pp[..n][f := pp[f].(qty := pp[f].qty + x)];
      PointsQtyBump(pp[..n], f, x);
    }
  }

  /** Quantity conservation: the points' quantities add up to the lines'. */
  lemma {:induction false} PickPointsConserveQty(catalog: seq<Product>, lines: seq<OrderItem>)
    requires LinesResolve(catalog, lines)
    ensures PointsQty(Aggregate(catalog, lines)) == ItemsQty(lines)
  {
    if lines != [] {
      var n := |lines| - 1;
      assert LinesResolve(catalog, lines[..n]);
      PickPointsConserveQty(catalog, lines[..n]);
      AddLineQty(catalog, Aggregate(catalog, lines[..n]), lines[n]);
    }
  }

  lemma AddLineQty(catalog: seq<Product>, pp: seq<PickPoint>, line: OrderItem)
    requires Resolves(catalog, line.productId)
    ensures PointsQty(AddLine(catalog, pp, line)) == PointsQty(pp) + line.qty
  {
    var f := FindPoint(pp, line.productId);
    if f == -1 {
      var p := ProductFor(catalog, line.productId);
      PointsQtyAppend(pp, PickPoint(line.productId, p.aisle, p.shelf, line.qty));
    } else {
      PointsQtyBump(pp, f, line.qty);
    }
  }

  lemma {:induction false} ItemsQtyAppend(a: seq<OrderItem>, c: seq<OrderItem>)
    ensures ItemsQty(a + c) == ItemsQty(a) + ItemsQty(c)
    decreases |c|
  {
    if c == [] {
      assert a + c == a;
    } else {
      var c' := c[..|c| - 1];
      assert (a + c)[..|a + c| - 1] == a + c';
      ItemsQtyAppend(a, c');
    }
  }

  /** The lines of a batch carry its item count. */
  lemma {:induction false} BatchLinesQty(orders: seq<Order>)
    ensures ItemsQty(BatchLines(orders)) == LoadItems(orders)
  {
    if orders != [] {
      var n := |orders| - 1;
      BatchLinesQty(orders[..n]);
      ItemsQtyAppend(BatchLines(orders[..n]), orders[n].items);
    }
  }

  /** The pick points of a batch hold, in total, the batch's item count. */
  lemma PickPointsCarryBatchItems(catalog: seq<Product>, orders: seq<Order>)
    requires OrdersResolve(catalog, orders)
    ensures LinesResolve(catalog, BatchLines(orders))
    ensures PointsQty(Aggregate(catalog, BatchLines(orders))) == LoadItems(orders)
  {
    BatchLinesResolve(catalog, orders);
    PickPointsConserveQty(catalog, BatchLines(orders));
    BatchLinesQty(orders);
  }
}
