/** main: for each batch, in creation order, build its pick points and
    route them into a sequence buffer of 100 slots; and main's own fixture,
    whose outcome the model determines: orders 101 and 103 share a batch,
    102 and 104 get one each, and the three routes cost 14, 16 and 16. */
module Demo {
  import opened Warehouse
  import opened Batching
  import opened Picking
  import opened Routing

  /** The ids of the orders, as main prints them for a batch. */
  function OrderIds(orders: seq<Order>): (ids: seq<int>)
    ensures |ids| == |orders| && forall j :: 0 <= j < |orders| ==> ids[j] == orders[j].id
  {
    seq(|orders|, j requires 0 <= j < |orders| => orders[j].id)
  }

  /** main routes a batch into a buffer of 100 slots: the batch's lines
      resolve, its pick points are within range and there are at most 100. */
  predicate Routable(c: seq<Product>, load: seq<Order>) {
    LinesResolve(c, BatchLines(load)) &&
    var pp := Aggregate(c, BatchLines(load));
    WithinRange(pp) && |pp| <= 100
  }

  /** The cost main prints for a batch holding `load`. */
  function BatchCost(c: seq<Product>, load: seq<Order>): int
    requires Routable(c, load)
  {
    var pp := Aggregate(c, BatchLines(load));
    RouteCost(pp, Walk(pp, |pp|))
  }

  /** What main prints for a batch holding `load`: its order ids and its cost. */
  function Report(c: seq<Product>, load: seq<Order>): (seq<int>, int)
    requires Routable(c, load)
  {
    (OrderIds(load), BatchCost(c, load))
  }

  /** route_batch into main's sequence buffer of 100 slots. */
  method RouteInto100(pp: seq<PickPoint>) returns (cost: int)
    requires WithinRange(pp) && |pp| <= 100
    ensures cost == RouteCost(pp, Walk(pp, |pp|))
  {
    var visits := new int[100];
    cost := RouteBatch(pp, visits);
  }

  /** The body of main's batch loop: the batch's order ids, its pick points
      and the cost of its route. */
  method PickAndRoute(batch: Batch, catalog: seq<Product>) returns (ids: seq<int>, cost: int)
    requires Routable(catalog, batch.orders)
    ensures (ids, cost) == Report(catalog, batch.orders)
  {
    ids := OrderIds(batch.orders);
    var pp := BuildPickPoints(batch, catalog);
    cost := RouteInto100(pp);
  }

  /** main's catalog. */
  function Catalog(): seq<Product> {
    [Product(1, "Soap", 1, 1, 0.5),
     Product(2, "Shampoo", 1, 4, 1.0),
     Product(3, "Oil 1L", 2, 3, 1.5),
     Product(4, "Detergent", 2, 6, 3.0),
     Product(5, "Toothpaste", 3, 1, 0.2),
     Product(6, "Flour 5kg", 3, 5, 5.0)]
  }

  function Orders(): seq<Order> {
    [Order(101, [OrderItem(1, 2), OrderItem(2, 1)]),
     Order(102, [OrderItem(3, 1), OrderItem(4, 1)]),
     Order(103, [OrderItem(2, 2), OrderItem(5, 3)]),
     Order(104, [OrderItem(6, 1)])]
  }

  const MaxWeight: real := 6.0
  const MaxItems: int := 8

  /** Every line of the fixture names a catalog product. */
  lemma FixtureResolves()
    ensures OrdersResolve(Catalog(), Orders())
  {
  }

  /** Order 101: 2 x Soap (0.5) + Shampoo (1.0) weighs 2.0; 3 items. */
  lemma Totals101()
    ensures ItemsWeight(Catalog(), Orders()[0].items) == 2.0 && ItemsQty(Orders()[0].items) == 3
  {
  }

  /** Order 102: Oil (1.5) + Detergent (3.0) weighs 4.5; 2 items. */
  lemma Totals102()
    ensures ItemsWeight(Catalog(), Orders()[1].items) == 4.5 && ItemsQty(Orders()[1].items) == 2
  {
  }

  /** Order 103: 2 x Shampoo (1.0) + 3 x Toothpaste (0.2) weighs 2.6; 5 items. */
  lemma Totals103()
    ensures ItemsWeight(Catalog(), Orders()[2].items) == 2.6 && ItemsQty(Orders()[2].items) == 5
  {
  }

  /** Order 104: Flour (5.0) weighs 5.0; 1 item. */
  lemma Totals104()
    ensures ItemsWeight(Catalog(), Orders()[3].items) == 5.0 && ItemsQty(Orders()[3].items) == 1
  {
  }

  /** Order 101 opens the first batch. */
  lemma FixtureAssign1(o: seq<Order>, c: seq<Product>)
    requires |o| == 4
    requires ItemsWeight(c, o[0].items) == 2.0 && ItemsQty(o[0].items) == 3
    ensures Assignment(o, c, MaxWeight, MaxItems, 1) == [Bin([0], 2.0, 3)]
  {
    AssignmentNext(o, c, MaxWeight, MaxItems, 0, 0);
  }

  /** Order 102 does not fit next to 101 (6.5 > 6.0) and opens a second batch. */
  lemma FixtureAssign2(o: seq<Order>, c: seq<Product>)
    requires |o| == 4 && Assignment(o, c, MaxWeight, MaxItems, 1) == [Bin([0], 2.0, 3)]
    requires ItemsWeight(c, o[1].items) == 4.5 && ItemsQty(o[1].items) == 2
    ensures Assignment(o, c, MaxWeight, MaxItems, 2) == [Bin([0], 2.0, 3), Bin([1], 4.5, 2)]
  {
    AssignmentNext(o, c, MaxWeight, MaxItems, 1, 1);
  }

  /** Order 103 joins the first batch: 4.6 in weight and exactly 8 items. */
  lemma FixtureAssign3(o: seq<Order>, c: seq<Product>)
    requires |o| == 4 && Assignment(o, c, MaxWeight, MaxItems, 2) == [Bin([0], 2.0, 3), Bin([1], 4.5, 2)]
    requires ItemsWeight(c, o[2].items) == 2.6 && ItemsQty(o[2].items) == 5
    ensures Assignment(o, c, MaxWeight, MaxItems, 3) == [Bin([0, 2], 4.6, 8), Bin([1], 4.5, 2)]
  {
    AssignmentNext(o, c, MaxWeight, MaxItems, 2, 0);
    assert [0] + [2] == [0, 2];
  }

  /** Order 104 fits neither batch and opens a third. */
  lemma FixtureAssign4(o: seq<Order>, c: seq<Product>)
    requires |o| == 4 && Assignment(o, c, MaxWeight, MaxItems, 3) == [Bin([0, 2], 4.6, 8), Bin([1], 4.5, 2)]
    requires ItemsWeight(c, o[3].items) == 5.0 && ItemsQty(o[3].items) == 1
    ensures Assignment(o, c, MaxWeight, MaxItems, 4) ==
            [Bin([0, 2], 4.6, 8), Bin([1], 4.5, 2), Bin([3], 5.0, 1)]
  {
    AssignmentNext(o, c, MaxWeight, MaxItems, 3, 2);
  }

  /** First fit over the fixture: orders 101 and 103 share the first batch,
      102 and 104 each open one. */
  lemma FixtureAssignment()
    ensures Assignment(Orders(), Catalog(), MaxWeight, MaxItems, 4) ==
            [Bin([0, 2], 4.6, 8), Bin([1], 4.5, 2), Bin([3], 5.0, 1)]
  {
    Totals101();
    Totals102();
    Totals103();
    Totals104();
    FixtureAssign1(Orders(), Catalog());
    FixtureAssign2(Orders(), Catalog());
    FixtureAssign3(Orders(), Catalog());
    FixtureAssign4(Orders(), Catalog());
  }

  /** Product pid resolves to a product stored at (aisle, shelf). */
  predicate Locates(c: seq<Product>, pid: int, aisle: int, shelf: int) {
    Resolves(c, pid) && ProductFor(c, pid).aisle == aisle && ProductFor(c, pid).shelf == shelf
  }

  /** Where the catalog stores Soap, Shampoo and Toothpaste. */
  lemma CatalogLocations0()
    ensures Locates(Catalog(), 1, 1, 1) && Locates(Catalog(), 2, 1, 4) && Locates(Catalog(), 5, 3, 1)
  {
  }

  /** Where the catalog stores Oil and Detergent. */
  lemma CatalogLocations1()
    ensures Locates(Catalog(), 3, 2, 3) && Locates(Catalog(), 4, 2, 6)
  {
  }

  /** Where the catalog stores Flour. */
  lemma CatalogLocations2()
    ensures Locates(Catalog(), 6, 3, 5)
  {
  }

  /** A line for a product with no point yet adds a point at the product's location. */
  lemma SnocNew(c: seq<Product>, lines: seq<OrderItem>, line: OrderItem, pp: seq<PickPoint>, aisle: int, shelf: int)
    requires LinesResolve(c, lines) && Locates(c, line.productId, aisle, shelf)
    requires Aggregate(c, lines) == pp && line.productId !in PointIds(pp)
    ensures LinesResolve(c, lines + [line])
    ensures Aggregate(c, lines + [line]) == pp + [PickPoint(line.productId, aisle, shelf, line.qty)]
  {
    assert forall k :: 0 <= k < |lines| ==> (lines + [line])[k] == lines[k];
    AggregateSnoc(c, lines, line);
  }

  /** A line for a product with point f adds its quantity there. */
  lemma SnocMerge(c: seq<Product>, lines: seq<OrderItem>, line: OrderItem, pp: seq<PickPoint>, f: nat)
    requires LinesResolve(c, lines) && Resolves(c, line.productId)
    requires Aggregate(c, lines) == pp && f < |pp| && pp[f].productId == line.productId
    requires forall k :: f < k < |pp| ==> pp[k].productId != line.productId
    ensures LinesResolve(c, lines + [line])
    ensures Aggregate(c, lines + [line]) == pp[f := pp[f].(qty := pp[f].qty + line.qty)]
  {
    assert forall k :: 0 <= k < |lines| ==> (lines + [line])[k] == lines[k];
    AggregateSnoc(c, lines, line);
    AddLineAt(c, pp, line, f);
  }

  /** AddLine on a product whose last point is f bumps point f. */
  lemma AddLineAt(c: seq<Product>, pp: seq<PickPoint>, line: OrderItem, f: nat)
    requires Resolves(c, line.productId) && f < |pp| && pp[f].productId == line.productId
    requires forall k :: f < k < |pp| ==> pp[k].productId != line.productId
    ensures AddLine(c, pp, line) == pp[f := pp[f].(qty := pp[f].qty + line.qty)]
  {
    assert pp[f].productId in PointIds(pp);
    var g := FindPoint(pp, line.productId);
    assert g == f;
  }

  /** The first batch's lines, in visiting order. */
  function Lines0(): seq<OrderItem> {
    [OrderItem(1, 2), OrderItem(2, 1), OrderItem(2, 2), OrderItem(5, 3)]
  }

  /** Soap, then Shampoo: two new points. */
  lemma FixturePickPoints0a(c: seq<Product>)
    requires Locates(c, 1, 1, 1) && Locates(c, 2, 1, 4)
    ensures LinesResolve(c, Lines0()[..2])
    ensures Aggregate(c, Lines0()[..2]) == [PickPoint(1, 1, 1, 2), PickPoint(2, 1, 4, 1)]
  {
    var l1, l2 := OrderItem(1, 2), OrderItem(2, 1);
    SnocNew(c, [], l1, [], 1, 1);
    SnocNew(c, [] + [l1], l2, [PickPoint(1, 1, 1, 2)], 1, 4);
    assert [] + [l1] + [l2] == Lines0()[..2];
  }

  /** The pick points of the first batch: Shampoo's two lines give one
      point of quantity 3, and Toothpaste comes last. */
  lemma FixturePickPoints0(c: seq<Product>)
    requires Locates(c, 1, 1, 1) && Locates(c, 2, 1, 4) && Locates(c, 5, 3, 1)
    ensures LinesResolve(c, Lines0()) && Points0(Aggregate(c, Lines0()))
  {
    var l3, l4 := OrderItem(2, 2), OrderItem(5, 3);
    FixturePickPoints0a(c);
    var front := Lines0()[..2];
    SnocMerge(c, front, l3, [PickPoint(1, 1, 1, 2), PickPoint(2, 1, 4, 1)], 1);
    SnocNew(c, front + [l3], l4, [PickPoint(1, 1, 1, 2), PickPoint(2, 1, 4, 3)], 3, 1);
    assert front + [l3] + [l4] == Lines0();
  }

  /** The second batch's lines. */
  function Lines1(): seq<OrderItem> {
    [OrderItem(3, 1), OrderItem(4, 1)]
  }

  /** The pick points of the second batch (order 102). */
  lemma FixturePickPoints1(c: seq<Product>)
    requires Locates(c, 3, 2, 3) && Locates(c, 4, 2, 6)
    ensures LinesResolve(c, Lines1()) && Points1(Aggregate(c, Lines1()))
  {
    var l1, l2 := OrderItem(3, 1), OrderItem(4, 1);
    SnocNew(c, [], l1, [], 2, 3);
    SnocNew(c, [] + [l1], l2, [PickPoint(3, 2, 3, 1)], 2, 6);
    assert [] + [l1] + [l2] == Lines1();
  }

  /** The third batch's lines. */
  function Lines2(): seq<OrderItem> {
    [OrderItem(6, 1)]
  }

  /** The pick point of the third batch (order 104). */
  lemma FixturePickPoints2(c: seq<Product>)
    requires Locates(c, 6, 3, 5)
    ensures LinesResolve(c, Lines2()) && Points2(Aggregate(c, Lines2()))
  {
    SnocNew(c, [], OrderItem(6, 1), [], 3, 5);
    assert [] + [OrderItem(6, 1)] == Lines2();
  }

  /** The pick points of the first batch, in first-seen order. */
  predicate Points0(pp: seq<PickPoint>) {
    |pp| == 3 && pp[0] == PickPoint(1, 1, 1, 2) && pp[1] == PickPoint(2, 1, 4, 3) && pp[2] == PickPoint(5, 3, 1, 3)
  }

  /** From the depot, Soap at (1,1) is nearest (2; Shampoo is 5, Toothpaste 4). */
  lemma Route0Step1(pp: seq<PickPoint>)
    requires Points0(pp)
    ensures WithinRange(pp) && Walk(pp, 1) == [0]
  {
    var v := Flags(|pp|, []);
    assert Scan(pp, v, 0, 0, 1) == (0, 2);
    assert Scan(pp, v, 0, 0, 2) == (0, 2);
    assert Scan(pp, v, 0, 0, 3) == (0, 2);
    WalkNext(pp, [], 0);
  }

  /** From Soap, Toothpaste at (3,1) (2 away) beats Shampoo at (1,4) (3 away). */
  lemma Route0Step2(pp: seq<PickPoint>)
    requires Points0(pp) && WithinRange(pp) && Walk(pp, 1) == [0]
    ensures Walk(pp, 2) == [0, 2]
  {
    var v := Flags(|pp|, [0]);
    assert v[0] && !v[1] && !v[2];
    assert Scan(pp, v, 1, 1, 1) == (-1, IntMax);
    assert Scan(pp, v, 1, 1, 2) == (1, 3);
    assert Scan(pp, v, 1, 1, 3) == (2, 2);
    WalkNext(pp, [0], 2);
  }

  lemma Scan0c(pp: seq<PickPoint>)
    requires Points0(pp)
    ensures Scan(pp, Flags(|pp|, [0, 2]), 3, 1, |pp|).0 == 1
  {
    var v := Flags(|pp|, [0, 2]);
    assert v[0] && !v[1] && v[2];
    assert Scan(pp, v, 3, 1, 1) == (-1, IntMax);
    assert Scan(pp, v, 3, 1, 2) == (1, 5);
  }

  /** Shampoo is the last point left. */
  lemma Route0Step3(pp: seq<PickPoint>)
    requires Points0(pp) && WithinRange(pp) && Walk(pp, 2) == [0, 2]
    ensures Walk(pp, 3) == [0, 2, 1]
  {
    Scan0c(pp);
    WalkNext(pp, [0, 2], 1);
  }

  /** Soap, then Toothpaste: 2 + 2. */
  lemma Route0Legs(pp: seq<PickPoint>)
    requires Points0(pp)
    ensures Legs(pp, [0, 2]) == 4
  {
    LegsNext(pp, [], 0);
    LegsNext(pp, [0], 2);
    assert [] + [0] == [0] && [0] + [2] == [0, 2];
  }

  /** 2 + 2 + 5 and 5 back to the depot: 14. */
  lemma Route0Cost(pp: seq<PickPoint>)
    requires Points0(pp)
    ensures RouteCost(pp, [0, 2, 1]) == 14
  {
    Route0Legs(pp);
    LegsNext(pp, [0, 2], 1);
    assert [0, 2] + [1] == [0, 2, 1];
  }

  /** The first batch's route: Soap, Toothpaste, Shampoo, for 14. */
  lemma FixtureRoute0(pp: seq<PickPoint>)
    requires Points0(pp)
    ensures WithinRange(pp) && Walk(pp, |pp|) == [0, 2, 1] && RouteCost(pp, Walk(pp, |pp|)) == 14
  {
    Route0Step1(pp);
    Route0Step2(pp);
    Route0Step3(pp);
    Route0Cost(pp);
  }

  /** The pick points of the second batch. */
  predicate Points1(pp: seq<PickPoint>) {
    |pp| == 2 && pp[0] == PickPoint(3, 2, 3, 1) && pp[1] == PickPoint(4, 2, 6, 1)
  }

  /** From the depot, Oil at (2,3) (5 away) beats Detergent at (2,6) (8 away). */
  lemma Route1Step1(pp: seq<PickPoint>)
    requires Points1(pp)
    ensures WithinRange(pp) && Walk(pp, 1) == [0]
  {
    var v := Flags(|pp|, []);
    assert Scan(pp, v, 0, 0, 1) == (0, 5);
    assert Scan(pp, v, 0, 0, 2) == (0, 5);
    WalkNext(pp, [], 0);
  }

  /** Detergent is the last point left. */
  lemma Route1Step2(pp: seq<PickPoint>)
    requires Points1(pp) && WithinRange(pp) && Walk(pp, 1) == [0]
    ensures Walk(pp, 2) == [0, 1]
  {
    var v := Flags(|pp|, [0]);
    assert v[0] && !v[1];
    assert Scan(pp, v, 2, 3, 1) == (-1, IntMax);
    assert Scan(pp, v, 2, 3, 2) == (1, 3);
    WalkNext(pp, [0], 1);
  }

  /** 5 + 3 and 8 back to the depot: 16. */
  lemma Route1Cost(pp: seq<PickPoint>)
    requires Points1(pp)
    ensures RouteCost(pp, [0, 1]) == 16
  {
    LegsNext(pp, [], 0);
    LegsNext(pp, [0], 1);
    assert [] + [0] == [0] && [0] + [1] == [0, 1];
  }

  /** The second batch's route: Oil, then Detergent, for 16. */
  lemma FixtureRoute1(pp: seq<PickPoint>)
    requires Points1(pp)
    ensures WithinRange(pp) && Walk(pp, |pp|) == [0, 1] && RouteCost(pp, Walk(pp, |pp|)) == 16
  {
    Route1Step1(pp);
    Route1Step2(pp);
    Route1Cost(pp);
  }

  /** The pick point of the third batch. */
  predicate Points2(pp: seq<PickPoint>) {
    |pp| == 1 && pp[0] == PickPoint(6, 3, 5, 1)
  }

  /** The third batch's route: Flour at (3,5) and back, 8 + 8 = 16. */
  lemma FixtureRoute2(pp: seq<PickPoint>)
    requires Points2(pp)
    ensures WithinRange(pp) && Walk(pp, |pp|) == [0] && RouteCost(pp, Walk(pp, |pp|)) == 16
  {
    var v := Flags(|pp|, []);
    assert Scan(pp, v, 0, 0, 1) == (0, 8);
    WalkNext(pp, [], 0);
    LegsNext(pp, [], 0);
    assert [] + [0] == [0];
  }

  /** A batch's report from its lines, pick points, route cost and ids. */
  lemma ReportOf(c: seq<Product>, load: seq<Order>, lines: seq<OrderItem>, pp: seq<PickPoint>,
                 ids: seq<int>, cost: int)
    requires BatchLines(load) == lines && LinesResolve(c, lines) && Aggregate(c, lines) == pp
    requires WithinRange(pp) && |pp| <= 100 && RouteCost(pp, Walk(pp, |pp|)) == cost
    requires OrderIds(load) == ids
    ensures Routable(c, load) && Report(c, load) == (ids, cost)
  {
  }

  /** The first batch, for any catalog storing its products where main's
      does: ids 101 and 103, cost 14. */
  lemma Batch0Report(c: seq<Product>, load: seq<Order>)
    requires Locates(c, 1, 1, 1) && Locates(c, 2, 1, 4) && Locates(c, 5, 3, 1)
    requires BatchLines(load) == Lines0() && OrderIds(load) == [101, 103]
    ensures Routable(c, load) && Report(c, load) == ([101, 103], 14)
  {
    FixturePickPoints0(c);
    var pp := Aggregate(c, Lines0());
    FixtureRoute0(pp);
    ReportOf(c, load, Lines0(), pp, [101, 103], 14);
  }

  /** The second batch: id 102, cost 16. */
  lemma Batch1Report(c: seq<Product>, load: seq<Order>)
    requires Locates(c, 3, 2, 3) && Locates(c, 4, 2, 6)
    requires BatchLines(load) == Lines1() && OrderIds(load) == [102]
    ensures Routable(c, load) && Report(c, load) == ([102], 16)
  {
    FixturePickPoints1(c);
    var pp := Aggregate(c, Lines1());
    FixtureRoute1(pp);
    ReportOf(c, load, Lines1(), pp, [102], 16);
  }

  /** The third batch: id 104, cost 16. */
  lemma Batch2Report(c: seq<Product>, load: seq<Order>)
    requires Locates(c, 6, 3, 5)
    requires BatchLines(load) == Lines2() && OrderIds(load) == [104]
    ensures Routable(c, load) && Report(c, load) == ([104], 16)
  {
    FixturePickPoints2(c);
    var pp := Aggregate(c, Lines2());
    FixtureRoute2(pp);
    ReportOf(c, load, Lines2(), pp, [104], 16);
  }

  /** The lines and ids of the fixture's three batches. */
  lemma FixtureLoads()
    ensures BatchLines(Members(Orders(), [0, 2])) == Lines0() && OrderIds(Members(Orders(), [0, 2])) == [101, 103]
    ensures BatchLines(Members(Orders(), [1])) == Lines1() && OrderIds(Members(Orders(), [1])) == [102]
    ensures BatchLines(Members(Orders(), [3])) == Lines2() && OrderIds(Members(Orders(), [3])) == [104]
  {
    var o := Orders();
    assert Members(o, [0, 2]) == [o[0], o[2]];
    assert Members(o, [1]) == [o[1]];
    assert Members(o, [3]) == [o[3]];
  }
}
