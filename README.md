# Warehouse order batching, pick-point aggregation and routing

This project models the three-stage pipeline of `warehouse.c` in Dafny:

1. **First-fit batching.** `batch_orders` walks the orders in input order.
   For each order it sums the weight (unit weight times quantity) and the
   item count. It adds the order to the lowest-index batch that stays
   within both `max_weight` and `max_items`. If no batch admits it, a new
   batch is opened (`create_batch`, then `add_to_batch`).
2. **Pick-point aggregation.** `build_pickpoints` merges the lines of a
   batch's orders into one pick point per distinct product, in first-seen
   order. Quantities are summed, and each point takes its aisle and shelf
   from the catalog (`find_product`).
3. **Nearest-neighbour routing.** `route_batch` starts at the depot (0,0).
   At each step it visits the unvisited pick point nearest in Manhattan
   distance (`manhattan`), taking the lowest index on a tie. At the end it
   adds the leg back to the depot.

Files and modules:

- `warehouse.dfy` (`Warehouse`): the records, `manhattan`, `find_product` and
  the per-order weight and quantity sums.
- `batching.dfy` (`Batching`):
  - the batch, a class whose fields `add_to_batch` updates in place;
  - the first-fit assignment as a specification function over input
    positions (`Assignment`);
  - `batch_orders` as a method proved to build exactly the batches
    `Assignment` describes.
- `picking.dfy` (`Picking`): `build_pickpoints` as a method proved equal to
  the aggregation function `Aggregate`, plus the properties of `Aggregate`.
- `routing.dfy` (`Routing`): `route_batch` as a method over arrays, proved
  equal to the walk function `Walk` and its cost `RouteCost`, plus the
  properties of the walk.
- `demo.dfy` (`Demo`): the body of `main`'s batch loop, and `main`'s
  fixture. On the fixture, orders 101 and 103 share a batch, and 102 and
  104 get one each. Their routes cost 14, 16 and 16.

Weights are exact reals and coordinates are unbounded integers. The
`Product*` that `find_product` returns is an index into the catalog
sequence.

In `warehouse.c` a route costs 0 exactly when every pick point of the batch
sits at the depot (0,0), which includes a batch with no pick points;
`Routing.RouteCostZero` states this. `batch_orders` does not check that
`max_weight` and `max_items` are positive, and neither does the model.

## Model

| member | source | states |
|---|---|---|
| Warehouse.Manhattan | warehouse.c:41-43 | The distance is non-negative, and zero exactly when the two points coincide. |
| Warehouse.ManhattanSymmetric | warehouse.c:41-43 | The distance is symmetric in its two points. |
| Warehouse.FirstMatch | warehouse.c:45-50 | The result is the first catalog index with the id. None is returned exactly when no entry has the id. |
| Warehouse.FindProduct | warehouse.c:45-50 | The front-to-back scan returns the first entry with the id, or None (NULL) when there is none. |
| Warehouse.ProductFor | warehouse.c:45-50 | A product that resolves is a catalog entry with the requested id. |
| Batching.OrderTotals | warehouse.c:79-86 | The loop's `ow` and `oi` are the order's weight sum and quantity sum. |
| Batching.Batch.constructor | warehouse.c:52-59 | create_batch gives a batch with no orders and zero totals. |
| Batching.Batch.AddOrder | warehouse.c:61-69 | add_to_batch appends the order, leaves the earlier orders unchanged, and grows both totals by the order's sums. It keeps "totals equal the sums over the batch's orders". |
| Batching.LoadAppend | warehouse.c:61-69 | The sums over a batch's orders grow by exactly the added order's sums. |
| Batching.FirstFitting | warehouse.c:88-96 | The scan stops at the first batch where both bounds hold. It returns the batch count when no batch admits the order, and every batch it skipped fails a bound. |
| Batching.FirstRoom | warehouse.c:88-96 | The `placed`/`break` scan over live batches stops where the first-fit specification does. |
| Batching.JoinBatch | warehouse.c:89-95 | Adding the order to an existing batch keeps the batches in step with the specification's next assignment. |
| Batching.OpenBatch | warehouse.c:98-102 | A new batch holding just this order is appended. The earlier batches are kept, and the new one is a fresh object. |
| Batching.Deliver | warehouse.c:88-102 | The order is placed where the scan stopped. The batches match the next assignment, no batch object repeats, and every batch is old or fresh. |
| Batching.AdmitOrder | warehouse.c:79-102 | One iteration of the outer loop turns batches matching the first i orders' assignment into batches matching the first i+1 orders'. |
| Batching.AdmitAll | warehouse.c:77-103 | After the loop, the batches match the assignment of all orders. |
| Batching.BatchOrders | warehouse.c:71-106 | batch_orders returns fresh, distinct batches. Each holds its orders in input order with totals equal to the sums over them, and together they match the first-fit assignment. |
| Batching.Assignment | warehouse.c:71-106 | Every position in the first-fit assignment of n orders is below n. |
| Batching.AssignmentNext | warehouse.c:88-102 | Placing order i at the first batch it fits (or a new one) is the next step of the assignment. |
| Batching.AssignmentStep | warehouse.c:88-102 | First-fit rule: order i joins the end of the lowest-index batch it fits. The other batches are unchanged. A new batch [i] is opened exactly when it fits none. |
| Batching.PlacePartition | warehouse.c:88-102 | Placing position n into a partition of 0..n-1 gives a partition of 0..n. |
| Batching.AssignmentPartition | warehouse.c:77-103 | Every order lands in exactly one batch. No batch is empty, and within a batch orders keep input order. |
| Batching.TotalOrdersPlace | warehouse.c:88-102 | Placing an order adds exactly one order across all batches, and at most one batch. |
| Batching.AssignmentCount | warehouse.c:74-103 | The batches hold n orders in total, and there are at most n batches. |
| Batching.GrowTotals | warehouse.c:61-69 | Appending an order to a batch whose totals match its sums keeps them matching. |
| Batching.PlaceTotals | warehouse.c:88-102 | Placing an order keeps every batch's totals equal to the sums over its orders. |
| Batching.AssignmentTotals | warehouse.c:71-106 | Every batch's running totals equal the weight and item sums over its orders. |
| Batching.AssignmentRespectsCapacity | warehouse.c:88-102 | Every batch is within both bounds, or holds a single order. |
| Batching.AssignmentCapacity | warehouse.c:88-102 | Every batch's orders weigh at most max_weight and hold at most max_items, unless the batch holds one order alone. |
| Batching.MirrorsValid | warehouse.c:61-69 | Batches that match the assignment all keep totals equal to the sums over their orders. |
| Picking.FindPoint | warehouse.c:120-124 | The scan yields the last point with the product, or -1 exactly when no point has it. |
| Picking.LastPoint | warehouse.c:120-124 | The loop in which a later match overwrites `found` computes FindPoint. |
| Picking.MergeLine | warehouse.c:117-137 | One line either appends a new point at the catalog location or adds its quantity to the point found. |
| Picking.BuildPickPoints | warehouse.c:109-141 | build_pickpoints returns the aggregation of the batch's lines, order after order and line after line. |
| Picking.AggregateNext | warehouse.c:116-137 | Merging line j of an order continues the aggregation of the lines seen so far. |
| Picking.AggregateSnoc | warehouse.c:116-137 | Aggregating one more line is merging it into the points so far. |
| Picking.BatchLinesAppend | warehouse.c:113-116 | The lines of a concatenation of orders are the concatenation of their lines. |
| Picking.BatchLinesResolve | warehouse.c:113-126 | If every order's lines resolve in the catalog, so do the batch's lines. |
| Picking.AddLineSummarizes | warehouse.c:126-136 | Merging a line keeps the points a summary of the lines: distinct products, the same product set, summed quantities, catalog locations, first-seen order. |
| Picking.AggregateSummarizes | warehouse.c:113-138 | The pick points summarize the batch's lines in all five respects above. |
| Picking.AggregateIds | warehouse.c:113-138 | The set of products of the points equals the set of products of the lines. |
| Picking.PickPointsDistinct | warehouse.c:120-136 | No two pick points share a product. |
| Picking.PickPointsCoverProducts | warehouse.c:113-138 | A product has a pick point exactly when some line of the batch names it. |
| Picking.PickPointsFirstSeen | warehouse.c:128-133 | Points appear in first-seen order: of two points, the earlier point's product first occurs in the lines before the later one's. |
| Picking.PickPointsQuantities | warehouse.c:132-135 | Each point's quantity is the sum of the quantities of its product's lines. |
| Picking.PickPointsLocations | warehouse.c:126-131 | Each point's aisle and shelf are those of its catalog product. |
| Picking.PickPointsConserveQty | warehouse.c:113-138 | The quantities of the points add up to the quantities of the lines. |
| Picking.AddLineQty | warehouse.c:128-136 | Merging a line raises the total point quantity by the line's quantity. |
| Picking.BatchLinesQty | warehouse.c:64-68 | The batch's lines carry exactly the batch's item count. |
| Picking.PickPointsCarryBatchItems | warehouse.c:109-141 | The points' quantities add up to the batch's `total_items`. |
| Routing.Scan | warehouse.c:150-160 | The scan picks an unvisited point at minimum distance, the lowest index among ties. It picks -1, with best still INT_MAX, only when nothing unvisited is closer than INT_MAX. |
| Routing.Nearest | warehouse.c:150-160 | The loop with `continue` and the strict `<` computes Scan. |
| Routing.VisitNearest | warehouse.c:149-168 | One outer round marks the picked point visited, records it at step s and leaves the later slots of the sequence unchanged, moves there, and adds its distance to the cost. |
| Routing.RouteBatch | warehouse.c:144-172 | The sequence written is the nearest-neighbour walk, and slots past n are untouched. The cost is the legs along the walk plus the leg back to the depot. |
| Routing.Walk | warehouse.c:149-168 | The first s steps visit s distinct in-range points. |
| Routing.WalkNext | warehouse.c:149-168 | While a point is unvisited, the next step is the scan's pick, an unvisited point. |
| Routing.NextExists | warehouse.c:150-162 | Under the coordinate bound, the scan never returns -1 while a point is unvisited. |
| Routing.Unvisited | warehouse.c:149-162 | Fewer distinct indices than points leave some point unvisited. |
| Routing.CardBound | warehouse.c:149-162 | At most n distinct indices lie below n. |
| Routing.AllVisited | warehouse.c:149-168 | n distinct indices below n include every point. |
| Routing.WalkPrefix | warehouse.c:149-168 | The first s steps of a longer walk are the walk of s steps. |
| Routing.RoutePermutation | warehouse.c:149-168 | The route is a permutation of 0..n-1: every entry is in range, none repeats and every point is visited. |
| Routing.RouteNearest | warehouse.c:149-168 | Step s picks an unvisited point at minimum distance from the position after s steps, the lowest index among ties. |
| Routing.Legs | warehouse.c:147-165 | The legs add up to a non-negative distance. |
| Routing.RouteCost | warehouse.c:147-170 | The cost is non-negative, and zero for an empty route. |
| Routing.RouteCostSnoc | warehouse.c:165-170 | A longer route costs nothing exactly when the shorter one costs nothing and the new point is at the depot. |
| Routing.DepotOnlyAll | warehouse.c:165-170 | The recursive and the quantified "all at the depot" agree. |
| Routing.CostZeroDepotOnly | warehouse.c:165-170 | The cost is zero exactly when every point on the route is at the depot. |
| Routing.RouteCostZero | warehouse.c:170 | The cost is zero exactly when every visited point is at the depot, and so it is zero when there are no points. |
| Demo.RouteInto100 | warehouse.c:228-229 | Routing into main's 100-slot buffer returns the nearest-neighbour cost. |
| Demo.PickAndRoute | warehouse.c:217-241 | One round of main's batch loop yields the batch's order ids and the cost of routing its pick points. |
| Demo.FixtureResolves | warehouse.c:176-203 | Every line of main's orders names a catalog product. |
| Demo.Totals101 | warehouse.c:176-191 | Order 101 weighs 2.0 and holds 3 items. |
| Demo.Totals102 | warehouse.c:176-195 | Order 102 weighs 4.5 and holds 2 items. |
| Demo.Totals103 | warehouse.c:176-199 | Order 103 weighs 2.6 and holds 5 items. |
| Demo.Totals104 | warehouse.c:176-203 | Order 104 weighs 5.0 and holds 1 item. |
| Demo.FixtureAssignment | warehouse.c:207-209 | With max weight 6.0 and 8 items, first-fit gives {101,103} (4.6, 8), {102} (4.5, 2) and {104} (5.0, 1). |
| Demo.FixtureLoads | warehouse.c:187-203 | The three batches' lines and order ids are as listed. |
| Demo.FixturePickPoints0 | warehouse.c:226 | Batch {101,103} has points Soap (1,1) ×2, Shampoo (1,4) ×3 and Toothpaste (3,1) ×3. |
| Demo.FixturePickPoints1 | warehouse.c:226 | Batch {102} has points Oil (2,3) and Detergent (2,6). |
| Demo.FixturePickPoints2 | warehouse.c:226 | Batch {104} has one point, Flour at (3,5). |
| Demo.FixtureRoute0 | warehouse.c:229 | Batch {101,103} is routed Soap, Toothpaste, Shampoo, at cost 14. |
| Demo.FixtureRoute1 | warehouse.c:229 | Batch {102} is routed Oil, Detergent, at cost 16. |
| Demo.FixtureRoute2 | warehouse.c:229 | The single point at (3,5) has route [0] and cost 16. |
| Demo.Batch0Report | warehouse.c:217-241 | A batch with the lines of {101,103} reports ids [101, 103] and cost 14. |
| Demo.Batch1Report | warehouse.c:217-241 | A batch with the lines of {102} reports ids [102] and cost 16. |
| Demo.Batch2Report | warehouse.c:217-241 | A batch with the lines of {104} reports ids [104] and cost 16. |

## Left out

- Float arithmetic. Weights, weight sums and the capacity comparisons are exact reals, and distances and costs are exact integers, so float rounding is not modelled. In particular the routing scan compares a float distance against `(float)INT_MAX`, which is 2^31. A leg within 64 of 2^31 rounds up to it, so `d < best` fails and `best_idx` stays -1. `WithinRange` admits such legs; the model, working in exact integers, picks the point there.
- The `INT_MAX` sentinel of the routing scan is kept as an integer. `WithinRange` bounds the coordinates so that every leg is shorter than it; the C code does not check this.
- Integer overflow of `x1 - x2`, of quantity sums and of the item totals is not modelled; integers are unbounded.
- The fixed buffers are replaced by sized sequences: 20 order slots per batch, 100 pick points, the `batches` array of `order_count` slots. Overflowing them is undefined behaviour in C. `visited[100]` becomes an array of the pick-point count. Main's `seq[100]` is kept as a 100-slot array, with at most 100 points required.
- `malloc` and `free` are not modelled. Memory exhaustion and leaks are out of scope, and a new batch is a fresh object.
- A product id missing from the catalog makes the C code dereference NULL. The model requires every line to resolve (`LinesResolve`, `OrdersResolve`) instead.
- Picking.BuildPickPoints: the pick-point buffer that the C code updates in place is a sequence value that each merged line replaces. Aliasing of that buffer is not captured.
- Batching.BatchOrders: the result is a sequence of batch objects, not a heap array with a count out-parameter.
- The loop bodies of `batch_orders`, `build_pickpoints` and `route_batch` are separate helper methods. Examples are Batching.AdmitOrder, Picking.MergeLine and Routing.VisitNearest.
- `visited` holds booleans instead of `int` flags.
- `main`'s `printf` output is not modelled; it is I/O. So are the product names in the pick sequence and the final total distance.
- The fixture is proved batch by batch: Demo.FixtureAssignment, Demo.FixtureLoads, and Demo.Batch0Report to Demo.Batch2Report. No single lemma evaluates the report of the whole run on the literal fixture, because that is too costly for the verifier.
