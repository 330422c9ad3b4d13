/** Nearest-neighbour routing (route_batch): from the depot at (0,0), visit
    the unvisited pick point closest in Manhattan distance, lowest index on
    ties, until all are visited, then return to the depot. */
module Routing {
  import opened Warehouse

  /** INT_MAX of a 32-bit int, the initial "best" distance of each scan. */
  const IntMax: int := 2147483647

  /** Coordinates small enough that every leg is shorter than IntMax, so
      each scan that has an unvisited point to look at picks one. */
  predicate WithinRange(pp: seq<PickPoint>) {
    forall k :: 0 <= k < |pp| ==> Abs(pp[k].aisle) + Abs(pp[k].shelf) <= IntMax / 2
  }

  /** Every entry is an index of one of n points. */
  predicate InBounds(route: seq<int>, n: nat) {
    forall k :: 0 <= k < |route| ==> 0 <= route[k] < n
  }

  /** No index is visited twice. */
  predicate Distinct(route: seq<int>) {
    forall a, b :: 0 <= a < b < |route| ==> route[a] != route[b]
  }

  /** The visited[] flags after the points of `route` have been visited. */
  function Flags(n: nat, route: seq<int>): (v: seq<bool>)
    ensures |v| == n && forall i :: 0 <= i < n ==> (v[i] <==> i in route)
  {
    seq(n, i => i in route)
  }

  /** (cx, cy) after walking `route` from the depot. */
  function Position(pp: seq<PickPoint>, route: seq<int>): (int, int)
    requires InBounds(route, |pp|)
  {
    if route == [] then (0, 0)
    else (pp[route[|route| - 1]].aisle, pp[route[|route| - 1]].shelf)
  }

  /** The distance from (cx, cy) to point i. */
  function Dist(pp: seq<PickPoint>, cx: int, cy: int, i: nat): int
    requires i < |pp|
  {
    Manhattan(cx, cy, pp[i].aisle, pp[i].shelf)
  }

  /** The inner scan of route_batch (warehouse.c:150-160) over points 0..k-1:
      (best_idx, best), where best_idx is the lowest-index unvisited point at
      minimum distance below IntMax, or -1 with best still IntMax. */
  function Scan(pp: seq<PickPoint>, visited: seq<bool>, cx: int, cy: int, k: nat): (r: (int, int))
    requires |visited| == |pp| && k <= |pp|
    ensures -1 <= r.0 < k
    ensures r.0 == -1 ==>
              r.1 == IntMax && forall j :: 0 <= j < k && !visited[j] ==> Dist(pp, cx, cy, j) >= IntMax
    ensures r.0 >= 0 ==> !visited[r.0] && r.1 == Dist(pp, cx, cy, r.0) && r.1 < IntMax
    ensures r.0 >= 0 ==> forall j :: 0 <= j < k && !visited[j] ==> Dist(pp, cx, cy, j) >= r.1
    ensures r.0 >= 0 ==> forall j :: 0 <= j < r.0 && !visited[j] ==> Dist(pp, cx, cy, j) > r.1
  {
    if k == 0 then (-1, IntMax)
    else
      var prev := Scan(pp, visited, cx, cy, k - 1);
      if visited[k - 1] then prev
      else if Dist(pp, cx, cy, k - 1) < prev.1 then (k - 1, Dist(pp, cx, cy, k - 1))
      else prev
  }

  /** The first s points route_batch visits. */
  function Walk(pp: seq<PickPoint>, s: nat): (route: seq<int>)
    requires WithinRange(pp) && s <= |pp|
    ensures |route| == s && InBounds(route, |pp|) && Distinct(route)
  {
    if s == 0 then []
    else
      var prev := Walk(pp, s - 1);
      var pos := Position(pp, prev);
      NextExists(pp, prev);
      prev + [Scan(pp, Flags(|pp|, prev), pos.0, pos.1, |pp|).0]
  }

  /** The legs from the depot along `route`. */
  function Legs(pp: seq<PickPoint>, route: seq<int>): (d: int)
    requires InBounds(route, |pp|)
    ensures d >= 0
  {
    if route == [] then 0
    else
      var prev := route[..|route| - 1];
      var pos := Position(pp, prev);
      Legs(pp, prev) + Dist(pp, pos.0, pos.1, route[|route| - 1])
  }

  /** The legs along `route` plus the leg back to the depot. */
  function RouteCost(pp: seq<PickPoint>, route: seq<int>): (c: int)
    requires InBounds(route, |pp|)
    ensures c >= 0
    ensures route == [] ==> c == 0
  {
    var pos := Position(pp, route);
    Legs(pp, route) + Manhattan(pos.0, pos.1, 0, 0)
  }

  /** route_batch: writes the visiting sequence into visits[0..n) and returns
      the cost of the round trip. */
  method RouteBatch(pp: seq<PickPoint>, visits: array<int>) returns (cost: int)
    requires WithinRange(pp) && |pp| <= visits.Length
    modifies visits
    ensures visits[..|pp|] == Walk(pp, |pp|)
    ensures visits[|pp|..] == old(visits[|pp|..])
    ensures cost == RouteCost(pp, Walk(pp, |pp|))
  {
    var n := |pp|;
    var visited := new bool[n](_ => false);
    var cx, cy := 0, 0;
    cost := 0;
    ghost var route: seq<int> := [];
    for s := 0 to n
      invariant route == Walk(pp, s)
      invariant visited[..] == Flags(n, route)
      invariant visits[..s] == route && visits[n..] == old(visits[n..])
      invariant (cx, cy) == Position(pp, route)
      invariant cost == Legs(pp, route)
    {
      var k, d := VisitNearest(pp, visited, visits, s, cx, cy, route);
      cost := cost + d;
      cx, cy := pp[k].aisle, pp[k].shelf;
      route := route + [k];
    }
    cost := cost + Manhattan(cx, cy, 0, 0);
  }

  /** One round of the outer loop (warehouse.c:150-167): scan for the nearest
      unvisited point, mark it visited and record it as step s. */
  method VisitNearest(pp: seq<PickPoint>, visited: array<bool>, visits: array<int>, s: nat,
                      cx: int, cy: int, ghost route: seq<int>)
    returns (k: int, d: int)
    requires WithinRange(pp) && visited.Length == |pp| && |pp| <= visits.Length
    requires s == |route| < |pp| && route == Walk(pp, s)
    requires visited[..] == Flags(|pp|, route) && (cx, cy) == Position(pp, route)
    requires visits[..s] == route
    modifies visited, visits
    ensures 0 <= k < |pp| && route + [k] == Walk(pp, s + 1)
    ensures visited[..] == Flags(|pp|, route + [k])
    ensures visits[..s + 1] == route + [k] && visits[s + 1..] == old(visits[s + 1..])
    ensures visits[|pp|..] == old(visits[|pp|..])
    ensures Legs(pp, route + [k]) == Legs(pp, route) + d
    ensures Position(pp, route + [k]) == (pp[k].aisle, pp[k].shelf)
  {
    k, d := Nearest(pp, visited, cx, cy);
    WalkNext(pp, route, k);
    FlagsNext(|pp|, route, k);
    LegsNext(pp, route, k);
    visited[k] := true;
    visits[s] := k;
    assert visits[..s + 1] == visits[..s] + [k];
  }

  /** The scan of warehouse.c:150-160: every unvisited point is compared with the
      best so far, and only a strictly shorter distance replaces it. */
  method Nearest(pp: seq<PickPoint>, visited: array<bool>, cx: int, cy: int) returns (bestIdx: int, best: int)
    requires visited.Length == |pp|
    ensures (bestIdx, best) == Scan(pp, visited[..], cx, cy, |pp|)
  {
    best := IntMax;
    bestIdx := -1;
    for i := 0 to |pp|
      invariant (bestIdx, best) == Scan(pp, visited[..], cx, cy, i)
    {
      if visited[i] {
        continue;
      }
      var d := Manhattan(cx, cy, pp[i].aisle, pp[i].shelf);
      if d < best {
        best := d;
        bestIdx := i;
      }
    }
  }

  /** route without its entry at position p. */
  function Without(route: seq<int>, p: nat): (r: seq<int>)
    requires p < |route|
    ensures |r| == |route| - 1
    ensures forall k :: 0 <= k < |r| ==> r[k] == if k < p then route[k] else route[k + 1]
  {
    route[..p] + route[p + 1..]
  }

  /** Removing an entry keeps the others distinct. */
  lemma WithoutDistinct(route: seq<int>, p: nat)
    requires p < |route| && Distinct(route)
    ensures Distinct(Without(route, p))
  {
    var rest := Without(route, p);
    forall a, b | 0 <= a < b < |rest| ensures rest[a] != rest[b] {
      var a' := if a < p then a else a + 1;
      var b' := if b < p then b else b + 1;
      assert rest[a] == route[a'] && rest[b] == route[b'];
    }
  }

  /** Pigeonhole: fewer distinct indices than points leave one unvisited. */
  lemma {:induction false} Unvisited(route: seq<int>, n: nat) returns (j: nat)
    requires InBounds(route, n) && Distinct(route) && |route| < n
    ensures j < n && j !in route
  {
    if n - 1 !in route {
      j := n - 1;
    } else {
      var p :| 0 <= p < |route| && route[p] == n - 1;
      var rest := Without(route, p);
      WithoutDistinct(route, p);
      assert InBounds(rest, n - 1);
      j := Unvisited(rest, n - 1);
      forall k | 0 <= k < |route| ensures route[k] != j {
        if k < p {
          assert rest[k] == route[k];
        } else if k > p {
          assert rest[k - 1] == route[k];
        }
      }
    }
  }

  /** At most n distinct indices lie below n. */
  lemma {:induction false} CardBound(route: seq<int>, n: nat)
    requires InBounds(route, n) && Distinct(route)
    ensures |route| <= n
  {
    assert |route| > 0 ==> route[0] < n;
    if n > 0 {
      if n - 1 in route {
        var p :| 0 <= p < |route| && route[p] == n - 1;
        var rest := Without(route, p);
        WithoutDistinct(route, p);
        assert InBounds(rest, n - 1);
        CardBound(rest, n - 1);
      } else {
        CardBound(route, n - 1);
      }
    }
  }

  /** n distinct indices below n visit every point. */
  lemma AllVisited(route: seq<int>, n: nat)
    requires InBounds(route, n) && Distinct(route) && |route| == n
    ensures forall j :: 0 <= j < n ==> j in route
  {
    forall j | 0 <= j < n ensures j in route {
      if j !in route {
        var squeezed := seq(|route|, k requires 0 <= k < |route| =>
                              if route[k] > j then route[k] - 1 else route[k]);
        CardBound(squeezed, n - 1);
      }
    }
  }

  /** While a point is unvisited, the scan from the current position picks an
      unvisited point. */
  lemma NextExists(pp: seq<PickPoint>, route: seq<int>)
    requires WithinRange(pp) && InBounds(route, |pp|) && Distinct(route) && |route| < |pp|
    ensures var pos := Position(pp, route);
            var k := Scan(pp, Flags(|pp|, route), pos.0, pos.1, |pp|).0;
            0 <= k < |pp| && k !in route
  {
    var pos := Position(pp, route);
    var j := Unvisited(route, |pp|);
    assert Dist(pp, pos.0, pos.1, j) < IntMax;
  }

  /** The next point of the walk is the scan's pick from the current position. */
  lemma WalkNext(pp: seq<PickPoint>, route: seq<int>, k: int)
    requires WithinRange(pp) && |route| < |pp| && route == Walk(pp, |route|)
    requires var pos := Position(pp, route);
             k == Scan(pp, Flags(|pp|, route), pos.0, pos.1, |pp|).0
    ensures 0 <= k < |pp| && k !in route
    ensures Walk(pp, |route| + 1) == route + [k]
  {
    NextExists(pp, route);
  }

  lemma FlagsNext(n: nat, route: seq<int>, k: int)
    requires 0 <= k < n
    ensures Flags(n, route + [k]) == Flags(n, route)[k := true]
  {
  }

  lemma LegsNext(pp: seq<PickPoint>, route: seq<int>, k: int)
    requires InBounds(route, |pp|) && 0 <= k < |pp|
    ensures InBounds(route + [k], |pp|)
    ensures var pos := Position(pp, route);
            Legs(pp, route + [k]) == Legs(pp, route) + Dist(pp, pos.0, pos.1, k)
  {
    assert (route + [k])[..|route|] == route;
  }

  lemma {:induction false} WalkPrefix(pp: seq<PickPoint>, s: nat, t: nat)
    requires WithinRange(pp) && s <= t <= |pp|
    ensures Walk(pp, t)[..s] == Walk(pp, s)
    decreases t
  {
    if s < t {
      WalkPrefix(pp, s, t - 1);
      WalkPrefixStep(pp, s, t);
    } else {
      TakeAll(Walk(pp, t));
    }
  }

  /** One more step keeps the prefix of length s. */
  lemma WalkPrefixStep(pp: seq<PickPoint>, s: nat, t: nat)
    requires WithinRange(pp) && s < t <= |pp| && Walk(pp, t - 1)[..s] == Walk(pp, s)
    ensures Walk(pp, t)[..s] == Walk(pp, s)
  {
    WalkSnoc(pp, t);
    TakeSnoc(Walk(pp, t - 1), Walk(pp, t)[t - 1], s);
  }

  lemma TakeAll(a: seq<int>)
    ensures a[..|a|] == a
  {
  }

  /** A walk of t steps is the walk of t - 1 steps and one more point. */
  lemma WalkSnoc(pp: seq<PickPoint>, t: nat)
    requires WithinRange(pp) && 0 < t <= |pp|
    ensures Walk(pp, t) == Walk(pp, t - 1) + [Walk(pp, t)[t - 1]]
  {
  }

  lemma TakeSnoc(a: seq<int>, x: int, s: nat)
    requires s <= |a|
    ensures (a + [x])[..s] == a[..s]
  {
  }

  /** The route visits every pick point exactly once: a permutation of 0..n-1. */
  lemma RoutePermutation(pp: seq<PickPoint>)
    requires WithinRange(pp)
    ensures var route := Walk(pp, |pp|);
            |route| == |pp| &&
            (forall k :: 0 <= k < |route| ==> 0 <= route[k] < |pp|) &&
            (forall a, b :: 0 <= a < b < |route| ==> route[a] != route[b]) &&
            (forall j :: 0 <= j < |pp| ==> j in route)
  {
    AllVisited(Walk(pp, |pp|), |pp|);
  }

  /** Step s of the route goes from the position reached after the first s
      points to an unvisited point at minimum distance, the lowest-index one
      among those at that distance. */
  lemma RouteNearest(pp: seq<PickPoint>, s: nat)
    requires WithinRange(pp) && s < |pp|
    ensures var route := Walk(pp, |pp|);
            var pos := Position(pp, route[..s]);
            var k := route[s];
            k !in route[..s] &&
            (forall j :: 0 <= j < |pp| && j !in route[..s] ==> Dist(pp, pos.0, pos.1, j) >= Dist(pp, pos.0, pos.1, k)) &&
            (forall j :: 0 <= j < k && j !in route[..s] ==> Dist(pp, pos.0, pos.1, j) > Dist(pp, pos.0, pos.1, k))
  {
    var route := Walk(pp, |pp|);
    WalkPrefix(pp, s, |pp|);
    WalkPrefix(pp, s + 1, |pp|);
    assert route[s] == route[..s + 1][s];
    var prev := Walk(pp, s);
    var pos := Position(pp, prev);
    var flags := Flags(|pp|, prev);
    NextExists(pp, prev);
    forall j | 0 <= j < |pp| && j !in prev
      ensures !flags[j]
    {
    }
  }

  /** Every point of the route sits at the depot. */
  predicate AllAtDepot(pp: seq<PickPoint>, route: seq<int>)
    requires InBounds(route, |pp|)
  {
    forall k :: 0 <= k < |route| ==> pp[route[k]].aisle == 0 && pp[route[k]].shelf == 0
  }

  /** A round trip extended by point k costs nothing exactly when the shorter
      one costs nothing and k sits at the depot. */
  lemma RouteCostSnoc(pp: seq<PickPoint>, prev: seq<int>, k: int, route: seq<int>)
    requires InBounds(prev, |pp|) && 0 <= k < |pp| && route == prev + [k]
    ensures InBounds(route, |pp|)
    ensures RouteCost(pp, route) == 0 <==>
            RouteCost(pp, prev) == 0 && pp[k].aisle == 0 && pp[k].shelf == 0
  {
    LegsNext(pp, prev, k);
  }

  /** AllAtDepot, stated point by point from the end of the route. */
  predicate DepotOnly(pp: seq<PickPoint>, route: seq<int>)
    requires InBounds(route, |pp|)
  {
    route == [] ||
    (DepotOnly(pp, route[..|route| - 1]) &&
     pp[route[|route| - 1]].aisle == 0 && pp[route[|route| - 1]].shelf == 0)
  }

  lemma {:induction false} DepotOnlyAll(pp: seq<PickPoint>, route: seq<int>)
    requires InBounds(route, |pp|)
    ensures DepotOnly(pp, route) <==> AllAtDepot(pp, route)
  {
    if route != [] {
      var prev := route[..|route| - 1];
      DepotOnlyAll(pp, prev);
      assert forall j :: 0 <= j < |prev| ==> route[j] == prev[j];
    }
  }

  lemma {:induction false} CostZeroDepotOnly(pp: seq<PickPoint>, route: seq<int>)
    requires InBounds(route, |pp|)
    ensures RouteCost(pp, route) == 0 <==> DepotOnly(pp, route)
  {
    if route != [] {
      var prev := route[..|route| - 1];
      var last := route[|route| - 1];
      assert route == prev + [last];
      assert RouteCost(pp, prev) == 0 <==> DepotOnly(pp, prev) by {
        CostZeroDepotOnly(pp, prev);
      }
      assert RouteCost(pp, route) == 0 <==>
             RouteCost(pp, prev) == 0 && pp[last].aisle == 0 && pp[last].shelf == 0 by {
        RouteCostSnoc(pp, prev, last, route);
      }
    }
  }

  /** The cost is zero exactly when every point of the route sits at the
      depot, and in particular when there are no points. */
  lemma RouteCostZero(pp: seq<PickPoint>, route: seq<int>)
    requires InBounds(route, |pp|)
    ensures RouteCost(pp, route) == 0 <==> AllAtDepot(pp, route)
  {
    CostZeroDepotOnly(pp, route);
    DepotOnlyAll(pp, route);
  }
}
