/** The data model of warehouse.c and its two leaf helpers: the Manhattan
    distance and the linear catalog search. The catalog is a read-only
    sequence of products; the Product* of the C code is an index into it. */
module Warehouse {

  datatype Option<T> = None | Some(value: T)

  /** A catalog entry. (aisle, shelf) is its grid location; the weight, a
      float in the C code, is an exact real here. */
  datatype Product = Product(id: int, name: string, aisle: int, shelf: int, weight: real)

  /** One line of an order. */
  datatype OrderItem = OrderItem(productId: int, qty: int)

  datatype Order = Order(id: int, items: seq<OrderItem>)

  /** One location to visit in a batch, with the quantity summed over the batch. */
  datatype PickPoint = PickPoint(productId: int, aisle: int, shelf: int, qty: int)

  function Abs(x: int): nat { if x < 0 then -x else x }

  /** |x1 - x2| + |y1 - y2|; the C code returns it as a float, here it is exact. */
  function Manhattan(x1: int, y1: int, x2: int, y2: int): (d: int)
    ensures d >= 0
    ensures d == 0 <==> x1 == x2 && y1 == y2
  {
    Abs(x1 - x2) + Abs(y1 - y2)
  }

  lemma ManhattanSymmetric(x1: int, y1: int, x2: int, y2: int)
    ensures Manhattan(x1, y1, x2, y2) == Manhattan(x2, y2, x1, y1)
  {
  }

  /** The index of the first catalog entry with id `pid`, if any. */
  function FirstMatch(catalog: seq<Product>, pid: int): (r: Option<nat>)
    ensures r.Some? ==> r.value < |catalog| && catalog[r.value].id == pid
    ensures r.Some? ==> forall j :: 0 <= j < r.value ==> catalog[j].id != pid
    ensures r.None? <==> forall j :: 0 <= j < |catalog| ==> catalog[j].id != pid
  {
    if |catalog| == 0 then None
    else if catalog[0].id == pid then Some(0)
    else match FirstMatch(catalog[1..], pid)
      case None => None
      case Some(i) => Some(i + 1)
  }

  /** find_product: scans the catalog from the front; None stands for NULL. */
  method FindProduct(catalog: seq<Product>, pid: int) returns (r: Option<nat>)
    ensures r == FirstMatch(catalog, pid)
  {
    var i := 0;
    while i < |catalog|
      invariant 0 <= i <= |catalog|
      invariant forall j :: 0 <= j < i ==> catalog[j].id != pid
    {
      if catalog[i].id == pid {
        return Some(i);
      }
      i := i + 1;
    }
    return None;
  }

  predicate Resolves(catalog: seq<Product>, pid: int) {
    FirstMatch(catalog, pid).Some?
  }

  /** The product find_product returns for `pid`. */
  function ProductFor(catalog: seq<Product>, pid: int): (p: Product)
    requires Resolves(catalog, pid)
    ensures p in catalog && p.id == pid
  {
    catalog[FirstMatch(catalog, pid).value]
  }

  /** Every line names a product of the catalog (the C code dereferences
      find_product's result without a NULL check). */
  predicate LinesResolve(catalog: seq<Product>, items: seq<OrderItem>) {
    forall k :: 0 <= k < |items| ==> Resolves(catalog, items[k].productId)
  }

  /** The unit weight of product `pid`. Every operation that uses it requires
      the product to resolve, so the 0.0 for an unknown id is never used. */
  function UnitWeight(catalog: seq<Product>, pid: int): real
  {
    if Resolves(catalog, pid) then ProductFor(catalog, pid).weight else 0.0
  }

  /** The weight of qty units of a product of unit weight w. */
  function LineWeight(w: real, qty: int): real
  {
    w * (qty as real)
  }

  /** Sum of weight * qty over the lines, accumulated front to back. */
  function ItemsWeight(catalog: seq<Product>, items: seq<OrderItem>): real
  {
    if items == [] then 0.0
    else
      var last := items[|items| - 1];
      ItemsWeight(catalog, items[..|items| - 1]) + LineWeight(UnitWeight(catalog, last.productId), last.qty)
  }

  /** Sum of qty over the lines, accumulated front to back. */
  function ItemsQty(items: seq<OrderItem>): int
  {
    if items == [] then 0 else ItemsQty(items[..|items| - 1]) + items[|items| - 1].qty
  }
}
