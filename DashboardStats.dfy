/** The seller dashboard's three figures: product count, order count and the
    sum of order totals. */
module DashboardStats {
  import opened Common

  /** An order as the dashboard reads it: only its total, which may be missing. */
  datatype Order = Order(totalPrice: Option<int>)

  /** `totalProducts` and `totalOrders`: `list ? list.length : 0`. */
  function Count<T>(list: Option<seq<T>>): (n: nat)
    ensures list.None? ==> n == 0
    ensures list.Some? ==> n == |list.value|
  {
    if list.Some? then |list.value| else 0
  }

  /** `order.totalPrice || 0`: a missing or zero total counts as 0. */
  function OrderAmount(o: Order): (a: int)
    ensures o.totalPrice.None? ==> a == 0
    ensures o.totalPrice.Some? ==> a == o.totalPrice.value
  {
    if o.totalPrice.Some? && o.totalPrice.value != 0 then o.totalPrice.value else 0
  }

  /** The `reduce` over the orders, accumulating from the left. */
  function SalesSum(orders: seq<Order>): int
  {
    if orders == [] then 0 else SalesSum(orders[..|orders| - 1]) + OrderAmount(orders[|orders| - 1])
  }

  /** `totalSales`. */
  function TotalSales(orders: Option<seq<Order>>): int
  {
    if orders.Some? then SalesSum(orders.value) else 0
  }

  /** The sum taken from the right (the reference definition). */
  function SumFromRight(orders: seq<Order>): int
  {
    if orders == [] then 0 else OrderAmount(orders[0]) + SumFromRight(orders[1..])
  }

  lemma {:induction false} SumFromRightAppend(a: seq<Order>, b: seq<Order>)
    ensures SumFromRight(a + b) == SumFromRight(a) + SumFromRight(b)
  {
    if a == [] {
      assert a + b == b;
    } else {
      assert (a + b)[1..] == a[1..] + b;
      SumFromRightAppend(a[1..], b);
    }
  }

  /** The left fold and the right sum agree, so the order of accumulation does not matter. */
  lemma {:induction false} SalesSumIsSum(orders: seq<Order>)
    ensures SalesSum(orders) == SumFromRight(orders)
  {
    if orders != [] {
      var init := orders[..|orders| - 1];
      SalesSumIsSum(init);
      assert orders == init + [orders[|orders| - 1]];
      SumFromRightAppend(init, [orders[|orders| - 1]]);
    }
  }

  /** Totals of two batches of orders add up. */
  lemma SalesSumAppend(a: seq<Order>, b: seq<Order>)
    ensures SalesSum(a + b) == SalesSum(a) + SalesSum(b)
  {
    SalesSumIsSum(a + b);
    SalesSumIsSum(a);
    SalesSumIsSum(b);
    SumFromRightAppend(a, b);
  }

  /** Absent or empty orders give no sales, and one more order adds exactly its
      (defaulted) total. */
  lemma TotalSalesSteps(orders: seq<Order>, o: Order)
    ensures TotalSales(None) == 0 && TotalSales(Some([])) == 0
    ensures TotalSales(Some(orders + [o])) == TotalSales(Some(orders)) + OrderAmount(o)
  {
    assert (orders + [o])[..|orders|] == orders;
  }

  /** With no negative totals the sales figure is never negative, and it is at
      least any single order's total. */
  lemma {:induction false} SalesBounds(orders: seq<Order>)
    requires forall i :: 0 <= i < |orders| ==> OrderAmount(orders[i]) >= 0
    ensures SalesSum(orders) >= 0
    ensures forall i :: 0 <= i < |orders| ==> SalesSum(orders) >= OrderAmount(orders[i])
  {
    if orders != [] {
      var init := orders[..|orders| - 1];
      SalesBounds(init);
      assert forall i :: 0 <= i < |init| ==> init[i] == orders[i];
    }
  }
}
