/** The sales report: per-line revenue, cost and profit computed from the
    prices snapshotted into each order item, the joins with the orders and
    products sheets, and the totals built from them. */
module Reports {
  import opened Tables

  /** Revenue of one sold line: quantity times the snapshotted selling price. */
  function LineRevenue(it: OrderItem): int {
    it.qty * it.price
  }

  /** Cost of one sold line: quantity times the snapshotted cost price. */
  function LineCost(it: OrderItem): int {
    it.qty * it.costPrice
  }

  /** Gross profit of one sold line. */
  function LineProfit(it: OrderItem): int {
    LineRevenue(it) - LineCost(it)
  }

  function Revenue(items: seq<OrderItem>): int {
    if items == [] then 0 else Revenue(items[..|items| - 1]) + LineRevenue(items[|items| - 1])
  }

  function Cost(items: seq<OrderItem>): int {
    if items == [] then 0 else Cost(items[..|items| - 1]) + LineCost(items[|items| - 1])
  }

  function Profit(items: seq<OrderItem>): int {
    if items == [] then 0 else Profit(items[..|items| - 1]) + LineProfit(items[|items| - 1])
  }

  /** Revenue of the lines of order `oid`. */
  function OrderRevenue(items: seq<OrderItem>, oid: Id): int {
    if items == [] then 0
    else
      var last := items[|items| - 1];
      OrderRevenue(items[..|items| - 1], oid) + (if last.orderId == oid then LineRevenue(last) else 0)
  }

  /** Gross profit of the lines of order `oid`. */
  function OrderProfit(items: seq<OrderItem>, oid: Id): int {
    if items == [] then 0
    else
      var last := items[|items| - 1];
      OrderProfit(items[..|items| - 1], oid) + (if last.orderId == oid then LineProfit(last) else 0)
  }

  /** Revenue of the lines whose order is one of `ids`. */
  function RevenueWithin(items: seq<OrderItem>, ids: set<Id>): int {
    if items == [] then 0
    else
      var last := items[|items| - 1];
      RevenueWithin(items[..|items| - 1], ids) + (if last.orderId in ids then LineRevenue(last) else 0)
  }

  /** Revenue grouped by order and the group sums added up, one group per order row. */
  function GroupedRevenue(items: seq<OrderItem>, os: seq<Order>): int {
    if os == [] then 0 else OrderRevenue(items, os[0].id) + GroupedRevenue(items, os[1..])
  }

  /** The sum of the totals stored in the order headers. */
  function SumTotals(os: seq<Order>): int {
    if os == [] then 0 else os[0].total + SumTotals(os[1..])
  }

  /** The inner join of order items with orders (on order id) and with
      products (on product id): lines whose order or product row is missing
      drop out. */
  function Joined(t: Tables): seq<OrderItem> {
    JoinedFrom(t.orderItems, OrderIds(t.orders), t.products.Keys)
  }

  function JoinedFrom(items: seq<OrderItem>, orderIds: set<Id>, productIds: set<Id>): seq<OrderItem> {
    if items == [] then []
    else
      var rest := JoinedFrom(items[..|items| - 1], orderIds, productIds);
      var last := items[|items| - 1];
      if last.orderId in orderIds && last.productId in productIds then rest + [last] else rest
  }

  /** Total revenue of the report: the per-order sums over the joined lines, added up. */
  function TotalRevenue(t: Tables): int {
    GroupedRevenue(Joined(t), t.orders)
  }

  /** Total gross profit of the report: line profits over the joined lines. */
  function GrossProfit(t: Tables): int {
    Profit(Joined(t))
  }

  /** Each order header's total equals the revenue of its own lines. */
  ghost predicate TotalsMatch(t: Tables) {
    forall k :: 0 <= k < |t.orders| ==> t.orders[k].total == OrderRevenue(t.orderItems, t.orders[k].id)
  }

  /** Gross profit is revenue minus cost, line by line and so in total. */
  lemma {:induction false} ProfitIsRevenueMinusCost(items: seq<OrderItem>)
    ensures Profit(items) == Revenue(items) - Cost(items)
    decreases |items|
  {
    if items != [] {
      ProfitIsRevenueMinusCost(items[..|items| - 1]);
    }
  }

  /** A line sold at or above its cost with a non-negative quantity never loses money. */
  lemma LineProfitNonNegative(it: OrderItem)
    requires it.qty >= 0 && it.price >= it.costPrice
    ensures LineProfit(it) >= 0
  {
    assert LineProfit(it) == it.qty * (it.price - it.costPrice);
  }

  /** Neither does a set of such lines. */
  lemma {:induction false} ProfitNonNegative(items: seq<OrderItem>)
    requires forall it :: it in items ==> it.qty >= 0 && it.price >= it.costPrice
    ensures Profit(items) >= 0
    decreases |items|
  {
    if items != [] {
      var last := items[|items| - 1];
      assert last in items;
      LineProfitNonNegative(last);
      assert forall it :: it in items[..|items| - 1] ==> it in items;
      ProfitNonNegative(items[..|items| - 1]);
    }
  }

  /** The same holds order by order: the profit column of the order history
      is never negative for lines sold at or above cost. */
  lemma {:induction false} OrderProfitNonNegative(items: seq<OrderItem>, oid: Id)
    requires forall it :: it in items ==> it.qty >= 0 && it.price >= it.costPrice
    ensures OrderProfit(items, oid) >= 0
    decreases |items|
  {
    if items != [] {
      var last := items[|items| - 1];
      assert last in items;
      LineProfitNonNegative(last);
      assert forall it :: it in items[..|items| - 1] ==> it in items;
      OrderProfitNonNegative(items[..|items| - 1], oid);
    }
  }

  lemma {:induction false} OrderRevenueConcat(a: seq<OrderItem>, b: seq<OrderItem>, oid: Id)
    ensures OrderRevenue(a + b, oid) == OrderRevenue(a, oid) + OrderRevenue(b, oid)
    decreases |b|
  {
    if b == [] {
      assert a + b == a;
    } else {
      assert (a + b)[..|a + b| - 1] == a + b[..|b| - 1];
      OrderRevenueConcat(a, b[..|b| - 1], oid);
    }
  }

  /** Lines that all belong to order `oid` make up its whole revenue. */
  lemma {:induction false} OrderRevenueOfOwn(items: seq<OrderItem>, oid: Id)
    requires forall it :: it in items ==> it.orderId == oid
    ensures OrderRevenue(items, oid) == Revenue(items)
    decreases |items|
  {
    if items != [] {
      assert items[|items| - 1] in items;
      assert forall it :: it in items[..|items| - 1] ==> it in items;
      OrderRevenueOfOwn(items[..|items| - 1], oid);
    }
  }

  /** Lines of other orders add nothing to order `oid`. */
  lemma {:induction false} OrderRevenueOfOthers(items: seq<OrderItem>, oid: Id)
    requires forall it :: it in items ==> it.orderId != oid
    ensures OrderRevenue(items, oid) == 0
    decreases |items|
  {
    if items != [] {
      assert items[|items| - 1] in items;
      assert forall it :: it in items[..|items| - 1] ==> it in items;
      OrderRevenueOfOthers(items[..|items| - 1], oid);
    }
  }

  lemma {:induction false} RevenueWithinAdd(items: seq<OrderItem>, ids: set<Id>, x: Id)
    requires x !in ids
    ensures RevenueWithin(items, ids + {x}) == RevenueWithin(items, ids) + OrderRevenue(items, x)
    decreases |items|
  {
    if items != [] {
      RevenueWithinAdd(items[..|items| - 1], ids, x);
    }
  }

  lemma {:induction false} RevenueWithinNone(items: seq<OrderItem>)
    ensures RevenueWithin(items, {}) == 0
    decreases |items|
  {
    if items != [] {
      RevenueWithinNone(items[..|items| - 1]);
    }
  }

  lemma {:induction false} RevenueWithinAll(items: seq<OrderItem>, ids: set<Id>)
    requires forall it :: it in items ==> it.orderId in ids
    ensures RevenueWithin(items, ids) == Revenue(items)
    decreases |items|
  {
    if items != [] {
      assert items[|items| - 1] in items;
      assert forall it :: it in items[..|items| - 1] ==> it in items;
      RevenueWithinAll(items[..|items| - 1], ids);
    }
  }

  lemma {:induction false} GroupedIsWithin(items: seq<OrderItem>, os: seq<Order>)
    requires DistinctOrders(os)
    ensures GroupedRevenue(items, os) == RevenueWithin(items, OrderIds(os))
    decreases |os|
  {
    if os == [] {
      assert OrderIds(os) == {};
      RevenueWithinNone(items);
    } else {
      var rest := os[1..];
      assert OrderIds(os) == OrderIds(rest) + {os[0].id} by {
        assert os == [os[0]] + rest;
      }
      assert os[0].id !in OrderIds(rest) by {
        forall o | o in rest ensures o.id != os[0].id {
          var j :| 0 <= j < |rest| && rest[j] == o;
          assert os[j + 1] == o;
        }
      }
      GroupedIsWithin(items, rest);
      RevenueWithinAdd(items, OrderIds(rest), os[0].id);
    }
  }

  /** Grouping the lines by order and adding the group sums gives the plain
      sum of line revenue, when every line's order is one of the groups. */
  lemma GroupedRevenueIsTotal(items: seq<OrderItem>, os: seq<Order>)
    requires DistinctOrders(os)
    requires forall it :: it in items ==> it.orderId in OrderIds(os)
    ensures GroupedRevenue(items, os) == Revenue(items)
  {
    GroupedIsWithin(items, os);
    RevenueWithinAll(items, OrderIds(os));
  }

  /** When each header's total is the revenue of its lines, the headers add up
      to the grouped line revenue. */
  lemma {:induction false} SumTotalsIsGrouped(items: seq<OrderItem>, os: seq<Order>)
    requires forall k :: 0 <= k < |os| ==> os[k].total == OrderRevenue(items, os[k].id)
    ensures SumTotals(os) == GroupedRevenue(items, os)
    decreases |os|
  {
    if os != [] {
      SumTotalsIsGrouped(items, os[1..]);
    }
  }

  lemma {:induction false} JoinedFromKeepsAll(items: seq<OrderItem>, orderIds: set<Id>, productIds: set<Id>)
    requires forall it :: it in items ==> it.orderId in orderIds && it.productId in productIds
    ensures JoinedFrom(items, orderIds, productIds) == items
    decreases |items|
  {
    if items != [] {
      assert items[|items| - 1] in items;
      assert forall it :: it in items[..|items| - 1] ==> it in items;
      JoinedFromKeepsAll(items[..|items| - 1], orderIds, productIds);
      assert items[..|items| - 1] + [items[|items| - 1]] == items;
    }
  }

  /** With every order item referring to an existing order and product, the
      inner joins drop nothing. */
  lemma JoinedKeepsAll(t: Tables)
    requires WellFormed(t)
    ensures Joined(t) == t.orderItems
  {
    JoinedFromKeepsAll(t.orderItems, OrderIds(t.orders), t.products.Keys);
  }

  /** The report's total revenue is the sum of line revenue over all order items. */
  lemma TotalRevenueIsLineSum(t: Tables)
    requires WellFormed(t)
    ensures TotalRevenue(t) == Revenue(t.orderItems)
  {
    JoinedKeepsAll(t);
    GroupedRevenueIsTotal(t.orderItems, t.orders);
  }

  /** Two ways of computing sales agree: the report's total revenue equals the
      sum of the totals stored in the order headers. */
  lemma TotalRevenueIsOrderTotals(t: Tables)
    requires WellFormed(t) && TotalsMatch(t)
    ensures TotalRevenue(t) == SumTotals(t.orders)
  {
    JoinedKeepsAll(t);
    SumTotalsIsGrouped(t.orderItems, t.orders);
  }

  /** The order headers' totals add up to the revenue of all order items. */
  lemma OrderTotalsAreLineSum(t: Tables)
    requires WellFormed(t) && TotalsMatch(t)
    ensures SumTotals(t.orders) == Revenue(t.orderItems)
  {
    TotalRevenueIsOrderTotals(t);
    TotalRevenueIsLineSum(t);
  }

  /** The per-order revenue of the order history equals the order's stored total. */
  lemma OrderSummaryMatchesHeader(t: Tables, k: nat)
    requires WellFormed(t) && TotalsMatch(t) && k < |t.orders|
    ensures OrderRevenue(Joined(t), t.orders[k].id) == t.orders[k].total
  {
    JoinedKeepsAll(t);
  }

  /** The gross profit of the report is its revenue minus the snapshotted cost. */
  lemma GrossProfitIsRevenueMinusCost(t: Tables)
    requires WellFormed(t)
    ensures GrossProfit(t) == Revenue(t.orderItems) - Cost(t.orderItems)
  {
    JoinedKeepsAll(t);
    ProfitIsRevenueMinusCost(t.orderItems);
  }
}
