/** The customer dashboard: order status badges, the amount spent, the count
    of completed orders and the per-line totals. Amounts are in cents. */
module Dashboard {
  import opened Seqs

  datatype OrderItem = OrderItem(name: string, quantity: int, price: int)

  datatype Order = Order(id: string, date: string, status: string, total: int, items: seq<OrderItem>)

  /** `getStatusColor`: four known statuses and a grey default. */
  function StatusColor(status: string): (r: string)
    ensures status == "delivered" ==> r == "bg-green-100 text-green-800"
    ensures status == "shipped" ==> r == "bg-blue-100 text-blue-800"
    ensures status == "processing" ==> r == "bg-yellow-100 text-yellow-800"
    ensures status == "cancelled" ==> r == "bg-red-100 text-red-800"
    ensures status !in ["delivered", "shipped", "processing", "cancelled"] ==> r == "bg-gray-100 text-gray-800"
  {
    if status == "delivered" then "bg-green-100 text-green-800"
    else if status == "shipped" then "bg-blue-100 text-blue-800"
    else if status == "processing" then "bg-yellow-100 text-yellow-800"
    else if status == "cancelled" then "bg-red-100 text-red-800"
    else "bg-gray-100 text-gray-800"
  }

  /** `orders.reduce((sum, order) => sum + order.total, 0)`, folding from the left. */
  function TotalSpent(orders: seq<Order>): (r: int)
    ensures (forall i :: 0 <= i < |orders| ==> orders[i].total >= 0) ==> r >= 0
    ensures (forall i :: 0 <= i < |orders| ==> orders[i].total >= 0) ==>
              forall i :: 0 <= i < |orders| ==> orders[i].total <= r
    ensures orders == [] ==> r == 0
    ensures |orders| == 1 ==> r == orders[0].total
  {
    if orders == [] then 0
    else
      var prefix := orders[..|orders| - 1];
      assert forall i :: 0 <= i < |prefix| ==> prefix[i] == orders[i];
      TotalSpent(prefix) + orders[|orders| - 1].total
  }

  /** The amount spent over two runs of orders is the sum of both. */
  lemma {:induction false} TotalSpentAppend(a: seq<Order>, b: seq<Order>)
    ensures TotalSpent(a + b) == TotalSpent(a) + TotalSpent(b)
    decreases |b|
  {
    if b != [] {
      var c := b[..|b| - 1];
      assert (a + b)[..|a + b| - 1] == a + c;
      TotalSpentAppend(a, c);
    } else {
      assert a + b == a;
    }
  }

  /** The order totals summed from the first order on: the sum `reduce`
      computes, defined independently of its left-to-right fold. */
  function SumOfTotals(orders: seq<Order>): int
  {
    if orders == [] then 0 else orders[0].total + SumOfTotals(orders[1..])
  }

  /** `totalSpent` is the sum of the order totals. */
  lemma {:induction false} TotalSpentIsSum(orders: seq<Order>)
    ensures TotalSpent(orders) == SumOfTotals(orders)
  {
    if orders != [] {
      TotalSpentIsSum(orders[1..]);
      TotalSpentAppend([orders[0]], orders[1..]);
      assert [orders[0]] + orders[1..] == orders;
    }
  }

  predicate Delivered(o: Order) { o.status == "delivered" }

  /** The status of each order, in order. */
  function Statuses(orders: seq<Order>): seq<string>
  {
    seq(|orders|, (i: int) requires 0 <= i < |orders| => orders[i].status)
  }

  /** Filtering for delivered orders keeps one order per "delivered" status. */
  lemma {:induction false} DeliveredCount(orders: seq<Order>)
    ensures |Filter(orders, Delivered)| == multiset(Statuses(orders))["delivered"]
  {
    if orders != [] {
      DeliveredCount(orders[1..]);
      assert Statuses(orders) == [orders[0].status] + Statuses(orders[1..]);
    }
  }

  /** `orders.filter(order => order.status === 'delivered').length`. */
  function CompletedOrders(orders: seq<Order>): (r: nat)
    ensures r <= |orders|
    ensures r == 0 <==> forall i :: 0 <= i < |orders| ==> orders[i].status != "delivered"
    ensures r == |orders| <==> forall i :: 0 <= i < |orders| ==> orders[i].status == "delivered"
    ensures r == multiset(Statuses(orders))["delivered"]
  {
    var d := Filter(orders, Delivered);
    DeliveredCount(orders);
    assert |d| > 0 ==> d[0] in d;
    assert |d| == |orders| ==> forall i :: 0 <= i < |orders| ==> Delivered(orders[i]) by {
      if |d| == |orders| {
        FilterFull(orders, Delivered);
      }
    }
    assert (forall i :: 0 <= i < |orders| ==> Delivered(orders[i])) ==> |d| == |orders| by {
      if forall i :: 0 <= i < |orders| ==> Delivered(orders[i]) {
        FilterAll(orders, Delivered);
      }
    }
    |d|
  }

  /** `item.price * item.quantity`. */
  function LineTotal(item: OrderItem): (r: int)
    ensures item.price >= 0 && item.quantity >= 0 ==> r >= 0
    ensures item.quantity == 1 ==> r == item.price
  {
    item.price * item.quantity
  }

  /** The price of `n` units, one unit at a time. */
  function UnitsCost(price: int, n: nat): int
  {
    if n == 0 then 0 else price + UnitsCost(price, n - 1)
  }

  /** A line with no units costs nothing, and each further unit adds its price. */
  lemma LineTotalPerUnit(item: OrderItem, q: int)
    ensures LineTotal(item.(quantity := 0)) == 0
    ensures LineTotal(item.(quantity := q + 1)) == LineTotal(item.(quantity := q)) + item.price
  {
  }

  /** A line's total is the price counted once per unit ordered. */
  lemma {:induction false} LineTotalIsUnitsCost(item: OrderItem)
    requires item.quantity >= 0
    ensures LineTotal(item) == UnitsCost(item.price, item.quantity)
    decreases item.quantity
  {
    if item.quantity > 0 {
      var fewer := item.(quantity := item.quantity - 1);
      LineTotalIsUnitsCost(fewer);
      LineTotalPerUnit(item, item.quantity - 1);
      assert fewer.(quantity := item.quantity - 1 + 1) == item;
    }
  }

  /** The order list renders a Reorder button under an order exactly when
      its status is 'delivered'. */
  predicate OffersReorder(o: Order)
  {
    o.status == "delivered"
  }

  /** The number of Reorder buttons the order list renders, one order card
      at a time. */
  function ReorderButtons(orders: seq<Order>): nat
  {
    if orders == [] then 0
    else (if OffersReorder(orders[0]) then 1 else 0) + ReorderButtons(orders[1..])
  }

  /** The list shows exactly as many Reorder buttons as the Completed
      Orders statistic counts. */
  lemma {:induction false} ReorderOnCompletedOnly(orders: seq<Order>)
    ensures ReorderButtons(orders) == CompletedOrders(orders)
  {
    if orders != [] {
      ReorderOnCompletedOnly(orders[1..]);
      assert Statuses(orders) == [orders[0].status] + Statuses(orders[1..]);
    }
  }
}
