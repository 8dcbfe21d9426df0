/** The admin order table over the JSON server's `/orders`. */
module ManageOrders {
  import opened Wrappers
  import opened Seqs
  import opened Sorting
  import opened CartContext
  import opened Checkout

  const DefaultColor := "bg-gray-100 text-gray-800"

  /** `res.data.sort((a, b) => new Date(b.date) - new Date(a.date))`. */
  function NewestFirst(orders: seq<Order>): seq<Order> {
    SortBy(orders, (o: Order) => o.date, Descending)
  }

  lemma NewestFirstCorrect(orders: seq<Order>)
    ensures var r := NewestFirst(orders);
      && multiset(r) == multiset(orders)
      && forall i, j | 0 <= i < j < |r| :: r[i].date >= r[j].date
  {
    SortByCorrect(orders, (o: Order) => o.date, Descending);
  }

  /** `orders.map(o => o.id === id ? { ...o, status } : o)`. */
  function WithStatus(orders: seq<Order>, orderId: string, status: string): seq<Order> {
    Map(orders, (o: Order) => if o.id == orderId then o.(status := status) else o)
  }

  /** `orders.filter(o => o.id !== id)`. */
  function WithoutOrder(orders: seq<Order>, orderId: string): seq<Order> {
    Filter(orders, (o: Order) => o.id != orderId)
  }

  /** A status update touches only the status of the orders with that id. */
  lemma StatusUpdateOnlyTarget(orders: seq<Order>, orderId: string, status: string)
    ensures var r := WithStatus(orders, orderId, status);
      |r| == |orders|
      && (forall k | 0 <= k < |r| && orders[k].id != orderId :: r[k] == orders[k])
      && (forall k | 0 <= k < |r| && orders[k].id == orderId :: r[k] == orders[k].(status := status))
  {
  }

  /** A delete removes exactly the orders with that id, and nothing else. */
  lemma {:induction false} DeleteRemovesExactly(orders: seq<Order>, orderId: string)
    ensures forall o | o in WithoutOrder(orders, orderId) :: o in orders && o.id != orderId
    ensures forall o | o in orders && o.id != orderId :: o in WithoutOrder(orders, orderId)
    ensures (forall k | 0 <= k < |orders| :: orders[k].id != orderId) ==> WithoutOrder(orders, orderId) == orders
  {
    if forall k | 0 <= k < |orders| :: orders[k].id != orderId {
      FilterAll(orders, (o: Order) => o.id != orderId);
    }
  }

  /** `getStatusColor`. */
  function StatusColor(status: string): string {
    match status
    case "Delivered" => "bg-green-100 text-green-800"
    case "Processing" => "bg-blue-100 text-blue-800"
    case "Shipped" => "bg-purple-100 text-purple-800"
    case "Cancelled" => "bg-red-100 text-red-800"
    case _ => DefaultColor
  }

  /** The four known statuses get four distinct colours, none of them the default;
      every other status gets the default. */
  lemma StatusColorsDistinct(s: string, t: string)
    ensures var known := ["Delivered", "Processing", "Shipped", "Cancelled"];
      (s in known <==> StatusColor(s) != DefaultColor)
      && (s in known && t in known && s != t ==> StatusColor(s) != StatusColor(t))
  {
  }

  function LineQuantity(l: CartLine): int {
    l.quantity
  }

  /** "Total Items": the sum of the lines' quantities. */
  function TotalItems(o: Order): int {
    Sum(Map(o.items, LineQuantity))
  }

  /** Every line counts: with positive quantities an order has at least as many items as lines. */
  lemma {:induction false} TotalItemsAtLeastLines(o: Order)
    requires PositiveQuantities(o.items)
    ensures TotalItems(o) >= |o.items|
    decreases |o.items|
  {
    if o.items != [] {
      var rest := o.(items := o.items[1..]);
      assert Map(o.items, LineQuantity)[1..] == Map(rest.items, LineQuantity);
      assert forall k | 0 <= k < |rest.items| :: rest.items[k] == o.items[k + 1];
      TotalItemsAtLeastLines(rest);
    }
  }

  class OrdersAdmin {
    var orders: seq<Order>
    var loading: bool

    constructor ()
      ensures orders == [] && loading
    {
      orders, loading := [], true;
    }

    /** `fetchOrders`: the server's orders, newest first; a failure keeps the table. */
    method FetchOrders(reply: Reply<seq<Order>>)
      modifies this
      ensures !loading
      ensures orders == if reply.Ok? then NewestFirst(reply.body) else old(orders)
    {
      loading := true;
      if reply.Ok? {
        orders := NewestFirst(reply.body);
      }
      loading := false;
    }

    /** `updateOrderStatus`: only after a successful PATCH. */
    method UpdateOrderStatus(orderId: string, status: string, reply: Reply<()>)
      modifies this`orders
      ensures orders == if reply.Ok? then WithStatus(old(orders), orderId, status) else old(orders)
    {
      if reply.Ok? {
        orders := WithStatus(orders, orderId, status);
      }
    }

    /** `deleteOrder`: nothing unless confirmed; then only after a successful DELETE. */
    method DeleteOrder(orderId: string, confirmed: bool, reply: Reply<()>) returns (requested: bool)
      modifies this`orders
      ensures requested == confirmed
      ensures orders == if confirmed && reply.Ok? then WithoutOrder(old(orders), orderId) else old(orders)
    {
      if !confirmed {
        return false;
      }
      requested := true;
      if reply.Ok? {
        orders := WithoutOrder(orders, orderId);
      }
    }
  }
}
