/** The order-history page's fetch effect against the REST backend's `orders/`. */
module OrdersPage {
  import opened Wrappers
  import opened Sorting

  /** An order as the REST backend lists it; `createdAt` is `created_at` as a timestamp. */
  datatype HistoryOrder = HistoryOrder(id: int, createdAt: int, total: int, status: string)

  /** The response body: an array of orders, or anything else. */
  datatype Body = OrderArray(orders: seq<HistoryOrder>) | NotArray

  /** `[...data].sort((a, b) => new Date(b.created_at) - new Date(a.created_at))`. */
  function NewestFirst(orders: seq<HistoryOrder>): seq<HistoryOrder> {
    SortBy(orders, (o: HistoryOrder) => o.createdAt, Descending)
  }

  /** The history is newest first and holds exactly the orders the backend returned. */
  lemma NewestFirstCorrect(orders: seq<HistoryOrder>)
    ensures var r := NewestFirst(orders);
      && multiset(r) == multiset(orders)
      && forall i, j | 0 <= i < j < |r| :: r[i].createdAt >= r[j].createdAt
  {
    SortByCorrect(orders, (o: HistoryOrder) => o.createdAt, Descending);
  }

  class OrderHistory {
    var orders: seq<HistoryOrder>
    var loading: bool

    constructor ()
      ensures orders == [] && loading
    {
      orders, loading := [], true;
    }

    /** The effect. With no user: no request, an empty list, not loading. Otherwise the GET
        is sent; an array replaces the list, sorted newest first; a failure or a body that is
        not an array keeps the list as it was. Loading ends on every path. */
    method Load(loggedIn: bool, reply: Reply<Body>) returns (requested: bool)
      modifies this
      ensures !loading
      ensures requested == loggedIn
      ensures !loggedIn ==> orders == []
      ensures loggedIn && reply.Ok? && reply.body.OrderArray? ==> orders == NewestFirst(reply.body.orders)
      ensures loggedIn && !(reply.Ok? && reply.body.OrderArray?) ==> orders == old(orders)
    {
      if !loggedIn {
        orders := [];
        loading := false;
        return false;
      }
      requested := true;
      loading := true;
      if reply.Ok? && reply.body.OrderArray? {
        orders := NewestFirst(reply.body.orders);
      }
      loading := false;
    }
  }
}
