/** Checkout: the order total, the guard chain of `handlePlaceOrder`, the order record
    it posts to the JSON server's `/orders`, and clearing the cart after the POST. */
module Checkout {
  import opened Wrappers
  import opened Seqs
  import opened Accounts
  import opened CartContext

  const ProcessingStatus := "Processing"

  datatype Address = Address(
    fullName: string, phone: string, address1: string, address2: string,
    city: string, pincode: string, state: string)

  /** The order's `user` field. */
  datatype Contact = Contact(name: string, email: string, phone: string, address: Address)

  /** An order record. `date` is the order time as a timestamp. */
  datatype Order = Order(
    id: string, items: seq<CartLine>, total: int, date: int, status: string,
    userId: string, userEmail: string, user: Contact)

  function LineAmount(line: CartLine): int {
    line.price * line.quantity
  }

  /** `totalAmount`: the sum of price × quantity over the lines. */
  function TotalAmount(items: seq<CartLine>): int {
    Sum(Map(items, LineAmount))
  }

  /** The total of a list is the total of its parts. */
  lemma TotalAmountConcat(a: seq<CartLine>, b: seq<CartLine>)
    ensures TotalAmount(a + b) == TotalAmount(a) + TotalAmount(b)
  {
    assert Map(a + b, LineAmount) == Map(a, LineAmount) + Map(b, LineAmount);
    SumConcat(Map(a, LineAmount), Map(b, LineAmount));
  }

  /** A cart whose quantities are all positive never totals below zero. */
  lemma TotalAmountNonNegative(items: seq<CartLine>)
    requires PositiveQuantities(items)
    ensures TotalAmount(items) >= 0
  {
    SumNonNegative(Map(items, LineAmount));
  }

  /** The six required fields are filled in; `address2` is optional. */
  predicate AddressComplete(a: Address) {
    a.fullName != "" && a.phone != "" && a.address1 != "" && a.city != "" && a.pincode != "" && a.state != ""
  }

  /** Where the guard chain ends. */
  datatype Decision = NeedLogin | MissingAddress | EmptyCart | Submit(order: Order)

  /** `handlePlaceOrder`'s guards in their order (a logged-in user with an id, a complete
      address, a non-empty cart), then the order it builds from `id` and `date`. */
  function Decide(authUser: Option<User>, address: Address, items: seq<CartLine>, id: string, date: int): (d: Decision)
    ensures d == NeedLogin <==> authUser.None? || authUser.value.id == ""
    ensures d == MissingAddress <==> authUser.Some? && authUser.value.id != "" && !AddressComplete(address)
    ensures d == EmptyCart <==>
      authUser.Some? && authUser.value.id != "" && AddressComplete(address) && items == []
    ensures d.Submit? ==>
      && d.order.items == items
      && d.order.total == TotalAmount(items)
      && d.order.status == ProcessingStatus
      && d.order.userId == authUser.value.id
      && d.order.userEmail == authUser.value.email
      && d.order.user == Contact(address.fullName, authUser.value.email, address.phone, address)
      && d.order.id == id && d.order.date == date
  {
    if authUser.None? || authUser.value.id == "" then NeedLogin
    else if !AddressComplete(address) then MissingAddress
    else if |items| == 0 then EmptyCart
    else
      var u := authUser.value;
      Submit(Order(id, items, TotalAmount(items), date, ProcessingStatus, u.id, u.email,
                   Contact(address.fullName, u.email, address.phone, address)))
  }

  /** `handlePlaceOrder`. Only `Submit` sends the POST. Any response, whatever its HTTP
      status, clears the cart and opens the orders page; a rejected POST leaves the cart as it was. */
  method PlaceOrder(authUser: Option<User>, address: Address, cart: Cart, id: string, date: int,
                    post: FetchOutcome, clearReply: Reply<()>)
    returns (d: Decision, posted: Option<Order>, navigateTo: Option<string>)
    modifies cart
    ensures d == Decide(authUser, address, old(cart.items), id, date)
    ensures posted == (if d.Submit? then Some(d.order) else None)
    ensures d == NeedLogin ==> navigateTo == Some("/login")
    ensures d == NeedLogin || d == MissingAddress || d == EmptyCart || post.Rejected? ==>
      cart.items == old(cart.items)
    ensures d.Submit? && post.Rejected? ==> navigateTo.None?
    ensures d.Submit? && post.Resolved? ==> cart.items == [] && navigateTo == Some("/orders")
    ensures d == MissingAddress || d == EmptyCart ==> navigateTo.None?
  {
    d := Decide(authUser, address, cart.items, id, date);
    if !d.Submit? {
      posted := None;
      navigateTo := if d == NeedLogin then Some("/login") else None;
      return;
    }
    posted := Some(d.order);
    if post.Rejected? {
      navigateTo := None;
      return;
    }
    var _ := cart.ClearCart(clearReply);
    navigateTo := Some("/orders");
  }
}
