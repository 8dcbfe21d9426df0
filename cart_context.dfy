/** The cart mirror: the logged-in user's cart lines as the backend last
    confirmed them. Every change is written to local state only after the
    remote call it depends on succeeded, except `ClearCart`, which always empties. */
module CartContext {
  import opened Wrappers
  import opened Catalog
  import opened Seqs

  /** A cart line; `id` is assigned by the server, and `price` is the line's own price field. */
  datatype CartLine = CartLine(id: int, product: ProductRef, quantity: int, price: nat)

  /** The request an operation sends to the cart endpoints. */
  datatype Request =
    | NoRequest
    | GetCart
    | PostLine(productId: int, quantity: int)
    | PatchLine(lineId: int, quantity: int)
    | DeleteLine(lineId: int)
    | DeleteAll

  /** `item.product?.id === id || item.product === id`: the line is for that product,
      whichever of the two shapes the server sent. */
  predicate IsLineFor(line: CartLine, productId: int) {
    match line.product
    case Nested(p) => p.id == productId
    case ById(pid) => pid == productId
  }

  /** The lines for `productId`. */
  function LinesFor(items: seq<CartLine>, productId: int): seq<CartLine> {
    Filter(items, (l: CartLine) => IsLineFor(l, productId))
  }

  /** `prev.map(i => i.id === lineId ? { ...i, quantity } : i)`. */
  function WithQuantity(items: seq<CartLine>, lineId: int, quantity: int): seq<CartLine> {
    Map(items, (l: CartLine) => if l.id == lineId then l.(quantity := quantity) else l)
  }

  /** `prev.filter(i => i.id !== lineId)`. */
  function WithoutLine(items: seq<CartLine>, lineId: int): seq<CartLine> {
    Filter(items, (l: CartLine) => l.id != lineId)
  }

  /** The first line with server id `lineId`. */
  function FindLine(items: seq<CartLine>, lineId: int): Option<nat> {
    FindIndex(items, (l: CartLine) => l.id == lineId)
  }

  /** The first line for the product. */
  function FindProduct(items: seq<CartLine>, productId: int): Option<nat> {
    FindIndex(items, (l: CartLine) => IsLineFor(l, productId))
  }

  /** No cart line holds a quantity below 1. */
  ghost predicate PositiveQuantities(items: seq<CartLine>) {
    forall k | 0 <= k < |items| :: items[k].quantity >= 1
  }

  /** At most one line per product: the invariant "add never creates a duplicate line" keeps. */
  ghost predicate OneLinePerProduct(items: seq<CartLine>) {
    forall productId :: |LinesFor(items, productId)| <= 1
  }

  /** A line is for exactly one product. */
  lemma LineForOneProduct(line: CartLine, a: int, b: int)
    requires IsLineFor(line, a) && IsLineFor(line, b)
    ensures a == b
  {
  }

  /** Adding a product with no line: the server's line for it becomes its only line,
      and every other product keeps its lines. */
  lemma AppendNewLine(items: seq<CartLine>, productId: int, line: CartLine, other: int)
    requires FindProduct(items, productId).None? && IsLineFor(line, productId)
    ensures LinesFor(items + [line], productId) == [line]
    ensures other != productId ==> LinesFor(items + [line], other) == LinesFor(items, other)
  {
    var p := (l: CartLine) => IsLineFor(l, productId);
    FilterConcat(items, [line], p);
    FilterNone(items, p);
    var q := (l: CartLine) => IsLineFor(l, other);
    FilterConcat(items, [line], q);
    if other != productId {
      assert !IsLineFor(line, other);
      assert Filter([line], q) == [];
    }
  }

  /** Changing quantities keeps which product every line is for, so no product gains or loses a line. */
  lemma {:induction false} QuantityKeepsLines(items: seq<CartLine>, lineId: int, quantity: int, productId: int)
    ensures |LinesFor(WithQuantity(items, lineId, quantity), productId)| == |LinesFor(items, productId)|
  {
    if items != [] {
      QuantityKeepsLines(items[1..], lineId, quantity, productId);
      assert WithQuantity(items, lineId, quantity)[1..] == WithQuantity(items[1..], lineId, quantity);
    }
  }

  /** Both branches of `addToCart` keep one line per product, provided the server's new line
      is for the product that was added. */
  lemma AddKeepsOneLinePerProduct(items: seq<CartLine>, productId: int, line: CartLine)
    requires OneLinePerProduct(items) && IsLineFor(line, productId)
    ensures FindProduct(items, productId).None? ==> OneLinePerProduct(items + [line])
    ensures FindProduct(items, productId).Some? ==>
      var old_ := items[FindProduct(items, productId).value];
      OneLinePerProduct(WithQuantity(items, old_.id, old_.quantity + 1))
  {
    match FindProduct(items, productId)
    case None =>
      forall other
        ensures |LinesFor(items + [line], other)| <= 1
      {
        AppendNewLine(items, productId, line, other);
        assert |LinesFor(items, other)| <= 1;
      }
    case Some(k) =>
      var updated := WithQuantity(items, items[k].id, items[k].quantity + 1);
      forall other
        ensures |LinesFor(updated, other)| <= 1
      {
        QuantityKeepsLines(items, items[k].id, items[k].quantity + 1, other);
        assert |LinesFor(items, other)| <= 1;
      }
  }

  /** Incrementing changes only the targeted line(s): same length, same ids and products,
      and every line with another id is untouched. */
  lemma IncrementOnlyTarget(items: seq<CartLine>, lineId: int, quantity: int)
    ensures var r := WithQuantity(items, lineId, quantity);
      |r| == |items|
      && (forall k | 0 <= k < |r| :: r[k].id == items[k].id && r[k].product == items[k].product)
      && (forall k | 0 <= k < |r| && items[k].id != lineId :: r[k] == items[k])
      && (forall k | 0 <= k < |r| && items[k].id == lineId :: r[k] == items[k].(quantity := quantity))
  {
  }

  /** Removing drops exactly the lines with that id. */
  lemma {:induction false} RemoveDropsExactly(items: seq<CartLine>, lineId: int)
    ensures forall l | l in WithoutLine(items, lineId) :: l in items && l.id != lineId
    ensures forall l | l in items && l.id != lineId :: l in WithoutLine(items, lineId)
    ensures FindLine(WithoutLine(items, lineId), lineId).None?
    ensures FindLine(items, lineId).None? ==> WithoutLine(items, lineId) == items
  {
    if FindLine(items, lineId).None? {
      FilterAll(items, (l: CartLine) => l.id != lineId);
    }
  }

  class Cart {
    /** `cartItems`. */
    var items: seq<CartLine>

    constructor ()
      ensures items == []
    {
      items := [];
    }

    /** `fetchCart`: with no user the cart is emptied without a request; otherwise it
        becomes the server's list (`res.data || []`), or empty when the request fails.
        `events` counts the logout events dispatched (one on a 401). */
    method Fetch(loggedIn: bool, reply: Reply<Option<seq<CartLine>>>) returns (req: Request, events: nat)
      modifies this
      ensures !loggedIn ==> req == NoRequest && events == 0 && items == []
      ensures loggedIn ==> req == GetCart
      ensures loggedIn && reply.Ok? ==>
        events == 0 && items == (if reply.body.Some? then reply.body.value else [])
      ensures loggedIn && reply.Fail? ==> events == 0 && items == []
      ensures loggedIn && reply.Unauthorized? ==> events == 1 && items == []
    {
      events := 0;
      if !loggedIn {
        items := [];
        return NoRequest, 0;
      }
      req := GetCart;
      match reply
      case Ok(body) =>
        items := if body.Some? then body.value else [];
      case Fail =>
        items := [];
      case Unauthorized =>
        events := 1;
        HandleLogout();
    }

    /** `addToCart`. With no user nothing is requested or changed. A product with no
        line is POSTed with quantity 1 and the server's record is appended; a product
        with a line has that line's quantity PATCHed to one more. A failure changes
        nothing, except that a 401 dispatches the logout event, whose listener empties the cart. */
    method AddToCart(loggedIn: bool, product: Product, post: Reply<CartLine>, patch: Reply<()>)
      returns (req: Request, events: nat)
      modifies this
      ensures !loggedIn ==> req == NoRequest && events == 0 && items == old(items)
      ensures loggedIn && FindProduct(old(items), product.id).None? ==>
        && req == PostLine(product.id, 1)
        && events == (if post.Unauthorized? then 1 else 0)
        && items == (match post
                     case Ok(line) => old(items) + [line]
                     case Fail => old(items)
                     case Unauthorized => [])
      ensures loggedIn && FindProduct(old(items), product.id).Some? ==>
        var line := old(items)[FindProduct(old(items), product.id).value];
        && req == PatchLine(line.id, line.quantity + 1)
        && events == (if patch.Unauthorized? then 1 else 0)
        && items == (match patch
                     case Ok(_) => WithQuantity(old(items), line.id, line.quantity + 1)
                     case Fail => old(items)
                     case Unauthorized => [])
    {
      events := 0;
      if !loggedIn {
        return NoRequest, 0;
      }
      var existing := FindProduct(items, product.id);
      var outcome: Reply<()>;
      if existing.None? {
        req := PostLine(product.id, 1);
        match post
        case Ok(line) =>
          items := items + [line];
          outcome := Ok(());
        case Fail =>
          outcome := Fail;
        case Unauthorized =>
          outcome := Unauthorized;
      } else {
        var line := items[existing.value];
        var updatedQty := line.quantity + 1;
        req := PatchLine(line.id, updatedQty);
        outcome := patch;
        if patch.Ok? {
          items := WithQuantity(items, line.id, updatedQty);
        }
      }
      if outcome.Unauthorized? {
        events := 1;
        HandleLogout();
      }
    }

    /** `removeFromCart`: after a successful DELETE exactly the lines with that id are
        dropped; on any failure the cart is unchanged (a 401 is not treated specially here). */
    method RemoveFromCart(lineId: int, reply: Reply<()>) returns (req: Request)
      modifies this
      ensures req == DeleteLine(lineId)
      ensures items == if reply.Ok? then WithoutLine(old(items), lineId) else old(items)
    {
      req := DeleteLine(lineId);
      if reply.Ok? {
        items := WithoutLine(items, lineId);
      }
    }

    /** `updateQuantity`: a quantity below 1 is a removal, so a quantity below 1 is never
        PATCHed; otherwise the new quantity is PATCHed and, only on success, mirrored. */
    method UpdateQuantity(lineId: int, newQty: int, reply: Reply<()>) returns (req: Request)
      modifies this
      ensures newQty < 1 ==>
        req == DeleteLine(lineId)
        && items == if reply.Ok? then WithoutLine(old(items), lineId) else old(items)
      ensures newQty >= 1 ==>
        req == PatchLine(lineId, newQty)
        && items == if reply.Ok? then WithQuantity(old(items), lineId, newQty) else old(items)
      ensures req.PatchLine? ==> req.quantity >= 1
      ensures PositiveQuantities(old(items)) ==> PositiveQuantities(items)
    {
      if newQty < 1 {
        req := RemoveFromCart(lineId, reply);
        return;
      }
      req := PatchLine(lineId, newQty);
      if reply.Ok? {
        items := WithQuantity(items, lineId, newQty);
      }
    }

    /** `increaseQty`: an id with no line does nothing; otherwise the first line with that
        id gets one more. */
    method IncreaseQty(lineId: int, reply: Reply<()>) returns (req: Request)
      modifies this
      ensures FindLine(old(items), lineId).None? ==> req == NoRequest && items == old(items)
      ensures FindLine(old(items), lineId).Some? ==>
        var q := old(items)[FindLine(old(items), lineId).value].quantity + 1;
        req == (if q < 1 then DeleteLine(lineId) else PatchLine(lineId, q))
        && items == (if !reply.Ok? then old(items)
                     else if q < 1 then WithoutLine(old(items), lineId)
                     else WithQuantity(old(items), lineId, q))
    {
      var found := FindLine(items, lineId);
      if found.None? {
        return NoRequest;
      }
      req := UpdateQuantity(lineId, items[found.value].quantity + 1, reply);
    }

    /** `decreaseQty`: an id with no line does nothing; a line of quantity 1 is deleted,
        any other loses one. */
    method DecreaseQty(lineId: int, reply: Reply<()>) returns (req: Request)
      modifies this
      ensures FindLine(old(items), lineId).None? ==> req == NoRequest && items == old(items)
      ensures FindLine(old(items), lineId).Some? ==>
        var q := old(items)[FindLine(old(items), lineId).value].quantity - 1;
        req == (if q < 1 then DeleteLine(lineId) else PatchLine(lineId, q))
        && items == (if !reply.Ok? then old(items)
                     else if q < 1 then WithoutLine(old(items), lineId)
                     else WithQuantity(old(items), lineId, q))
    {
      var found := FindLine(items, lineId);
      if found.None? {
        return NoRequest;
      }
      req := UpdateQuantity(lineId, items[found.value].quantity - 1, reply);
    }

    /** `clearCart`: the bulk DELETE is attempted and the cart ends empty whatever it answers. */
    method ClearCart(reply: Reply<()>) returns (req: Request)
      modifies this
      ensures req == DeleteAll && items == []
    {
      req := DeleteAll;
      items := [];
    }

    /** The `userLogout` listener. */
    method HandleLogout()
      modifies this
      ensures items == []
    {
      items := [];
    }
  }
}
