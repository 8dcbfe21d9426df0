/** How the stores are wired together: the `userLogout` window event, which each store
    dispatches on a 401 and the session store dispatches on logout, and which the cart
    and wishlist stores (but not the session store) listen to. */
module Storefront {
  import opened Wrappers
  import opened Catalog
  import opened CartContext
  import opened WishlistContext
  import opened AuthContext
  import opened Checkout
  import opened Seqs
  import opened Accounts
  import opened LoginPage
  import opened RouteGuards

  /** Delivers `events` dispatched `userLogout` events to both listeners. */
  method Broadcast(events: nat, cart: Cart, wishlist: Wishlist)
    modifies cart, wishlist
    ensures events > 0 ==> cart.items == [] && wishlist.entries == []
    ensures events == 0 ==> cart.items == old(cart.items) && wishlist.entries == old(wishlist.entries)
  {
    if events > 0 {
      cart.HandleLogout();
      wishlist.HandleLogout();
    }
  }

  /** The navbar's logout: the session forgets the user and both stores empty. */
  method SignOut(session: Session, cart: Cart, wishlist: Wishlist)
    requires cart != wishlist as object && session != cart as object && session != wishlist as object
    modifies session, cart, wishlist
    ensures session.authUser.None? && session.role.None?
    ensures session.storage == old(session.storage) - {AuthUserKey, RoleKey}
    ensures session.users == old(session.users)
    ensures cart.items == [] && wishlist.entries == []
  {
    var events := session.Logout();
    Broadcast(events, cart, wishlist);
  }

  /** Whether the one request `addToCart` sends for `product` comes back 401: the POST
      for a product without a line, the PATCH for one that has a line. */
  predicate AddRejected(items: seq<CartLine>, product: Product, post: Reply<CartLine>, patch: Reply<()>) {
    if FindProduct(items, product.id).None? then post.Unauthorized? else patch.Unauthorized?
  }

  /** Adding to the cart with the event routed to the wishlist. A 401 on the request
      actually sent empties both stores but leaves the session logged in: nothing
      clears `authUser` on that event. Any other outcome leaves the wishlist alone. */
  method AddToCartRouted(session: Session, cart: Cart, wishlist: Wishlist, product: Product,
                         post: Reply<CartLine>, patch: Reply<()>) returns (req: CartContext.Request)
    requires cart != wishlist as object
    modifies cart, wishlist
    ensures session.authUser == old(session.authUser)
    ensures old(session.authUser).Some? && AddRejected(old(cart.items), product, post, patch) ==>
      cart.items == [] && wishlist.entries == [] && session.authUser.Some?
    ensures !(old(session.authUser).Some? && AddRejected(old(cart.items), product, post, patch)) ==>
      wishlist.entries == old(wishlist.entries)
  {
    var events;
    req, events := cart.AddToCart(session.authUser.Some?, product, post, patch);
    if events > 0 {
      wishlist.HandleLogout();
    }
  }

  /** Submitting the login page, which is rendered inside `LoginRedirect`. The handler
      itself never navigates and a success shows the generic error, but the session it
      sets makes the wrapping redirect send the user to the role's landing page; a
      refusal leaves the redirect as it was. */
  method LoginThroughRedirect(form: LoginForm, auth: Session, reachable: bool)
    returns (f: Feedback, result: Option<LoginResult>, redirect: Option<string>)
    modifies form`loading, auth
    ensures f.navigateTo.None?
    ensures redirect == RouteGuards.LoginRedirect(auth.authUser)
    ensures result.Some? && result.value.LoggedIn? ==>
      f.toast == GenericError && redirect == Some(LandingPage(result.value.role))
    ensures result.Some? && result.value.Refused? ==>
      f.toast == DefaultFailure && redirect == RouteGuards.LoginRedirect(old(auth.authUser))
  {
    f, result := form.HandleLogin(auth, reachable);
    if result.Some? {
      LoginNeverNavigates(result.value);
    }
    redirect := RouteGuards.LoginRedirect(auth.authUser);
  }

  /** Adding the same product twice to an empty cart gives one line of quantity 2
      whose amount is twice the price (120 twice gives 240). */
  method AddSameProductTwice(p: Product, lineId: int) returns (lines: seq<CartLine>, total: int)
    ensures |lines| == 1 && lines[0].quantity == 2 && IsLineFor(lines[0], p.id)
    ensures total == TotalAmount(lines) == 2 * p.price
  {
    var cart := new Cart();
    var posted := CartLine(lineId, ById(p.id), 1, p.price);
    var _, _ := cart.AddToCart(true, p, Ok(posted), Ok(()));
    assert cart.items == [posted];
    var _, _ := cart.AddToCart(true, p, Ok(posted), Ok(()));
    assert FindProduct([posted], p.id) == Some(0);
    lines := cart.items;
    assert lines == [posted.(quantity := 2)];
    assert Map(lines, LineAmount) == [2 * p.price];
    assert LineAmount(lines[0]) == 2 * p.price;
    assert [2 * p.price][1..] == [];
    assert Sum([2 * p.price]) == 2 * p.price + Sum([]);
    total := TotalAmount(lines);
  }
}
