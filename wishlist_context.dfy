/** The wishlist mirror. Toggling updates local state optimistically, before the
    remote call, and re-fetches the whole list when that call fails; an explicit
    removal updates local state only after the server confirmed it. */
module WishlistContext {
  import opened Wrappers
  import opened Catalog
  import opened Seqs

  /** An entry in one of the shapes the list can hold: `product` as the product's id
      or as the nested product (or missing), and `product_details` as the product. */
  datatype Entry = Entry(product: Option<ProductRef>, details: Option<Product>)

  datatype Request = GetWishlist | PostEntry(productId: int) | DeleteEntry(productId: int)

  /** `item.product?.id === id || item.product_details?.id === id || item.product === id`. */
  predicate Matches(e: Entry, productId: int) {
    || (e.product.Some? && e.product.value.Nested? && e.product.value.product.id == productId)
    || (e.details.Some? && e.details.value.id == productId)
    || (e.product.Some? && e.product.value.ById? && e.product.value.productId == productId)
  }

  /** Membership: some entry matches the product (`wishlist.find(...)` is defined). */
  predicate InWishlist(entries: seq<Entry>, productId: int) {
    FindIndex(entries, (e: Entry) => Matches(e, productId)).Some?
  }

  /** The entry the optimistic add appends: `{ product: product.id, product_details: product }`. */
  function Optimistic(p: Product): Entry {
    Entry(Some(ById(p.id)), Some(p))
  }

  /** The optimistic removal: keep the entries that do not match. */
  function WithoutProduct(entries: seq<Entry>, productId: int): seq<Entry> {
    Filter(entries, (e: Entry) => !Matches(e, productId))
  }

  /** The local list right after the optimistic step of a toggle. */
  function Toggled(entries: seq<Entry>, p: Product): seq<Entry> {
    if InWishlist(entries, p.id) then WithoutProduct(entries, p.id)
    else entries + [Optimistic(p)]
  }

  /** The list a GET leaves: `res.data || []`, or `[]` when the GET fails. */
  function Fetched(reply: Reply<Option<seq<Entry>>>): seq<Entry> {
    match reply
    case Ok(Some(list)) => list
    case Ok(None) => []
    case Fail => []
    case Unauthorized => []
  }

  /** The optimistic entry matches its product. */
  lemma OptimisticMatches(p: Product)
    ensures Matches(Optimistic(p), p.id)
  {
  }

  /** Toggling an absent product appends exactly one entry and makes it a member. */
  lemma ToggleAbsentAdds(entries: seq<Entry>, p: Product)
    requires !InWishlist(entries, p.id)
    ensures Toggled(entries, p) == entries + [Optimistic(p)]
    ensures InWishlist(Toggled(entries, p), p.id)
  {
    var r := Toggled(entries, p);
    assert Matches(r[|entries|], p.id);
  }

  /** Toggling a present product removes every matching entry, keeps every other one,
      and makes it a non-member. */
  lemma TogglePresentRemoves(entries: seq<Entry>, p: Product)
    requires InWishlist(entries, p.id)
    ensures Toggled(entries, p) == WithoutProduct(entries, p.id)
    ensures !InWishlist(Toggled(entries, p), p.id)
    ensures forall e | e in entries && !Matches(e, p.id) :: e in Toggled(entries, p)
  {
  }

  /** Toggling twice (with both calls succeeding) restores the product's membership;
      from an absent product it restores the list itself. */
  lemma ToggleTwice(entries: seq<Entry>, p: Product)
    ensures InWishlist(Toggled(Toggled(entries, p), p), p.id) == InWishlist(entries, p.id)
    ensures !InWishlist(entries, p.id) ==> Toggled(Toggled(entries, p), p) == entries
  {
    var pred := (e: Entry) => !Matches(e, p.id);
    if InWishlist(entries, p.id) {
      TogglePresentRemoves(entries, p);
      ToggleAbsentAdds(Toggled(entries, p), p);
    } else {
      ToggleAbsentAdds(entries, p);
      TogglePresentRemoves(entries + [Optimistic(p)], p);
      FilterConcat(entries, [Optimistic(p)], pred);
      FilterAll(entries, pred);
    }
  }

  /** Toggling never touches any other product's membership as long as no entry
      holds both products. */
  lemma ToggleKeepsOthers(entries: seq<Entry>, p: Product, other: int)
    requires other != p.id
    requires forall k | 0 <= k < |entries| :: !(Matches(entries[k], p.id) && Matches(entries[k], other))
    ensures InWishlist(Toggled(entries, p), other) == InWishlist(entries, other)
  {
    var t := Toggled(entries, p);
    if InWishlist(entries, other) {
      var k := FindIndex(entries, (e: Entry) => Matches(e, other)).value;
      assert entries[k] in t;
      var j :| 0 <= j < |t| && t[j] == entries[k];
      assert Matches(t[j], other);
    }
    if InWishlist(t, other) {
      var j := FindIndex(t, (e: Entry) => Matches(e, other)).value;
      assert t[j] in t;
      if !InWishlist(entries, p.id) && j == |entries| {
        assert false;
      }
      assert t[j] in entries;
      var k :| 0 <= k < |entries| && entries[k] == t[j];
      assert Matches(entries[k], other);
    }
  }

  class Wishlist {
    /** `wishlist`. */
    var entries: seq<Entry>

    constructor ()
      ensures entries == []
    {
      entries := [];
    }

    /** `fetchWishlist`: with no user the list is emptied without a request; otherwise it
        becomes the server's list, or empty on failure, and a 401 dispatches the logout event. */
    method Fetch(loggedIn: bool, reply: Reply<Option<seq<Entry>>>) returns (reqs: seq<Request>, events: nat)
      modifies this
      ensures !loggedIn ==> reqs == [] && events == 0 && entries == []
      ensures loggedIn ==>
        reqs == [GetWishlist] && entries == Fetched(reply)
        && events == (if reply.Unauthorized? then 1 else 0)
    {
      if !loggedIn {
        entries := [];
        return [], 0;
      }
      reqs, events := [GetWishlist], 0;
      if reply.Unauthorized? {
        events := 1;
        HandleLogout();
      }
      entries := Fetched(reply);
    }

    /** `addToWishlist`, the toggle. With no user nothing happens. Otherwise the optimistic
        step is applied and the POST (absent product) or DELETE (present product) is sent;
        if it fails the logout event is dispatched on a 401 and the list is re-fetched,
        so it ends as the server's list, or empty if that GET fails too. */
    method Toggle(loggedIn: bool, product: Product, reply: Reply<()>, refetch: Reply<Option<seq<Entry>>>)
      returns (reqs: seq<Request>, events: nat)
      modifies this
      ensures !loggedIn ==> reqs == [] && events == 0 && entries == old(entries)
      ensures loggedIn ==>
        var first := if InWishlist(old(entries), product.id) then DeleteEntry(product.id)
                     else PostEntry(product.id);
        if reply.Ok? then
          reqs == [first] && events == 0 && entries == Toggled(old(entries), product)
        else
          reqs == [first, GetWishlist] && entries == Fetched(refetch)
          && events == (if reply.Unauthorized? then 1 else 0) + (if refetch.Unauthorized? then 1 else 0)
    {
      if !loggedIn {
        return [], 0;
      }
      var first := if InWishlist(entries, product.id) then DeleteEntry(product.id) else PostEntry(product.id);
      entries := Toggled(entries, product);
      reqs, events := [first], 0;
      if !reply.Ok? {
        if reply.Unauthorized? {
          events := 1;
          HandleLogout();
        }
        var more, moreEvents := Fetch(true, refetch);
        reqs, events := reqs + more, events + moreEvents;
      }
    }

    /** `removeFromWishlist`: the DELETE is sent, and only after it succeeded are the
        matching entries dropped. */
    method RemoveFromWishlist(productId: int, reply: Reply<()>) returns (req: Request)
      modifies this
      ensures req == DeleteEntry(productId)
      ensures entries == if reply.Ok? then WithoutProduct(old(entries), productId) else old(entries)
    {
      req := DeleteEntry(productId);
      if reply.Ok? {
        entries := WithoutProduct(entries, productId);
      }
    }

    /** The `userLogout` listener. */
    method HandleLogout()
      modifies this
      ensures entries == []
    {
      entries := [];
    }
  }
}
