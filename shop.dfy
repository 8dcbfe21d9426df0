/** The shop page's derived lists: the category choices, the filtered products and
    their sort orders, and the "Loved" badge. */
module Shop {
  import opened Wrappers
  import opened Seqs
  import opened Text
  import opened Sorting
  import opened Catalog
  import opened WishlistContext

  const All := "All"
  const Uncategorized := "Uncategorized"

  /** `p.category_name || "Uncategorized"`. */
  function CategoryLabel(p: Product): string {
    if p.categoryName.None? || p.categoryName.value == "" then Uncategorized else p.categoryName.value
  }

  ghost predicate NoDuplicates<T>(s: seq<T>) {
    forall i, j | 0 <= i < j < |s| :: s[i] != s[j]
  }

  /** The index where `x` first occurs in `s`. */
  function FirstIndex<T(==)>(s: seq<T>, x: T): (i: nat)
    requires x in s
    ensures i < |s| && s[i] == x && forall j | 0 <= j < i :: s[j] != x
  {
    if s[0] == x then 0 else 1 + FirstIndex(s[1..], x)
  }

  /** The first occurrence of an element does not move when something is appended. */
  lemma FirstIndexAppend<T>(s: seq<T>, y: T, x: T)
    requires x in s
    ensures FirstIndex(s + [y], x) == FirstIndex(s, x)
  {
    var i, k := FirstIndex(s + [y], x), FirstIndex(s, x);
    assert (s + [y])[k] == x;
  }

  /** `[...new Set(s)]`: each value once, where it was first seen. */
  function Distinct<T(==)>(s: seq<T>): (r: seq<T>)
    ensures forall x | x in r :: x in s
    ensures forall x | x in s :: x in r
  {
    if s == [] then []
    else
      var init := s[..|s| - 1];
      assert s == init + [s[|s| - 1]];
      var d := Distinct(init);
      if s[|s| - 1] in d then d else d + [s[|s| - 1]]
  }

  /** `Distinct` lists no value twice, and lists values in the order they were first seen. */
  lemma {:induction false} DistinctFirstSeenOrder<T>(s: seq<T>)
    ensures NoDuplicates(Distinct(s))
    ensures forall i, j | 0 <= i < j < |Distinct(s)| ::
      FirstIndex(s, Distinct(s)[i]) < FirstIndex(s, Distinct(s)[j])
  {
    if s != [] {
      var init, last := s[..|s| - 1], s[|s| - 1];
      assert s == init + [last];
      var d := Distinct(init);
      DistinctFirstSeenOrder(init);
      forall x | x in init
        ensures FirstIndex(s, x) == FirstIndex(init, x)
      {
        FirstIndexAppend(init, last, x);
      }
      if last !in d {
        var r := d + [last];
        assert last !in init;
        assert FirstIndex(s, last) == |init|;
        forall i, j | 0 <= i < j < |r|
          ensures FirstIndex(s, r[i]) < FirstIndex(s, r[j])
        {
          assert r[i] == d[i] && d[i] in init;
          var fi := FirstIndex(init, d[i]);
          assert FirstIndex(s, r[i]) == fi;
          if j < |d| {
            assert r[j] == d[j] && d[j] in init;
            assert FirstIndex(s, r[j]) == FirstIndex(init, d[j]);
            assert FirstIndex(init, d[i]) < FirstIndex(init, d[j]);
          } else {
            assert r[j] == last;
            assert fi < |init|;
          }
        }
        assert Distinct(s) == r;
      } else {
        assert Distinct(s) == d;
        forall i, j | 0 <= i < j < |d|
          ensures FirstIndex(s, d[i]) < FirstIndex(s, d[j])
        {
          assert d[i] in init && d[j] in init;
        }
      }
    }
  }

  /** `categories`: "All" first, then every product's label once, in first-seen order. */
  function Categories(products: seq<Product>): seq<string> {
    [All] + Distinct(Map(products, CategoryLabel))
  }

  lemma CategoriesCorrect(products: seq<Product>)
    ensures var c := Categories(products);
      c[0] == All
      && NoDuplicates(c[1..])
      && (forall p | p in products :: CategoryLabel(p) in c[1..])
      && (forall x | x in c[1..] :: exists p | p in products :: CategoryLabel(p) == x)
  {
    var labels := Map(products, CategoryLabel);
    DistinctFirstSeenOrder(labels);
    assert Categories(products)[1..] == Distinct(labels);
    forall p | p in products
      ensures CategoryLabel(p) in labels
    {
      var k :| 0 <= k < |products| && products[k] == p;
      assert labels[k] == CategoryLabel(p);
    }
    forall x | x in Distinct(labels)
      ensures exists p | p in products :: CategoryLabel(p) == x
    {
      var k :| 0 <= k < |labels| && labels[k] == x;
      assert products[k] in products;
    }
  }

  /** The filter: the lower-cased name contains the lower-cased search, the category
      matches (or "All" is selected) and the price is at most the maximum. `lower` stands
      for `toLowerCase`. */
  predicate Shown(p: Product, search: string, category: string, maxPrice: int, lower: string -> string) {
    && Contains(lower(p.name), lower(search))
    && (category == All || p.categoryName == Some(category))
    && p.price <= maxPrice
  }

  function Filtered(products: seq<Product>, search: string, category: string, maxPrice: int,
                    lower: string -> string): seq<Product> {
    Filter(products, (p: Product) => Shown(p, search, category, maxPrice, lower))
  }

  /** Selecting "Uncategorized" shows no product without a `category_name`, although
      those products are listed under that label. */
  lemma UncategorizedShowsNoMissing(products: seq<Product>, search: string, maxPrice: int,
                                    lower: string -> string)
    ensures forall p | p in Filtered(products, search, Uncategorized, maxPrice, lower) ::
      p.categoryName == Some(Uncategorized)
  {
  }

  /** With an empty search and "All", the list is every product up to the price. */
  lemma EmptySearchKeepsAllInPrice(products: seq<Product>, maxPrice: int, lower: string -> string)
    requires lower("") == ""
    ensures forall p | p in products && p.price <= maxPrice :: p in Filtered(products, "", All, maxPrice, lower)
  {
    forall p | p in products && p.price <= maxPrice
      ensures Shown(p, "", All, maxPrice, lower)
    {
      ContainsEmpty(lower(p.name));
    }
  }

  datatype SortMode = Default | PriceLowHigh | PriceHighLow | NameAZ | NameZA

  /** The `sort` select's value; unknown values fall into `default`. */
  function ModeOf(sort: string): SortMode {
    match sort
    case "priceLowHigh" => PriceLowHigh
    case "priceHighLow" => PriceHighLow
    case "nameAZ" => NameAZ
    case "nameZA" => NameZA
    case _ => Default
  }

  /** The `switch (sort)`. `collate` stands for `localeCompare` as a collation key:
      `a.localeCompare(b) < 0` when `collate(a) < collate(b)`. */
  function Arrange(data: seq<Product>, mode: SortMode, collate: string -> int): seq<Product> {
    match mode
    case Default => data
    case PriceLowHigh => SortBy(data, (p: Product) => p.price, Ascending)
    case PriceHighLow => SortBy(data, (p: Product) => p.price, Descending)
    case NameAZ => SortBy(data, (p: Product) => collate(p.name), Ascending)
    case NameZA => SortBy(data, (p: Product) => collate(p.name), Descending)
  }

  /** `filtered`. */
  function Visible(products: seq<Product>, search: string, category: string, maxPrice: int, sort: string,
                   lower: string -> string, collate: string -> int): seq<Product> {
    Arrange(Filtered(products, search, category, maxPrice, lower), ModeOf(sort), collate)
  }

  /** Every sort mode shows exactly the products it was given; the default keeps their order. */
  lemma ArrangePermutes(data: seq<Product>, mode: SortMode, collate: string -> int)
    ensures multiset(Arrange(data, mode, collate)) == multiset(data)
    ensures mode == Default ==> Arrange(data, mode, collate) == data
  {
  }

  /** The page shows exactly the products that pass the filter, whatever the sort mode. */
  lemma VisibleShown(products: seq<Product>, search: string, category: string, maxPrice: int, sort: string,
                     lower: string -> string, collate: string -> int)
    ensures forall p | p in Visible(products, search, category, maxPrice, sort, lower, collate) ::
      p in products && Shown(p, search, category, maxPrice, lower)
    ensures forall p | p in products && Shown(p, search, category, maxPrice, lower) ::
      p in Visible(products, search, category, maxPrice, sort, lower, collate)
  {
    var f := Filtered(products, search, category, maxPrice, lower);
    var r := Visible(products, search, category, maxPrice, sort, lower, collate);
    ArrangePermutes(f, ModeOf(sort), collate);
    forall p | p in r
      ensures p in products && Shown(p, search, category, maxPrice, lower)
    {
      assert p in multiset(r);
    }
    forall p | p in products && Shown(p, search, category, maxPrice, lower)
      ensures p in r
    {
      assert p in f;
      assert p in multiset(f);
    }
  }

  /** "priceLowHigh" and "priceHighLow" order by price. */
  lemma PriceModesOrder(data: seq<Product>, collate: string -> int)
    ensures var r := Arrange(data, PriceLowHigh, collate);
      forall i, j | 0 <= i < j < |r| :: r[i].price <= r[j].price
    ensures var r := Arrange(data, PriceHighLow, collate);
      forall i, j | 0 <= i < j < |r| :: r[i].price >= r[j].price
  {
    SortBySorted(data, (p: Product) => p.price, Ascending);
    SortBySorted(data, (p: Product) => p.price, Descending);
  }

  /** "nameAZ" and "nameZA" order by the collation key of the name. */
  lemma NameModesOrder(data: seq<Product>, collate: string -> int)
    ensures var r := Arrange(data, NameAZ, collate);
      forall i, j | 0 <= i < j < |r| :: collate(r[i].name) <= collate(r[j].name)
    ensures var r := Arrange(data, NameZA, collate);
      forall i, j | 0 <= i < j < |r| :: collate(r[i].name) >= collate(r[j].name)
  {
    SortBySorted(data, (p: Product) => collate(p.name), Ascending);
    SortBySorted(data, (p: Product) => collate(p.name), Descending);
  }

  /** The "Loved" badge as written: `wishlist.some(w => w.product.id === product.id)`.
      An entry whose `product` is an id has no `.id` and never matches; an entry with no
      `product` at all throws before the test (`None`). */
  function LovedAsWritten(entries: seq<Entry>, productId: int): Option<bool> {
    if entries == [] then Some(false)
    else match entries[0].product
      case None => None
      case Some(Nested(p)) => if p.id == productId then Some(true) else LovedAsWritten(entries[1..], productId)
      case Some(ById(_)) => LovedAsWritten(entries[1..], productId)
  }

  /** An entry just added by the toggle does not light the badge for its own product. */
  lemma LovedMissesOptimisticEntry(p: Product)
    ensures InWishlist([Optimistic(p)], p.id)
    ensures LovedAsWritten([Optimistic(p)], p.id) == Some(false)
  {
    assert Matches(Optimistic(p), p.id);
  }

  /** The badge as evidently intended: the wishlist's own membership test. */
  function Loved(entries: seq<Entry>, productId: int): (r: bool)
    ensures r <==> exists k | 0 <= k < |entries| :: Matches(entries[k], productId)
  {
    InWishlist(entries, productId)
  }

  /** The intended badge lights right after a toggle adds a product and goes out right
      after a toggle removes it. */
  lemma LovedFollowsToggle(entries: seq<Entry>, p: Product)
    ensures Loved(Toggled(entries, p), p.id) == !Loved(entries, p.id)
  {
    if InWishlist(entries, p.id) {
      TogglePresentRemoves(entries, p);
    } else {
      ToggleAbsentAdds(entries, p);
    }
  }

  /** Wherever the written badge lights, the intended one does too. */
  lemma {:induction false} LovedAsWrittenImpliesLoved(entries: seq<Entry>, productId: int)
    requires LovedAsWritten(entries, productId) == Some(true)
    ensures Loved(entries, productId)
  {
    if entries[0].product.Some? && entries[0].product.value.Nested?
       && entries[0].product.value.product.id == productId {
      assert Matches(entries[0], productId);
    } else {
      LovedAsWrittenImpliesLoved(entries[1..], productId);
      var k :| 1 <= k + 1 < |entries| + 1 && 0 <= k < |entries[1..]| && Matches(entries[1..][k], productId);
      assert Matches(entries[k + 1], productId);
    }
  }
}
