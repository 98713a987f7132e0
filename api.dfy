/** The mock product and order store of the storefront's data layer: two
    module-level arrays of records, pure queries over them (search, category
    filter, pagination, lookup by id, orders of a user) and the operations that
    change them in place (append, merge into one record, remove one record,
    write one order's status). */
module Api {
  import opened Wrappers
  import Js

  // ---------------------------------------------------------------------------
  // Records

  datatype Product = Product(
    id: string, name: string, price: int, description: string,
    image: string, category: string, stock: int, rating: real)

  /** A product without its id, as passed to `createProduct`. */
  datatype ProductDraft = ProductDraft(
    name: string, price: int, description: string,
    image: string, category: string, stock: int, rating: real)

  /** The fields present in an `updateProduct` patch; `None` is an absent key. */
  datatype ProductPatch = ProductPatch(
    id: Option<string>, name: Option<string>, price: Option<int>, description: Option<string>,
    image: Option<string>, category: Option<string>, stock: Option<int>, rating: Option<real>)

  datatype OrderItem = OrderItem(productId: string, quantity: int, price: int)

  datatype Order = Order(
    id: string, userId: string, items: seq<OrderItem>, total: int,
    status: string, createdAt: string, shippingAddress: string)

  /** An order without `id` and `createdAt`, as passed to `createOrder`. */
  datatype OrderDraft = OrderDraft(
    userId: string, items: seq<OrderItem>, total: int, status: string, shippingAddress: string)

  /** The optional parameters of `getProducts`. */
  datatype ProductQuery = ProductQuery(
    search: Option<string>, category: Option<string>, page: Option<int>, limit: Option<int>)

  /** What `getProducts` resolves to. */
  datatype ProductPage = ProductPage(products: seq<Product>, total: nat, page: int, totalPages: int)

  const ProductNotFound := "Product not found"
  const OrderNotFound := "Order not found"
  const DefaultPage := 1
  const DefaultLimit := 10

  /** `params?.page || 1` and `params?.limit || 10`: absent or zero falls back. */
  function OrDefault(n: Option<int>, default: int): (r: int)
    ensures n.Some? && n.value != 0 ==> r == n.value
    ensures n.None? || n.value == 0 ==> r == default
  {
    if n.Some? && n.value != 0 then n.value else default
  }

  // ---------------------------------------------------------------------------
  // Queries

  /** Case-insensitive substring match of the search text on name or description. */
  predicate MatchesSearch(p: Product, search: string)
  {
    Js.Includes(Js.Lower(p.name), Js.Lower(search)) || Js.Includes(Js.Lower(p.description), Js.Lower(search))
  }

  /** Whether `getProducts` keeps a product before paginating: the search
      filter and the category filter, each only when its parameter is truthy. */
  predicate Selected(p: Product, q: ProductQuery)
  {
    && (Js.TruthyString(q.search) ==> MatchesSearch(p, q.search.value))
    && (Js.TruthyString(q.category) ==> p.category == q.category.value)
  }

  /** `filteredProducts` after the search filter. */
  function SearchFiltered(ps: seq<Product>, search: Option<string>): (r: seq<Product>)
    ensures !Js.TruthyString(search) ==> r == ps
  {
    if Js.TruthyString(search) then Js.Filter((p: Product) => MatchesSearch(p, search.value), ps) else ps
  }

  /** `filteredProducts` after the category filter. */
  function CategoryFiltered(ps: seq<Product>, category: Option<string>): (r: seq<Product>)
    ensures !Js.TruthyString(category) ==> r == ps
  {
    if Js.TruthyString(category) then Js.Filter((p: Product) => p.category == category.value, ps) else ps
  }

  /** The products `getProducts` keeps before paginating: searched first, then
      filtered by category. */
  function Matching(ps: seq<Product>, q: ProductQuery): (r: seq<Product>)
    ensures !Js.TruthyString(q.search) && !Js.TruthyString(q.category) ==> r == ps
  {
    CategoryFiltered(SearchFiltered(ps, q.search), q.category)
  }

  /** The two filters of `getProducts` together are one filter by `Selected`:
      the matching products are exactly the selected ones, in store order. */
  lemma MatchingIsOneFilter(ps: seq<Product>, q: ProductQuery)
    ensures Matching(ps, q) == Js.Filter((p: Product) => Selected(p, q), ps)
    ensures Js.IsSubsequence(Matching(ps, q), ps)
  {
    var sel := (p: Product) => Selected(p, q);
    var bySearch := (p: Product) => Js.TruthyString(q.search) ==> MatchesSearch(p, q.search.value);
    var byCategory := (p: Product) => Js.TruthyString(q.category) ==> p.category == q.category.value;
    var all := (p: Product) => true;
    Js.FilterAll(all, ps);
    var searched := SearchFiltered(ps, q.search);
    assert searched == Js.Filter(bySearch, ps) by {
      if Js.TruthyString(q.search) {
        Js.FilterAgree((p: Product) => MatchesSearch(p, q.search.value), bySearch, ps);
      } else {
        Js.FilterAgree(all, bySearch, ps);
      }
    }
    var searchedAll := Js.Filter(bySearch, ps);
    assert Matching(ps, q) == Js.Filter(byCategory, searchedAll) by {
      if Js.TruthyString(q.category) {
        Js.FilterAgree((p: Product) => p.category == q.category.value, byCategory, searchedAll);
      } else {
        Js.FilterAll(all, searchedAll);
        Js.FilterAgree(all, byCategory, searchedAll);
      }
    }
    Js.FilterTwice(bySearch, byCategory, sel, ps);
    Js.FilterIsSubsequence(sel, ps);
  }

  /** The matching products are exactly the selected products of the store. */
  lemma MatchingMembers(ps: seq<Product>, q: ProductQuery)
    ensures forall p :: p in Matching(ps, q) <==> p in ps && Selected(p, q)
  {
    MatchingIsOneFilter(ps, q);
    var m := Matching(ps, q);
    forall p ensures p in m <==> p in ps && Selected(p, q) {
      if p in m {
        var k :| 0 <= k < |m| && m[k] == p;
      }
      if p in ps && Selected(p, q) {
        var k :| 0 <= k < |ps| && ps[k] == p;
      }
    }
  }

  /** The search ignores the case of the search text. */
  lemma SearchIgnoresCase(ps: seq<Product>, q: ProductQuery, s: string)
    ensures Matching(ps, q.(search := Some(s))) == Matching(ps, q.(search := Some(Js.Lower(s))))
  {
    Js.LowerIdempotent(s);
    var a, b := q.(search := Some(s)), q.(search := Some(Js.Lower(s)));
    assert Js.TruthyString(a.search) == Js.TruthyString(b.search);
    if Js.TruthyString(a.search) {
      Js.FilterAgree((p: Product) => MatchesSearch(p, s), (p: Product) => MatchesSearch(p, Js.Lower(s)), ps);
    }
  }

  /** `s.slice((page - 1) * limit, (page - 1) * limit + limit)`. */
  function PageSlice<T>(s: seq<T>, page: int, limit: int): seq<T>
  {
    var start := (page - 1) * limit;
    Js.Slice(s, start, start + limit)
  }

  /** For a page at or after the first and a positive size, the slice is the
      `page`-th run of `limit` elements, clipped to the sequence. */
  lemma PageSliceRun<T>(s: seq<T>, page: int, limit: int)
    requires page >= 1 && limit > 0
    ensures |PageSlice(s, page, limit)| <= limit
    ensures PageSlice(s, page, limit)
      == s[Js.ClampIndex((page - 1) * limit, |s|)..Js.ClampIndex(page * limit, |s|)]
  {
    PageOffsets(page, limit);
  }

  /** `getProducts(params)`. */
  function GetProducts(ps: seq<Product>, q: ProductQuery): (r: ProductPage)
    ensures r.total == |Matching(ps, q)|
    ensures r.page == OrDefault(q.page, DefaultPage)
  {
    Paginate(Matching(ps, q), q.page, q.limit)
  }

  /** The pagination step of `getProducts` over the matching products `m`. */
  function Paginate(m: seq<Product>, page?: Option<int>, limit?: Option<int>): (r: ProductPage)
    ensures r.total == |m| && r.page == OrDefault(page?, DefaultPage)
  {
    var page := OrDefault(page?, DefaultPage);
    var limit := OrDefault(limit?, DefaultLimit);
    ProductPage(PageSlice(m, page, limit), |m|, page, Js.CeilDiv(|m|, limit))
  }

  /** `totalPages` is the least number of pages of size `limit` that hold every
      matching product. */
  lemma PageCountBounds(m: seq<Product>, page?: Option<int>, limit?: Option<int>)
    requires OrDefault(limit?, DefaultLimit) > 0
    ensures var r, limit := Paginate(m, page?, limit?), OrDefault(limit?, DefaultLimit);
      (r.totalPages - 1) * limit < r.total <= r.totalPages * limit
  {
    Js.CeilDivBounds(|m|, OrDefault(limit?, DefaultLimit));
  }

  /** A page at or after the first holds at most `limit` products: those from
      `(page - 1) * limit` up to `page * limit`, clipped. */
  lemma PageContents(m: seq<Product>, page?: Option<int>, limit?: Option<int>)
    requires OrDefault(page?, DefaultPage) >= 1 && OrDefault(limit?, DefaultLimit) > 0
    ensures var r, limit := Paginate(m, page?, limit?), OrDefault(limit?, DefaultLimit);
      && |r.products| <= limit
      && r.products == m[Js.ClampIndex((r.page - 1) * limit, |m|)..Js.ClampIndex(r.page * limit, |m|)]
  {
    PageSliceRun(m, OrDefault(page?, DefaultPage), OrDefault(limit?, DefaultLimit));
  }

  /** Every product on a page is one of the products paginated. */
  lemma PageWithinMatching(m: seq<Product>, page?: Option<int>, limit?: Option<int>)
    requires OrDefault(page?, DefaultPage) >= 1 && OrDefault(limit?, DefaultLimit) > 0
    ensures forall p :: p in Paginate(m, page?, limit?).products ==> p in m
  {
    PageSliceWithin(m, OrDefault(page?, DefaultPage), OrDefault(limit?, DefaultLimit));
  }

  lemma PageSliceWithin<T>(s: seq<T>, page: int, limit: int)
    requires page >= 1 && limit > 0
    ensures forall i :: 0 <= i < |PageSlice(s, page, limit)| ==> PageSlice(s, page, limit)[i] in s
  {
    var lo, hi := Js.ClampIndex((page - 1) * limit, |s|), Js.ClampIndex(page * limit, |s|);
    PageOffsets(page, limit);
    PageSliceRun(s, page, limit);
    SliceWithin(s, lo, hi);
  }

  lemma SliceWithin<T>(s: seq<T>, lo: int, hi: int)
    requires 0 <= lo <= hi <= |s|
    ensures forall i :: 0 <= i < hi - lo ==> s[lo..hi][i] in s
  {
    forall i | 0 <= i < hi - lo
      ensures s[lo..hi][i] in s
    {
      assert s[lo..hi][i] == s[lo + i];
    }
  }

  /** Every product on a page is a selected product of the store. */
  lemma PageHoldsSelectedProducts(ps: seq<Product>, q: ProductQuery)
    requires OrDefault(q.page, DefaultPage) >= 1 && OrDefault(q.limit, DefaultLimit) > 0
    ensures forall p :: p in GetProducts(ps, q).products ==> p in ps && Selected(p, q)
  {
    PageWithinMatching(Matching(ps, q), q.page, q.limit);
    MatchingMembers(ps, q);
  }

  /** The number of products on a page at or after the first. */
  lemma PageLength(m: seq<Product>, page?: Option<int>, limit?: Option<int>)
    requires OrDefault(page?, DefaultPage) >= 1 && OrDefault(limit?, DefaultLimit) > 0
    ensures var r, limit := Paginate(m, page?, limit?), OrDefault(limit?, DefaultLimit);
      |r.products| == Js.ClampIndex(r.page * limit, |m|) - Js.ClampIndex((r.page - 1) * limit, |m|)
  {
    PageContents(m, page?, limit?);
  }

  /** With a positive page size, a page at or after the first holds products
      exactly when it is not past the last page. */
  lemma PageNonEmptyIffInRange(m: seq<Product>, page?: Option<int>, limit?: Option<int>)
    requires OrDefault(page?, DefaultPage) >= 1 && OrDefault(limit?, DefaultLimit) > 0
    ensures var r := Paginate(m, page?, limit?); |r.products| > 0 <==> r.page <= r.totalPages
  {
    var r := Paginate(m, page?, limit?);
    PageLength(m, page?, limit?);
    PageCountBounds(m, page?, limit?);
    PageRunNonEmpty(|m|, r.page, r.totalPages, OrDefault(limit?, DefaultLimit));
  }

  /** Page `p` of `n` items split into `t` pages of `limit` is non-empty
      exactly when `p <= t`. */
  lemma PageRunNonEmpty(n: nat, p: int, t: int, limit: int)
    requires p >= 1 && limit > 0
    requires (t - 1) * limit < n <= t * limit
    ensures Js.ClampIndex(p * limit, n) - Js.ClampIndex((p - 1) * limit, n) > 0 <==> p <= t
  {
    var a, b := (p - 1) * limit, p * limit;
    assert 0 <= a < b by {
      PageOffsets(p, limit);
    }
    assert Js.ClampIndex(a, n) < Js.ClampIndex(b, n) <==> a < n by {
      ClampedRunNonEmpty(n, a, b);
    }
    assert a < n <==> p <= t by {
      PageInRange(p, t, n, limit);
    }
  }

  lemma ClampedRunNonEmpty(n: nat, a: int, b: int)
    requires 0 <= a < b
    ensures Js.ClampIndex(a, n) < Js.ClampIndex(b, n) <==> a < n
  {
  }

  lemma PageOffsets(page: int, limit: int)
    requires page >= 1 && limit > 0
    ensures 0 <= (page - 1) * limit && (page - 1) * limit + limit == page * limit
  {
  }

  /** Page `p` starts before the end of `n` items exactly when `p` is at most
      the number of pages `t`. */
  lemma PageInRange(p: int, t: int, n: nat, limit: int)
    requires p >= 1 && limit > 0
    requires (t - 1) * limit < n <= t * limit
    ensures (p - 1) * limit < n <==> p <= t
  {
    if p <= t {
      MulMonotone(p - 1, t - 1, limit);
    } else {
      MulMonotone(t, p - 1, limit);
    }
  }

  lemma MulMonotone(a: int, b: int, k: nat)
    requires a <= b
    ensures a * k <= b * k
  {
  }

  /** `getProduct(id)`: the first product with that id, or "Product not found". */
  function GetProduct(ps: seq<Product>, id: string): (r: Result<Product, string>)
    ensures r.Failure? <==> forall i :: 0 <= i < |ps| ==> ps[i].id != id
    ensures r.Failure? ==> r.error == ProductNotFound
    ensures r.Success? ==> r.value == ps[ProductIndex(ps, id)] && r.value.id == id
  {
    match Js.Find((p: Product) => p.id == id, ps)
    case None => Failure(ProductNotFound)
    case Some(p) => Success(p)
  }

  /** `mockProducts.findIndex((p) => p.id === id)`. */
  function ProductIndex(ps: seq<Product>, id: string): (r: int)
    ensures -1 <= r < |ps|
    ensures r == -1 <==> forall i :: 0 <= i < |ps| ==> ps[i].id != id
    ensures r != -1 ==> ps[r].id == id && forall j :: 0 <= j < r ==> ps[j].id != id
  {
    Js.FindIndex((p: Product) => p.id == id, ps)
  }

  /** `mockOrders.findIndex((o) => o.id === id)`. */
  function OrderIndex(os: seq<Order>, id: string): (r: int)
    ensures -1 <= r < |os|
    ensures r == -1 <==> forall i :: 0 <= i < |os| ==> os[i].id != id
    ensures r != -1 ==> os[r].id == id && forall j :: 0 <= j < r ==> os[j].id != id
  {
    Js.FindIndex((o: Order) => o.id == id, os)
  }

  /** `getOrders(userId)`: the user's orders in store order, or every order
      when `userId` is absent or empty. */
  function GetOrders(os: seq<Order>, userId: Option<string>): (r: seq<Order>)
    ensures !Js.TruthyString(userId) ==> r == os
    ensures Js.TruthyString(userId) ==> forall i :: 0 <= i < |r| ==> r[i] in os && r[i].userId == userId.value
    ensures Js.TruthyString(userId) ==> forall i :: 0 <= i < |os| && os[i].userId == userId.value ==> os[i] in r
  {
    if Js.TruthyString(userId) then Js.Filter((o: Order) => o.userId == userId.value, os) else os
  }

  /** The orders of a user come in store order. */
  lemma UserOrdersInStoreOrder(os: seq<Order>, userId: Option<string>)
    ensures Js.IsSubsequence(GetOrders(os, userId), os)
  {
    if Js.TruthyString(userId) {
      Js.FilterIsSubsequence((o: Order) => o.userId == userId.value, os);
    } else {
      Js.SubsequenceReflexive(os);
    }
  }

  /** `getOrders(userId)` called with an untyped argument: the argument's
      truthiness decides whether to filter, and the filter compares each
      stored (string) `userId` with it by strict equality. */
  function GetOrdersWith(os: seq<Order>, userId: Option<Js.Value>): (r: seq<Order>)
    ensures userId.None? || !Js.Truthy(userId.value) ==> r == os
  {
    if userId.Some? && Js.Truthy(userId.value)
    then Js.Filter((o: Order) => Js.StrictEquals(Js.Str(o.userId), userId.value), os)
    else os
  }

  /** Called with a string, the untyped `getOrders` is the typed one. */
  lemma GetOrdersWithString(os: seq<Order>, userId: string)
    ensures GetOrdersWith(os, Some(Js.Str(userId))) == GetOrders(os, Some(userId))
  {
    if userId != "" {
      Js.FilterAgree((o: Order) => Js.StrictEquals(Js.Str(o.userId), Js.Str(userId)),
                     (o: Order) => o.userId == userId, os);
    }
  }

  /** Called with a non-zero number, `getOrders` returns no order at all,
      whatever the store holds. */
  lemma GetOrdersWithNumber(os: seq<Order>, id: int)
    requires id != 0
    ensures GetOrdersWith(os, Some(Js.Num(id))) == []
  {
    var r := GetOrdersWith(os, Some(Js.Num(id)));
    if r != [] {
      Js.StringNeverEqualsNumber(r[0].userId, id);
      assert false;
    }
  }

  // ---------------------------------------------------------------------------
  // Records built by the updates

  function NewProduct(d: ProductDraft, id: string): Product
  {
    Product(id, d.name, d.price, d.description, d.image, d.category, d.stock, d.rating)
  }

  /** The draft a product was made from. */
  function DraftOf(p: Product): ProductDraft
  {
    ProductDraft(p.name, p.price, p.description, p.image, p.category, p.stock, p.rating)
  }

  function NewOrder(d: OrderDraft, id: string, createdAt: string): Order
  {
    Order(id, d.userId, d.items, d.total, d.status, createdAt, d.shippingAddress)
  }

  /** `{ ...p, ...u }`: present fields of the patch win, absent ones keep `p`'s. */
  function Merge(p: Product, u: ProductPatch): (r: Product)
    ensures r.id == (if u.id.Some? then u.id.value else p.id)
    ensures r.name == (if u.name.Some? then u.name.value else p.name)
    ensures r.price == (if u.price.Some? then u.price.value else p.price)
    ensures r.description == (if u.description.Some? then u.description.value else p.description)
    ensures r.image == (if u.image.Some? then u.image.value else p.image)
    ensures r.category == (if u.category.Some? then u.category.value else p.category)
    ensures r.stock == (if u.stock.Some? then u.stock.value else p.stock)
    ensures r.rating == (if u.rating.Some? then u.rating.value else p.rating)
  {
    Product(
      if u.id.Some? then u.id.value else p.id,
      if u.name.Some? then u.name.value else p.name,
      if u.price.Some? then u.price.value else p.price,
      if u.description.Some? then u.description.value else p.description,
      if u.image.Some? then u.image.value else p.image,
      if u.category.Some? then u.category.value else p.category,
      if u.stock.Some? then u.stock.value else p.stock,
      if u.rating.Some? then u.rating.value else p.rating)
  }

  const EmptyPatch := ProductPatch(None, None, None, None, None, None, None, None)

  /** The patch that sets every field to those of `p`. */
  function PatchOf(p: Product): ProductPatch
  {
    ProductPatch(Some(p.id), Some(p.name), Some(p.price), Some(p.description),
                 Some(p.image), Some(p.category), Some(p.stock), Some(p.rating))
  }

  /** An empty patch changes nothing, a full patch replaces everything, and
      applying the same patch twice is applying it once. */
  lemma MergeLaws(p: Product, q: Product, u: ProductPatch)
    ensures Merge(p, EmptyPatch) == p
    ensures Merge(p, PatchOf(q)) == q
    ensures Merge(Merge(p, u), u) == Merge(p, u)
  {
  }

  ghost predicate UniqueIds(ps: seq<Product>)
  {
    forall i, j :: 0 <= i < j < |ps| ==> ps[i].id != ps[j].id
  }

  // ---------------------------------------------------------------------------
  // Lookups after each update

  /** A product appended with a fresh id is what `getProduct` finds for it. */
  lemma CreatedProductIsFound(ps: seq<Product>, d: ProductDraft, id: string)
    requires forall i :: 0 <= i < |ps| ==> ps[i].id != id
    ensures GetProduct(ps + [NewProduct(d, id)], id) == Success(NewProduct(d, id))
    ensures DraftOf(NewProduct(d, id)) == d
  {
    Js.FindIndexAppend((p: Product) => p.id == id, ps, NewProduct(d, id));
  }

  /** Appending a product does not change the lookup of any other id. */
  lemma CreateKeepsOtherLookups(ps: seq<Product>, p: Product, id: string)
    requires p.id != id
    ensures GetProduct(ps + [p], id) == GetProduct(ps, id)
  {
    Js.FindIndexAppend((q: Product) => q.id == id, ps, p);
  }

  /** A fresh id keeps the ids unique. */
  lemma CreateKeepsIdsUnique(ps: seq<Product>, p: Product)
    requires UniqueIds(ps)
    requires forall i :: 0 <= i < |ps| ==> ps[i].id != p.id
    ensures UniqueIds(ps + [p])
  {
  }

  /** After a merge that keeps the id, `getProduct` returns the merged record. */
  lemma UpdatedProductIsFound(ps: seq<Product>, id: string, u: ProductPatch)
    requires ProductIndex(ps, id) != -1
    requires u.id.None? || u.id == Some(id)
    ensures var i := ProductIndex(ps, id);
      GetProduct(ps[i := Merge(ps[i], u)], id) == Success(Merge(ps[i], u))
  {
    var i := ProductIndex(ps, id);
    var after := ps[i := Merge(ps[i], u)];
    assert forall j :: 0 <= j < i ==> after[j] == ps[j];
    assert after[i].id == id;
  }

  /** Removing the one product with an id removes it from `getProduct`, keeps
      the other ids unique and shrinks the store by exactly that record. */
  lemma DeletedProductIsGone(ps: seq<Product>, id: string)
    requires UniqueIds(ps)
    requires ProductIndex(ps, id) != -1
    ensures var i := ProductIndex(ps, id); var after := ps[..i] + ps[i + 1..];
      && GetProduct(after, id) == Failure(ProductNotFound)
      && UniqueIds(after)
      && |after| == |ps| - 1
      && multiset(after) + multiset{ps[i]} == multiset(ps)
  {
    var i := ProductIndex(ps, id);
    var after := ps[..i] + ps[i + 1..];
    forall j | 0 <= j < |after|
      ensures after[j] == ps[if j < i then j else j + 1]
    {
    }
    forall j | 0 <= j < |after|
      ensures after[j].id != id
    {
      var k := if j < i then j else j + 1;
      assert after[j] == ps[k];
      assert ps[k].id != ps[i].id by {
        if k < i {} else {}
      }
    }
    forall a, b | 0 <= a < b < |after|
      ensures after[a].id != after[b].id
    {
      assert after[a] == ps[if a < i then a else a + 1];
      assert after[b] == ps[if b < i then b else b + 1];
    }
    RemoveOne(ps, i);
  }

  /** Taking out element `i` leaves the multiset of the others. */
  lemma RemoveOne<T>(s: seq<T>, i: int)
    requires 0 <= i < |s|
    ensures multiset(s[..i] + s[i + 1..]) + multiset{s[i]} == multiset(s)
  {
    assert s == s[..i] + [s[i]] + s[i + 1..];
  }

  // ---------------------------------------------------------------------------
  // The store

  /** The seeded product array. */
  function SeedProducts(): seq<Product>
  {
    [ Product("1", "Wireless Headphones", 7999, "High-quality wireless headphones with noise cancellation",
              "/placeholder.svg?height=300&width=300", "Electronics", 50, 4.5),
      Product("2", "Smart Watch", 15999, "Feature-rich smartwatch with health tracking",
              "/placeholder.svg?height=300&width=300", "Electronics", 30, 4.3),
      Product("3", "Running Shoes", 6399, "Comfortable running shoes for daily exercise",
              "/placeholder.svg?height=300&width=300", "Sports", 100, 4.7),
      Product("4", "Coffee Maker", 11999, "Automatic coffee maker with programmable settings",
              "/placeholder.svg?height=300&width=300", "Home", 25, 4.2) ]
  }

  /** The seeded order array. */
  function SeedOrders(): seq<Order>
  {
    [ Order("1", "2", [OrderItem("1", 1, 7999)], 7999, "delivered", "2024-01-15T10:00:00Z",
            "123 Main St, City, State 12345"),
      Order("2", "2", [OrderItem("2", 1, 15999)], 15999, "shipped", "2024-01-20T14:30:00Z",
            "123 Main St, City, State 12345") ]
  }

  /** The seeded products have distinct ids. */
  lemma SeedIdsUnique()
    ensures UniqueIds(SeedProducts())
  {
  }

  /** `mockProducts` and `mockOrders` with the operations of `productsApi` and
      `ordersApi` that change them. */
  class MockStore {
    var products: seq<Product>
    var orders: seq<Order>

    constructor ()
      ensures products == SeedProducts() && orders == SeedOrders()
    {
      products := SeedProducts();
      orders := SeedOrders();
    }

    /** `createProduct(product)` with `newId` standing for `Date.now().toString()`. */
    method CreateProduct(d: ProductDraft, newId: string) returns (p: Product)
      modifies this
      ensures p.id == newId && DraftOf(p) == d
      ensures products == old(products) + [p]
      ensures orders == old(orders)
    {
      p := NewProduct(d, newId);
      products := products + [p];
    }

    /** `updateProduct(id, updates)`: merges into the first product with that id. */
    method UpdateProduct(id: string, u: ProductPatch) returns (r: Result<Product, string>)
      modifies this
      ensures orders == old(orders)
      ensures var i := ProductIndex(old(products), id);
        if i == -1 then r == Failure(ProductNotFound) && products == old(products)
        else && r == Success(Merge(old(products)[i], u))
             && |products| == |old(products)|
             && products[i] == r.value
             && forall j :: 0 <= j < |products| && j != i ==> products[j] == old(products)[j]
    {
      var i := ProductIndex(products, id);
      if i == -1 {
        return Failure(ProductNotFound);
      }
      products := products[i := Merge(products[i], u)];
      r := Success(products[i]);
    }

    /** `deleteProduct(id)`: removes the first product with that id. */
    method DeleteProduct(id: string) returns (r: Result<bool, string>)
      modifies this
      ensures orders == old(orders)
      ensures var i := ProductIndex(old(products), id);
        if i == -1 then r == Failure(ProductNotFound) && products == old(products)
        else r == Success(true) && products == old(products)[..i] + old(products)[i + 1..]
    {
      var i := ProductIndex(products, id);
      if i == -1 {
        return Failure(ProductNotFound);
      }
      products := products[..i] + products[i + 1..];
      r := Success(true);
    }

    /** `createOrder(order)` with `newId` and `createdAt` standing for
        `Date.now().toString()` and `new Date().toISOString()`. */
    method CreateOrder(d: OrderDraft, newId: string, createdAt: string) returns (o: Order)
      modifies this
      ensures o == NewOrder(d, newId, createdAt)
      ensures orders == old(orders) + [o]
      ensures products == old(products)
    {
      o := NewOrder(d, newId, createdAt);
      orders := orders + [o];
    }

    /** `updateOrderStatus(id, status)`: writes the status of the first order with that id. */
    method UpdateOrderStatus(id: string, status: string) returns (r: Result<Order, string>)
      modifies this
      ensures products == old(products)
      ensures var i := OrderIndex(old(orders), id);
        if i == -1 then r == Failure(OrderNotFound) && orders == old(orders)
        else && r == Success(old(orders)[i].(status := status))
             && |orders| == |old(orders)|
             && orders[i] == r.value
             && forall j :: 0 <= j < |orders| && j != i ==> orders[j] == old(orders)[j]
    {
      var i := OrderIndex(orders, id);
      if i == -1 {
        return Failure(OrderNotFound);
      }
      orders := orders[i := orders[i].(status := status)];
      r := Success(orders[i]);
    }
  }
}
