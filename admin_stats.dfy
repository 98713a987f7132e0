/** The admin console's summary cards: products, orders, revenue and customers. */
module AdminStats {
  import opened Wrappers
  import Api

  /** The product query the card runs: `getProducts({ limit: 1000 })`. */
  const AdminProductQuery := Api.ProductQuery(None, None, None, Some(1000))

  /** `orders.reduce((sum, order) => sum + order.total, 0)`, folded from the left. */
  function Revenue(os: seq<Api.Order>): int
  {
    if os == [] then 0 else Revenue(os[..|os| - 1]) + os[|os| - 1].total
  }

  /** The revenue of two runs of orders is the sum of their revenues. */
  lemma {:induction false} RevenueAppend(a: seq<Api.Order>, b: seq<Api.Order>)
    ensures Revenue(a + b) == Revenue(a) + Revenue(b)
    decreases |b|
  {
    if b != [] {
      assert (a + b)[..|a + b| - 1] == a + b[..|b| - 1];
      RevenueAppend(a, b[..|b| - 1]);
    } else {
      assert a + b == a;
    }
  }

  /** With no order totals below zero, revenue is at least every single total. */
  lemma {:induction false} RevenueCoversEachOrder(os: seq<Api.Order>, i: nat)
    requires forall j :: 0 <= j < |os| ==> os[j].total >= 0
    requires i < |os|
    ensures Revenue(os) >= os[i].total >= 0
  {
    var left, right := os[..i], os[i..];
    assert os == left + right;
    RevenueAppend(left, right);
    RevenueNonNegative(left);
    assert right == [os[i]] + right[1..];
    RevenueAppend([os[i]], right[1..]);
    RevenueNonNegative(right[1..]);
    assert [os[i]][..0] == [];
  }

  lemma {:induction false} RevenueNonNegative(os: seq<Api.Order>)
    requires forall j :: 0 <= j < |os| ==> os[j].total >= 0
    ensures Revenue(os) >= 0
  {
    if os != [] {
      RevenueNonNegative(os[..|os| - 1]);
    }
  }

  /** A status write leaves the revenue unchanged. */
  lemma {:induction false} RevenueIgnoresStatus(os: seq<Api.Order>, i: nat, status: string)
    requires i < |os|
    ensures Revenue(os[i := os[i].(status := status)]) == Revenue(os)
  {
    var after := os[i := os[i].(status := status)];
    var n := |os| - 1;
    if i == n {
      assert after[..n] == os[..n];
    } else {
      assert after[..n] == os[..n][i := os[i].(status := status)];
      RevenueIgnoresStatus(os[..n], i, status);
    }
  }

  /** `productsData?.total || 0`. */
  function TotalProducts(data: Option<Api.ProductPage>): (n: nat)
    ensures data.None? ==> n == 0
    ensures data.Some? ==> n == data.value.total
  {
    if data.Some? && data.value.total != 0 then data.value.total else 0
  }

  /** The ids in `orders.map((o) => o.userId)`, as a set. */
  function CustomerIds(os: seq<Api.Order>): (ids: set<string>)
    ensures forall u :: u in ids <==> exists i :: 0 <= i < |os| && os[i].userId == u
  {
    if os == [] then {}
    else
      var rest := CustomerIds(os[..|os| - 1]);
      assert forall i :: 0 <= i < |os| - 1 ==> os[..|os| - 1][i] == os[i];
      rest + {os[|os| - 1].userId}
  }

  /** `new Set(orders.map((o) => o.userId)).size`. */
  function TotalCustomers(os: seq<Api.Order>): nat
  {
    |CustomerIds(os)|
  }

  /** There are never more customers than orders, and any order makes one. */
  lemma {:induction false} CustomersBounded(os: seq<Api.Order>)
    ensures TotalCustomers(os) <= |os|
    ensures |os| > 0 ==> TotalCustomers(os) >= 1
  {
    if os != [] {
      CustomersBounded(os[..|os| - 1]);
      assert os[|os| - 1].userId in CustomerIds(os);
    }
  }

  datatype Summary = Summary(totalProducts: nat, totalOrders: nat, revenue: int, customers: nat)

  /** The four cards, from the product query's data and the fetched orders
      (`orders = []` until they arrive). */
  function Cards(productsData: Option<Api.ProductPage>, ordersData: Option<seq<Api.Order>>): (s: Summary)
    ensures s.totalProducts == TotalProducts(productsData)
    ensures var os := if ordersData.Some? then ordersData.value else [];
      && s.totalOrders == |os|
      && s.revenue == Revenue(os)
      && s.customers == TotalCustomers(os)
      && s.customers <= s.totalOrders
      && (s.totalOrders > 0 ==> s.customers >= 1)
      && (ordersData.None? ==> s.revenue == 0 && s.customers == 0)
  {
    var os := if ordersData.Some? then ordersData.value else [];
    CustomersBounded(os);
    Summary(TotalProducts(productsData), |os|, Revenue(os), TotalCustomers(os))
  }

  /** The products card counts every product of the store, whatever the
      page size, since the admin query filters nothing. */
  lemma ProductsCardCountsStore(ps: seq<Api.Product>)
    ensures TotalProducts(Some(Api.GetProducts(ps, AdminProductQuery))) == |ps|
  {
  }
}
