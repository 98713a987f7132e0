/** The user dashboard's order counters: all orders, and those pending,
    shipped and delivered. */
module DashboardStats {
  import opened Wrappers
  import Api
  import Js
  import AuthContext
  import Checkout

  datatype Stats = Stats(total: nat, pending: nat, shipped: nat, delivered: nat)

  /** `const { data: orders = [] } = useQuery({ ..., enabled: !!user })`: with no
      user the query never runs, and until data arrives the list is empty. */
  function QueriedOrders(user: Option<AuthContext.User>, data: Option<seq<Api.Order>>): (os: seq<Api.Order>)
    ensures user.None? || data.None? ==> os == []
    ensures user.Some? && data.Some? ==> os == data.value
  {
    if user.Some? && data.Some? then data.value else []
  }

  /** The query's data as written: `getOrders(user?.id)` passes the user's
      numeric id to a filter over string ids (the recent-orders card runs the
      same query). With no user the query is disabled and yields no data. */
  function FetchedAsWritten(os: seq<Api.Order>, user: Option<AuthContext.User>): (data: Option<seq<Api.Order>>)
    ensures user.None? <==> data.None?
  {
    if user.Some? then Some(Api.GetOrdersWith(os, Some(Js.Num(user.value.id)))) else None
  }

  /** A signed-in user with a non-zero id is shown no orders, even when the
      store holds orders placed under that id; the seeded user "2" owns both
      seeded orders and sees a total of zero. */
  lemma SignedInUserSeesNoOrders(os: seq<Api.Order>, u: AuthContext.User)
    requires u.id != 0
    ensures QueriedOrders(Some(u), FetchedAsWritten(os, Some(u))) == []
    ensures u.id == 2 ==>
      && |Api.GetOrders(Api.SeedOrders(), Some(Checkout.UserIdString(Some(u))))| == 2
      && DashboardCounts(QueriedOrders(Some(u), FetchedAsWritten(Api.SeedOrders(), Some(u)))).total == 0
  {
    Api.GetOrdersWithNumber(os, u.id);
    Api.GetOrdersWithNumber(Api.SeedOrders(), u.id);
    if u.id == 2 {
      var s := Api.SeedOrders();
      assert Checkout.UserIdString(Some(u)) == "2";
      assert s[0].userId == "2" && s[1].userId == "2";
      assert Api.GetOrders(s, Some("2")) == s by {
        Js.FilterAll((o: Api.Order) => o.userId == "2", s);
      }
    }
  }

  /** As written, a user whose id is 0 makes the falsy argument skip the
      filter and is shown every order in the store. */
  lemma ZeroIdSeesEveryOrder(os: seq<Api.Order>, u: AuthContext.User)
    requires u.id == 0
    ensures QueriedOrders(Some(u), FetchedAsWritten(os, Some(u))) == os
  {
  }

  /** The query as evidently intended: the user's id converted with `String`,
      the same conversion the checkout uses when it stores an order's `userId`. */
  function Fetched(os: seq<Api.Order>, user: Option<AuthContext.User>): (data: Option<seq<Api.Order>>)
    ensures user.None? <==> data.None?
  {
    if user.Some? then Some(Api.GetOrders(os, Some(Checkout.UserIdString(user)))) else None
  }

  /** With the intended query, a signed-in user sees exactly the orders placed
      under their own id, in store order. */
  lemma UserSeesOwnOrders(os: seq<Api.Order>, u: AuthContext.User)
    ensures var shown := QueriedOrders(Some(u), Fetched(os, Some(u)));
      && (forall i :: 0 <= i < |shown| ==> shown[i] in os && shown[i].userId == Checkout.UserIdString(Some(u)))
      && (forall i :: 0 <= i < |os| && os[i].userId == Checkout.UserIdString(Some(u)) ==> os[i] in shown)
      && Js.IsSubsequence(shown, os)
  {
    Checkout.UserIdStringIdentifies(u, u);
    Api.UserOrdersInStoreOrder(os, Some(Checkout.UserIdString(Some(u))));
  }

  /** With the intended query, an order the checkout placed for another user
      never appears on this user's dashboard. */
  lemma OthersOrdersHidden(os: seq<Api.Order>, u: AuthContext.User, v: AuthContext.User, i: nat)
    requires i < |os| && os[i].userId == Checkout.UserIdString(Some(v)) && v.id != u.id
    ensures os[i] !in QueriedOrders(Some(u), Fetched(os, Some(u)))
  {
    var shown := QueriedOrders(Some(u), Fetched(os, Some(u)));
    UserSeesOwnOrders(os, u);
    if os[i] in shown {
      var k :| 0 <= k < |shown| && shown[k] == os[i];
      Checkout.UserIdStringIdentifies(v, u);
    }
  }

  /** `orders.filter((o) => o.status === status).length`. */
  function CountStatus(os: seq<Api.Order>, status: string): (n: nat)
    ensures n <= |os|
    ensures n == 0 <==> forall i :: 0 <= i < |os| ==> os[i].status != status
  {
    var r := Js.Filter((o: Api.Order) => o.status == status, os);
    assert |r| > 0 ==> exists i :: 0 <= i < |os| && os[i] == r[0];
    |r|
  }

  lemma {:induction false} CountStatusUnfold(os: seq<Api.Order>, status: string)
    requires os != []
    ensures CountStatus(os, status) == (if os[0].status == status then 1 else 0) + CountStatus(os[1..], status)
  {
  }

  /** The four counters. */
  function DashboardCounts(os: seq<Api.Order>): (s: Stats)
    ensures s.total == |os|
    ensures s.pending == CountStatus(os, "pending")
    ensures s.shipped == CountStatus(os, "shipped")
    ensures s.delivered == CountStatus(os, "delivered")
  {
    Stats(|os|, CountStatus(os, "pending"), CountStatus(os, "shipped"), CountStatus(os, "delivered"))
  }

  /** Each order has one status, so the three status counters together never
      exceed the total. */
  lemma {:induction false} CountsBounded(os: seq<Api.Order>)
    ensures var s := DashboardCounts(os);
      s.pending + s.shipped + s.delivered <= s.total
      && s.pending <= s.total && s.shipped <= s.total && s.delivered <= s.total
  {
    if os != [] {
      CountsBounded(os[1..]);
      CountStatusUnfold(os, "pending");
      CountStatusUnfold(os, "shipped");
      CountStatusUnfold(os, "delivered");
    }
  }

  /** Without a signed-in user every counter is zero. */
  lemma NoUserNoCounts(data: Option<seq<Api.Order>>)
    ensures DashboardCounts(QueriedOrders(None, data)) == Stats(0, 0, 0, 0)
  {
  }

  /** Setting one order's status to `status` (as the admin's status change does)
      adds that order to the count of `status` unless it already had it. */
  lemma {:induction false} StatusWriteCount(os: seq<Api.Order>, i: nat, status: string)
    requires i < |os|
    ensures CountStatus(os[i := os[i].(status := status)], status)
         == CountStatus(os, status) + (if os[i].status == status then 0 else 1)
  {
    var after := os[i := os[i].(status := status)];
    CountStatusUnfold(os, status);
    CountStatusUnfold(after, status);
    if i > 0 {
      assert after[1..] == os[1..][i - 1 := os[i].(status := status)];
      StatusWriteCount(os[1..], i - 1, status);
    } else {
      assert after[1..] == os[1..];
    }
  }
}
