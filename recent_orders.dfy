/** The dashboard's recent-orders card: the first five of the user's orders,
    or a "No orders yet" message. Its badge colours are the four-way switch of
    `OrderManagement.StatusColor`, which this card repeats verbatim. */
module RecentOrders {
  import opened Wrappers
  import Api
  import Js
  import OrderManagement
  import AuthContext
  import DashboardStats

  const RecentCount := 5

  /** `orders.slice(0, 5)`. */
  function Recent(orders: seq<Api.Order>): (r: seq<Api.Order>)
    ensures |r| <= RecentCount && |r| <= |orders|
    ensures r == orders[..|r|]
    ensures |orders| <= RecentCount ==> r == orders
    ensures |orders| >= RecentCount ==> |r| == RecentCount
  {
    Js.Slice(orders, 0, RecentCount)
  }

  /** What the card's body shows. */
  datatype View = Loading | NoOrders | Rows(orders: seq<Api.Order>)

  function CardView(isLoading: bool, orders: seq<Api.Order>): (v: View)
    ensures isLoading ==> v == Loading
    ensures !isLoading ==> (v == NoOrders <==> orders == [])
    ensures !isLoading && orders != [] ==> v == Rows(Recent(orders)) && Recent(orders) != []
  {
    var recent := Recent(orders);
    if isLoading then Loading
    else if |recent| == 0 then NoOrders
    else Rows(recent)
  }

  /** Every order the card shows gets a gray badge exactly when its status is
      not one an admin can select, and otherwise its status's own colour. */
  lemma ShownBadges(orders: seq<Api.Order>)
    ensures forall i :: 0 <= i < |Recent(orders)| ==>
      (OrderManagement.StatusColor(Recent(orders)[i].status) == OrderManagement.Gray <==>
       Recent(orders)[i].status !in OrderManagement.SelectableStatuses)
  {
    var shown := Recent(orders);
    forall i | 0 <= i < |shown|
      ensures OrderManagement.StatusColor(shown[i].status) == OrderManagement.Gray <==>
              shown[i].status !in OrderManagement.SelectableStatuses
    {
      OrderManagement.ColorsOfSelectableStatuses(shown[i].status);
    }
  }

  /** Under the query as written, a signed-in user with a non-zero id always
      gets "No orders yet" once loading ends; under the intended query, the
      card shows the first five of the user's own orders. */
  lemma CardForSignedInUser(os: seq<Api.Order>, u: AuthContext.User)
    ensures u.id != 0 ==>
      CardView(false, DashboardStats.QueriedOrders(Some(u), DashboardStats.FetchedAsWritten(os, Some(u)))) == NoOrders
    ensures var shown := DashboardStats.QueriedOrders(Some(u), DashboardStats.Fetched(os, Some(u)));
      shown != [] ==> CardView(false, shown) == Rows(shown[..|Recent(shown)|])
  {
    if u.id != 0 {
      DashboardStats.SignedInUserSeesNoOrders(os, u);
    }
  }
}
