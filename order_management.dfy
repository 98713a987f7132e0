/** The admin order table: the status badge colours, the fixed list of
    statuses an admin can pick, and the status change it forwards to the store. */
module OrderManagement {
  import opened Wrappers
  import Api

  const Yellow := "bg-yellow-100 text-yellow-800"
  const Blue := "bg-blue-100 text-blue-800"
  const Green := "bg-green-100 text-green-800"
  const Red := "bg-red-100 text-red-800"
  const Gray := "bg-gray-100 text-gray-800"

  /** The options of the status select, in menu order. */
  const SelectableStatuses: seq<string> := ["pending", "shipped", "delivered", "cancelled"]

  /** `getStatusColor(status)`: the badge classes of a status. */
  function StatusColor(status: string): (c: string)
    ensures status == "pending" ==> c == Yellow
    ensures status == "shipped" ==> c == Blue
    ensures status == "delivered" ==> c == Green
    ensures status == "cancelled" ==> c == Red
    ensures status !in SelectableStatuses ==> c == Gray
  {
    match status
    case "pending" => Yellow
    case "shipped" => Blue
    case "delivered" => Green
    case "cancelled" => Red
    case _ => Gray
  }

  /** A status gets a colour other than gray exactly when an admin can select it,
      and the four selectable statuses get four different colours. */
  lemma ColorsOfSelectableStatuses(status: string)
    ensures StatusColor(status) != Gray <==> status in SelectableStatuses
    ensures forall i, j :: 0 <= i < j < |SelectableStatuses| ==>
      StatusColor(SelectableStatuses[i]) != StatusColor(SelectableStatuses[j])
  {
    if status in SelectableStatuses {
      var k :| 0 <= k < |SelectableStatuses| && SelectableStatuses[k] == status;
      assert k == 0 || k == 1 || k == 2 || k == 3;
    }
  }

  /** The request the status mutation sends. */
  datatype StatusUpdate = StatusUpdate(id: string, status: string)

  /** `handleStatusChange(orderId, newStatus)`: forwards both unchanged. */
  function HandleStatusChange(orderId: string, newStatus: string): (u: StatusUpdate)
    ensures u.id == orderId && u.status == newStatus
  {
    StatusUpdate(orderId, newStatus)
  }

  /** Picking `newStatus` for order `orderId` in the table, followed through to
      the store: that order's status becomes `newStatus` and nothing else in
      the store changes, and the mutation resolves to the updated order; an
      unknown id fails with "Order not found". */
  method ChangeStatus(store: Api.MockStore, orderId: string, newStatus: string) returns (r: Result<Api.Order, string>)
    modifies store
    ensures store.products == old(store.products)
    ensures var i := Api.OrderIndex(old(store.orders), orderId);
      if i == -1 then r == Failure(Api.OrderNotFound) && store.orders == old(store.orders)
      else && |store.orders| == |old(store.orders)|
           && r == Success(store.orders[i])
           && store.orders[i].status == newStatus
           && store.orders[i] == old(store.orders)[i].(status := newStatus)
           && forall j :: 0 <= j < |store.orders| && j != i ==> store.orders[j] == old(store.orders)[j]
  {
    var u := HandleStatusChange(orderId, newStatus);
    r := store.UpdateOrderStatus(u.id, u.status);
  }
}
