/** The checkout page: the redirect away from an empty cart, the form's
    default values, the order built from the cart and the form on submit, and
    what happens once the store accepted it. The cart itself belongs to a cart
    context that is not part of this model; only the item fields the page
    reads appear here. */
module Checkout {
  import opened Wrappers
  import Api
  import Js
  import AuthContext

  /** The fields of a cart item the checkout reads. */
  datatype CartItem = CartItem(id: string, quantity: int, price: int)

  datatype CheckoutForm = CheckoutForm(
    firstName: string, lastName: string, email: string, address: string, city: string,
    state: string, zipCode: string, cardNumber: string, expiryDate: string, cvv: string)

  /** The side effects of the page, in the order it performs them. */
  datatype Effect = Navigate(path: string) | ClearCart | Toast(title: string, description: string)

  const CartPath := "/cart"
  const DashboardPath := "/dashboard"
  const PendingStatus := "pending"
  /** `String(undefined)`. */
  const Undefined := "undefined"

  /** The effect on `items.length`: an empty cart sends the shopper back to the cart. */
  function EmptyCartRedirect(items: seq<CartItem>): (effects: seq<Effect>)
    ensures |items| == 0 ==> effects == [Navigate(CartPath)]
    ensures |items| != 0 ==> effects == []
  {
    if |items| == 0 then [Navigate(CartPath)] else []
  }

  /** The form's `defaultValues`: the user's email when there is one, every
      other field empty. */
  function DefaultForm(user: Option<AuthContext.User>): (f: CheckoutForm)
    ensures f.email == if user.Some? then user.value.email else ""
    ensures f.firstName == f.lastName == f.address == f.city == f.state == f.zipCode == ""
    ensures f.cardNumber == f.expiryDate == f.cvv == ""
  {
    var email := if user.Some? && user.value.email != "" then user.value.email else "";
    CheckoutForm("", "", email, "", "", "", "", "", "", "")
  }

  /** `items.map((item) => ({ productId: item.id, quantity: item.quantity, price: item.price }))`. */
  function OrderItems(items: seq<CartItem>): (r: seq<Api.OrderItem>)
    ensures |r| == |items|
    ensures forall i :: 0 <= i < |items| ==>
      r[i].productId == items[i].id && r[i].quantity == items[i].quantity && r[i].price == items[i].price
  {
    if items == [] then []
    else [Api.OrderItem(items[0].id, items[0].quantity, items[0].price)] + OrderItems(items[1..])
  }

  /** `${address}, ${city}, ${state} ${zipCode}`. */
  function ShippingAddress(f: CheckoutForm): (s: string)
    ensures |s| == |f.address| + |f.city| + |f.state| + |f.zipCode| + 5
    ensures var a, c, t := |f.address|, |f.city|, |f.state|;
      && s[..a] == f.address
      && s[a..a + 2] == ", "
      && s[a + 2..a + 2 + c] == f.city
      && s[a + 2 + c..a + 4 + c] == ", "
      && s[a + 4 + c..a + 4 + c + t] == f.state
      && s[a + 4 + c + t] == ' '
      && s[a + 5 + c + t..] == f.zipCode
  {
    var a, c, t := |f.address|, |f.city|, |f.state|;
    var s := f.address + ", " + f.city + ", " + f.state + " " + f.zipCode;
    assert s[a + 2..a + 2 + c] == f.city;
    assert s[a + 4 + c..a + 4 + c + t] == f.state;
    s
  }

  /** The joined address keeps each field apart: two forms whose fields have
      the same lengths give the same address exactly when every field agrees. */
  lemma ShippingAddressFields(f: CheckoutForm, g: CheckoutForm)
    requires |f.address| == |g.address| && |f.city| == |g.city| && |f.state| == |g.state|
    ensures ShippingAddress(f) == ShippingAddress(g) <==>
      f.address == g.address && f.city == g.city && f.state == g.state && f.zipCode == g.zipCode
  {
    var s, r := ShippingAddress(f), ShippingAddress(g);
    if s == r {
      var a, c, t := |f.address|, |f.city|, |f.state|;
      assert f.address == s[..a] == r[..a] == g.address;
      assert f.city == s[a + 2..a + 2 + c] == r[a + 2..a + 2 + c] == g.city;
      assert f.state == s[a + 4 + c..a + 4 + c + t] == r[a + 4 + c..a + 4 + c + t] == g.state;
      assert f.zipCode == s[a + 5 + c + t..] == r[a + 5 + c + t..] == g.zipCode;
    }
  }

  /** `String(user?.id)`. */
  function UserIdString(user: Option<AuthContext.User>): (s: string)
    ensures user.None? ==> s == Undefined
  {
    if user.Some? then Js.IntToString(user.value.id) else Undefined
  }

  /** Order `userId`s tell users apart, and a signed-in user's is never "undefined". */
  lemma UserIdStringIdentifies(u: AuthContext.User, v: AuthContext.User)
    ensures UserIdString(Some(u)) == UserIdString(Some(v)) ==> u.id == v.id
    ensures UserIdString(Some(u)) != Undefined
  {
    if UserIdString(Some(u)) == UserIdString(Some(v)) {
      Js.IntToStringInjective(u.id, v.id);
    }
    var s := Js.IntToString(u.id);
    if u.id >= 0 {
      assert '0' <= s[0] <= '9';
    }
    assert s[0] != 'u';
  }

  /** `onSubmit(data)`: the order sent to `createOrder`. `total` stands for the
      tax-inclusive cart total, which the page computes in floating point. */
  function BuildOrder(user: Option<AuthContext.User>, items: seq<CartItem>, form: CheckoutForm, total: int): (o: Api.OrderDraft)
    ensures o.status == PendingStatus
    ensures o.userId == UserIdString(user)
    ensures |o.items| == |items|
    ensures forall i :: 0 <= i < |items| ==>
      o.items[i].productId == items[i].id && o.items[i].quantity == items[i].quantity && o.items[i].price == items[i].price
    ensures o.total == total
    ensures o.shippingAddress == ShippingAddress(form)
  {
    Api.OrderDraft(UserIdString(user), OrderItems(items), total, PendingStatus, ShippingAddress(form))
  }

  const SuccessTitle := "Order placed successfully!"
  const SuccessDescription := "Thank you for your purchase. You will receive a confirmation email shortly."

  /** `onSuccess` of the order mutation: empty the cart, confirm, go to the dashboard. */
  function OrderPlacedEffects(): (effects: seq<Effect>)
    ensures |effects| == 3 && effects[0] == ClearCart && effects[|effects| - 1] == Navigate(DashboardPath)
    ensures effects[1] == Toast(SuccessTitle, SuccessDescription)
  {
    [ClearCart, Toast(SuccessTitle, SuccessDescription), Navigate(DashboardPath)]
  }

  /** Submitting the form: the built order is appended to the store as a new
      pending order of this user, and the success effects follow. `newId` and
      `createdAt` stand for the store's clock readings. */
  method Submit(store: Api.MockStore, user: Option<AuthContext.User>, items: seq<CartItem>,
                form: CheckoutForm, total: int, newId: string, createdAt: string)
    returns (o: Api.Order, effects: seq<Effect>)
    modifies store
    ensures store.orders == old(store.orders) + [o] && store.products == old(store.products)
    ensures o.id == newId && o.createdAt == createdAt
    ensures o.status == PendingStatus && o.userId == UserIdString(user) && o.total == total
    ensures o.items == OrderItems(items) && o.shippingAddress == ShippingAddress(form)
    ensures effects == OrderPlacedEffects()
  {
    var draft := BuildOrder(user, items, form, total);
    o := store.CreateOrder(draft, newId, createdAt);
    effects := OrderPlacedEffects();
  }
}
