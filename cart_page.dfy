/** The cart page: the per-line size and type labels, the order summary, the
    quantity buttons that go through the cart store, and the checkout button. */
module CartPage {
  import opened Common
  import opened Money
  import opened Catalog
  import opened AuthContext
  import opened CartContext
  import Checkout

  /** `getProductSize`: the product's own size when it has one, else 250ml for a
      body product (id from 100 on) and 100ml for a perfume. */
  function ProductSize(p: Product): (s: string)
    ensures s != ""
    ensures p.size != "" ==> s == p.size
    ensures p.size == "" && p.id >= 100 ==> s == "250ml"
    ensures p.size == "" && p.id < 100 ==> s == "100ml"
  {
    if p.size != "" then p.size else DefaultSize(p.id)
  }

  /** `getProductType`: body care exactly for ids from 100 on. */
  function ProductType(p: Product): (s: string)
    ensures s == "Body Care" <==> p.id >= 100
    ensures p.id < 100 ==> s == "Eau de perfum Spray"
  {
    if p.id >= 100 then "Body Care" else "Eau de perfum Spray"
  }

  /** The summary total: the cart's subtotal plus delivery fee and tax. */
  function Total(items: seq<LineItem>): (t: Amount)
    ensures items == [] ==> t == Cents(6499)
    ensures Subtotal(items).Cents? ==> t == Cents(Subtotal(items).cents + 6499)
    ensures Subtotal(items).NaN? ==> t.NaN?
  {
    Checkout.OrderTotal(Subtotal(items))
  }

  /** `handleQuantityChange`: a line in the cart gets its quantity moved by `change`
      through `updateQuantity` (so reaching 0 or less removes it); an id not in
      the cart changes nothing. */
  method HandleQuantityChange(cart: CartStore, id: int, change: int)
    modifies cart
    ensures !HasId(old(cart.items), id) ==> unchanged(cart)
    ensures HasId(old(cart.items), id) ==>
              var q := Find(old(cart.items), id).value.quantity + change;
              && cart.items == Updated(old(cart.items), id, q)
              && cart.Valid() && cart.pushPending == SyncScheduled(cart.auth.isAuthenticated, cart.items)
    ensures HasId(old(cart.items), id) && Find(old(cart.items), id).value.quantity + change < 1 ==>
              !HasId(cart.items, id) && |cart.items| < |old(cart.items)|
    ensures CartInvariant(old(cart.items)) ==> CartInvariant(cart.items)
    ensures cart.pendingPulls == old(cart.pendingPulls)
  {
    var item := Find(cart.items, id);
    if item.Some? {
      cart.UpdateQuantity(id, item.value.quantity + change);
    }
  }

  /** Where "Proceed to Checkout" leads. */
  datatype Route =
    | LoginRoute(from: string, returnTo: string)
    | CheckoutRoute

  function ProceedToCheckout(isAuthenticated: bool): (r: Route)
    ensures r.CheckoutRoute? <==> isAuthenticated
    ensures !isAuthenticated ==> r == LoginRoute("/cart", "/checkout")
  {
    if !isAuthenticated then LoginRoute("/cart", "/checkout") else CheckoutRoute
  }

  /** The page's own effect on a change of the authentication state: a non-empty
      cart is pushed at once when the user is now signed in. */
  method OnAuthenticationChange(cart: CartStore) returns (sent: Option<seq<LineItem>>)
    ensures sent.Some? <==> cart.auth.isAuthenticated && |cart.items| > 0
    ensures sent.Some? ==> sent.value == cart.items
  {
    sent := None;
    if cart.auth.isAuthenticated && |cart.items| > 0 {
      sent := cart.SyncWithApi();
    }
  }
}
