/** The checkout page: the order summary (cart subtotal plus a fixed delivery fee
    and tax), the shipping and payment form, and the submit step that turns the
    cart into an order and empties the cart. */
module Checkout {
  import opened Common
  import opened Decimal
  import opened Money
  import opened Catalog
  import opened CartContext
  import opened OrderContext

  const DeliveryFee := Cents(5999)
  const Tax := Cents(500)

  /** The amount due: subtotal + 59.99 + 5.00. */
  function OrderTotal(subtotal: Amount): (t: Amount)
    ensures subtotal.Cents? ==> t == Cents(subtotal.cents + 6499)
    ensures subtotal.NaN? ==> t.NaN?
  {
    Plus(Plus(subtotal, DeliveryFee), Tax)
  }

  datatype CheckoutForm = CheckoutForm(
    fullName: string, streetAddress: string, city: string, state: string,
    zipCode: string, country: string, phoneNumber: string, paymentMethod: string)

  /** The `name` attributes of the form's inputs. */
  datatype FormField =
    | FullName | StreetAddress | City | State | ZipCode | Country | PhoneNumber | PaymentMethod

  const EmptyForm := CheckoutForm("", "", "", "", "", "", "", "")

  /** The ids of the four payment radio buttons. */
  const PaymentIds := {"paypal", "credit", "debit", "bank"}

  /** What the browser demands before it lets the form submit: every address
      input is `required`, and so is the payment radio group, whose values are
      the four ids. */
  predicate FormComplete(form: CheckoutForm) {
    && form.fullName != "" && form.streetAddress != "" && form.city != ""
    && form.state != "" && form.zipCode != "" && form.country != ""
    && form.phoneNumber != "" && form.paymentMethod in PaymentIds
  }

  function FieldOf(form: CheckoutForm, name: FormField): string {
    match name
    case FullName => form.fullName
    case StreetAddress => form.streetAddress
    case City => form.city
    case State => form.state
    case ZipCode => form.zipCode
    case Country => form.country
    case PhoneNumber => form.phoneNumber
    case PaymentMethod => form.paymentMethod
  }

  /** `handleChange`: the named field takes the typed value; the others keep theirs. */
  function WithField(form: CheckoutForm, name: FormField, value: string): (r: CheckoutForm)
    ensures FieldOf(r, name) == value
    ensures forall other :: other != name ==> FieldOf(r, other) == FieldOf(form, other)
  {
    match name
    case FullName => form.(fullName := value)
    case StreetAddress => form.(streetAddress := value)
    case City => form.(city := value)
    case State => form.(state := value)
    case ZipCode => form.(zipCode := value)
    case Country => form.(country := value)
    case PhoneNumber => form.(phoneNumber := value)
    case PaymentMethod => form.(paymentMethod := value)
  }

  /** The object `handleSubmit` hands to `createOrder`: the cart lines, the seven
      address fields and the payment method from the form, and the three amounts
      with their total. Id, number, date and status are left to the store. */
  function OrderDataFrom(items: seq<LineItem>, form: CheckoutForm): (d: OrderData)
    ensures d.items == Some(items)
    ensures d.id.None? && d.orderNumber.None? && d.date.None? && d.status.None?
    ensures d.paymentMethod == Some(form.paymentMethod)
    ensures d.shippingAddress.Some?
    ensures d.shippingAddress.value.fullName == form.fullName
    ensures d.shippingAddress.value.streetAddress == form.streetAddress
    ensures d.shippingAddress.value.city == form.city
    ensures d.shippingAddress.value.state == form.state
    ensures d.shippingAddress.value.zipCode == form.zipCode
    ensures d.shippingAddress.value.country == form.country
    ensures d.shippingAddress.value.phoneNumber == form.phoneNumber
    ensures d.subtotal == Some(Subtotal(items)) && d.deliveryFee == Some(DeliveryFee) && d.tax == Some(Tax)
    ensures d.total == Some(OrderTotal(Subtotal(items)))
  {
    OrderData(
      id := None, orderNumber := None, date := None, status := None,
      paymentMethod := Some(form.paymentMethod),
      shippingAddress := Some(Address(form.fullName, form.streetAddress, form.city, form.state,
                                      form.zipCode, form.country, form.phoneNumber)),
      items := Some(items),
      subtotal := Some(Subtotal(items)), deliveryFee := Some(DeliveryFee), tax := Some(Tax),
      total := Some(OrderTotal(Subtotal(items))))
  }

  /** The order placed at time `now` is a fresh "processing" order whose amounts
      agree with its lines, numbered after the clock, and carrying the form's
      payment choice. */
  lemma PlacedOrderFacts(items: seq<LineItem>, form: CheckoutForm, now: nat)
    ensures var o := NewOrder(OrderDataFrom(items, form), now);
            && Consistent(o)
            && o.items == Some(items)
            && o.status == "processing"
            && o.id == NatToString(now) && o.orderNumber == "NOULA-" + o.id && o.date == now
            && o.paymentMethod == form.paymentMethod
  {
  }

  /** One $72.00 bottle: the order comes to $136.99. */
  lemma SingleBottleTotal(p: Product)
    requires p.price == "$72.00"
    ensures OrderTotal(Subtotal([LineItem(p, 1)])) == Cents(13699)
  {
    Price72();
    assert LineTotal(LineItem(p, 1)) == Cents(7200);
  }

  /** `handleSubmit` followed by the navigation it asks for. With an empty cart only
      the empty view is shown, so nothing can be submitted: the model answers None
      and changes nothing. Otherwise exactly one order, built from the cart as it is
      now, is put in front of the orders, the cart is emptied, and the receipt page
      of the new order is the next route. */
  method Submit(cart: CartStore, store: OrderStore, form: CheckoutForm, now: nat) returns (route: Option<string>)
    requires FormComplete(form)
    modifies cart, store
    ensures |old(cart.items)| == 0 ==> route == None && unchanged(cart) && unchanged(store)
    ensures cart.pendingPulls == old(cart.pendingPulls)
    ensures |old(cart.items)| > 0 ==>
              var o := NewOrder(OrderDataFrom(old(cart.items), form), now);
              && store.orders == [o] + old(store.orders)
              && cart.items == [] && !cart.pushPending && cart.Valid()
              && route == Some("/receipt/" + o.id)
  {
    if |cart.items| == 0 {
      return None;
    }
    var o := store.CreateOrder(OrderDataFrom(cart.items, form), now);
    cart.ClearCart();
    route := Some("/receipt/" + o.id);
  }

  /** The order keeps the lines the cart had at submission: changing the cart
      afterwards does not touch it. */
  method SubmitThenShop(cart: CartStore, store: OrderStore, form: CheckoutForm, now: nat, p: Product)
    requires FormComplete(form) && |cart.items| > 0
    modifies cart, store
    ensures |store.orders| > 0 && store.orders[0].items == Some(old(cart.items))
    ensures store.orders[0].id == NatToString(now)
    ensures cart.items == [LineItem(p, 1)]
  {
    var route := Submit(cart, store, form, now);
    cart.AddToCart(p, 1);
  }

  /** A cart pull sent before checkout and answered after it refills the cart
      that checkout emptied, while the order keeps the lines it was placed with. */
  method LatePullAfterCheckout(cart: CartStore, store: OrderStore, form: CheckoutForm, now: nat,
                               pulled: seq<LineItem>)
    requires FormComplete(form) && cart.Valid() && cart.auth.isAuthenticated && |cart.items| > 0
    modifies cart, store
    ensures |store.orders| > 0 && store.orders[0].items == Some(old(cart.items)) && cart.items == pulled
  {
    var sent := cart.RequestPull();
    var route := Submit(cart, store, form, now);
    cart.ReceivePull(PullOk(Some(pulled)));
  }
}
