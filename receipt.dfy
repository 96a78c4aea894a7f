/** The receipt page: the order looked up by the route id, its status badge
    (text and colour), the payment method as shown, the address lines, the item
    labels and the order summary. */
module Receipt {
  import opened Common
  import opened Money
  import opened Catalog
  import opened CartContext
  import opened OrderContext
  import CartPage
  import Checkout

  /** `getStatusText`: the four known statuses capitalised, any other shown as is. */
  function StatusText(status: string): (r: string)
    ensures status == "processing" ==> r == "Processing"
    ensures status == "shipped" ==> r == "Shipped"
    ensures status == "delivered" ==> r == "Delivered"
    ensures status == "cancelled" ==> r == "Cancelled"
    ensures status !in {"processing", "shipped", "delivered", "cancelled"} ==> r == status
  {
    match status
    case "processing" => "Processing"
    case "shipped" => "Shipped"
    case "delivered" => "Delivered"
    case "cancelled" => "Cancelled"
    case _ => status
  }

  /** `getStatusColor`. */
  function StatusColor(status: string): (r: string)
    ensures status == "shipped" ==> r == "#0066cc"
    ensures status == "delivered" ==> r == "#00aa00"
    ensures status == "cancelled" ==> r == "#cc0000"
    ensures status !in {"shipped", "delivered", "cancelled"} ==> r == "#666666"
  {
    match status
    case "processing" => "#666666"
    case "shipped" => "#0066cc"
    case "delivered" => "#00aa00"
    case "cancelled" => "#cc0000"
    case _ => "#666666"
  }

  /** An unknown status looks like "processing" on the badge's colour, and its
      text is the status itself. */
  lemma UnknownStatusBadge(status: string)
    requires status !in {"processing", "shipped", "delivered", "cancelled"}
    ensures StatusColor(status) == StatusColor("processing")
    ensures StatusText(status) == status
  {
  }

  /** The four known statuses get four different texts and four different
      colours; unknown statuses share the grey of "processing". */
  lemma KnownStatusesDistinct()
    ensures |{StatusText("processing"), StatusText("shipped"), StatusText("delivered"), StatusText("cancelled")}| == 4
    ensures |{StatusColor("processing"), StatusColor("shipped"), StatusColor("delivered"), StatusColor("cancelled")}| == 4
  {
  }

  /** The payment method as shown: first character upper-cased and the rest kept,
      or "Not specified" for an empty one. */
  function PaymentLabel(pm: string): (r: string)
    ensures pm == "" ==> r == "Not specified"
    ensures pm != "" ==> |r| == |pm| && r[0] == ToUpper(pm[0]) && r[1..] == pm[1..]
  {
    if |pm| > 0 then [ToUpper(pm[0])] + pm[1..] else "Not specified"
  }

  /** An order placed without choosing a payment method shows "Not specified"; one
      stored as "credit card" shows "Credit card". */
  lemma PaymentLabelExamples()
    ensures PaymentLabel("") == "Not specified"
    ensures PaymentLabel("credit card") == "Credit card"
    ensures PaymentLabel("paypal") == "Paypal"
  {
  }

  /** `x || fallback` for a text field of the address. */
  function Shown(field: string, fallback: string): (r: string)
    ensures field != "" ==> r == field
    ensures field == "" ==> r == fallback
  {
    if field != "" then field else fallback
  }

  /** The five lines of the address block ("N/A" for empty name, street, country
      and phone; city, state and zip code left blank). */
  function AddressLines(a: Address): (lines: seq<string>)
    ensures |lines| == 5
    ensures lines[0] == Shown(a.fullName, "N/A") && lines[1] == Shown(a.streetAddress, "N/A")
    ensures lines[2] == a.city + ", " + a.state + " " + a.zipCode
    ensures lines[3] == Shown(a.country, "N/A") && lines[4] == "Phone: " + Shown(a.phoneNumber, "N/A")
  {
    [Shown(a.fullName, "N/A"), Shown(a.streetAddress, "N/A"),
     a.city + ", " + a.state + " " + a.zipCode,
     Shown(a.country, "N/A"), "Phone: " + Shown(a.phoneNumber, "N/A")]
  }

  /** The info line of an item: its type and size, by the same id rule as the cart page. */
  function ItemInfo(item: LineItem): (s: string)
    ensures item.product.id >= 100 && item.product.size == "" ==> s == "Body Care - 250ml"
    ensures item.product.id < 100 && item.product.size == "" ==> s == "Eau de perfum Spray - 100ml"
    ensures item.product.size != "" ==> s == CartPage.ProductType(item.product) + " - " + item.product.size
  {
    CartPage.ProductType(item.product) + " - " + CartPage.ProductSize(item.product)
  }

  /** A summary amount: `(x || 0)` in cents, so a missing or NaN amount shows 0. */
  function SummaryCents(a: Option<Amount>): (c: int)
    ensures a.Some? && a.value.Cents? ==> c == a.value.cents
    ensures a.None? || a.value.NaN? ==> c == 0
  {
    match a
    case Some(Cents(c)) => c
    case _ => 0
  }

  /** The four lines of the order summary, in cents. */
  datatype Summary = Summary(subtotal: int, deliveryFee: int, tax: int, total: int)

  function SummaryOf(o: Order): (s: Summary)
    ensures s.subtotal == SummaryCents(Some(o.subtotal)) && s.deliveryFee == SummaryCents(Some(o.deliveryFee))
    ensures s.tax == SummaryCents(Some(o.tax)) && s.total == SummaryCents(o.total)
  {
    Summary(SummaryCents(Some(o.subtotal)), SummaryCents(Some(o.deliveryFee)),
            SummaryCents(Some(o.tax)), SummaryCents(o.total))
  }

  /** For an order whose amounts agree with its lines, the summary adds up: the
      total shown is the sum of the three lines above it. */
  lemma SummaryAddsUp(o: Order)
    requires Consistent(o) && o.subtotal.Cents? && o.deliveryFee.Cents? && o.tax.Cents?
    ensures SummaryOf(o).total == SummaryOf(o).subtotal + SummaryOf(o).deliveryFee + SummaryOf(o).tax
  {
  }

  /** What the page renders for a route id. `items` is None when the order has no
      item list, on which the page's `map` fails. */
  datatype View =
    | NotFound
    | Found(order: Order, statusText: string, statusColor: string, payment: string,
            address: Option<seq<string>>, items: Option<seq<string>>, summary: Summary)

  function ItemInfos(items: seq<LineItem>): (r: seq<string>)
    ensures |r| == |items| && forall i :: 0 <= i < |items| ==> r[i] == ItemInfo(items[i])
  {
    if items == [] then [] else [ItemInfo(items[0])] + ItemInfos(items[1..])
  }

  function ReceiptView(orders: seq<Order>, id: string): (v: View)
    ensures v.NotFound? <==> FindOrder(orders, id).None?
    ensures v.Found? ==> v.order == FindOrder(orders, id).value && v.order.id == id
    ensures v.Found? ==> v.statusText == StatusText(v.order.status) && v.statusColor == StatusColor(v.order.status)
    ensures v.Found? ==> v.payment == PaymentLabel(v.order.paymentMethod) && v.summary == SummaryOf(v.order)
    ensures v.Found? ==> v.address == if v.order.shippingAddress.Some?
                                       then Some(AddressLines(v.order.shippingAddress.value)) else None
    ensures v.Found? ==> v.items == if v.order.items.Some? then Some(ItemInfos(v.order.items.value)) else None
  {
    match FindOrder(orders, id)
    case None => NotFound
    case Some(o) =>
      Found(o, StatusText(o.status), StatusColor(o.status), PaymentLabel(o.paymentMethod),
            if o.shippingAddress.Some? then Some(AddressLines(o.shippingAddress.value)) else None,
            if o.items.Some? then Some(ItemInfos(o.items.value)) else None,
            SummaryOf(o))
  }

  /** The receipt of the order just placed shows it: a new order is found by its
      id right after creation, with status "Processing". */
  lemma ReceiptOfNewOrder(orders: seq<Order>, data: OrderData, now: nat)
    requires data.id.None? && data.status.None?
    ensures var o := NewOrder(data, now);
            var v := ReceiptView([o] + orders, o.id);
            v.Found? && v.order == o && v.statusText == "Processing"
  {
    var o := NewOrder(data, now);
    assert ([o] + orders)[0] == o;
  }

  /** The receipt of an order placed through the checkout form names a payment
      method and shows the name, street, country and phone that were entered:
      none of its "Not specified" or "N/A" defaults can appear. */
  lemma ReceiptOfCheckout(orders: seq<Order>, items: seq<LineItem>, form: Checkout.CheckoutForm, now: nat)
    requires Checkout.FormComplete(form)
    ensures var o := NewOrder(Checkout.OrderDataFrom(items, form), now);
            var v := ReceiptView([o] + orders, o.id);
            && v.Found? && v.order == o
            && v.payment != "Not specified" && v.payment[0] == ToUpper(form.paymentMethod[0])
            && v.address == Some([form.fullName, form.streetAddress,
                                  form.city + ", " + form.state + " " + form.zipCode,
                                  form.country, "Phone: " + form.phoneNumber])
  {
    var data := Checkout.OrderDataFrom(items, form);
    ReceiptOfNewOrder(orders, data, now);
    assert |form.paymentMethod| <= 6;
  }
}
