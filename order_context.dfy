/** The order store: the list of placed orders, newest first as created, with
    lookup by id, status changes, and a sort by date that is written back into
    the store. Ids and dates come from a clock reading `now` (milliseconds)
    passed in by the caller. */
module OrderContext {
  import opened Common
  import opened Decimal
  import opened Money
  import opened Catalog
  import opened CartContext

  datatype Address = Address(
    fullName: string, streetAddress: string, city: string, state: string,
    zipCode: string, country: string, phoneNumber: string)

  /** An order record. `shippingAddress`, `items` and `total` are None when the
      record lacks the key; `createOrder` always sets the other fields. */
  datatype Order = Order(
    id: string, orderNumber: string, date: int, status: string, paymentMethod: string,
    shippingAddress: Option<Address>, items: Option<seq<LineItem>>,
    subtotal: Amount, deliveryFee: Amount, tax: Amount, total: Option<Amount>)

  /** The object given to `createOrder`; a field is None when the object lacks that key. */
  datatype OrderData = OrderData(
    id: Option<string>, orderNumber: Option<string>, date: Option<int>, status: Option<string>,
    paymentMethod: Option<string>, shippingAddress: Option<Address>, items: Option<seq<LineItem>>,
    subtotal: Option<Amount>, deliveryFee: Option<Amount>, tax: Option<Amount>, total: Option<Amount>)

  const DayMs := 24 * 60 * 60 * 1000

  /** The order `createOrder(data)` builds at time `now`. Because `...data` is
      spread after the defaults, every key the data carries wins, even over the
      generated id, number, date and status. */
  function NewOrder(data: OrderData, now: nat): (o: Order)
    ensures data.id.None? ==> o.id == NatToString(now)
    ensures data.orderNumber.None? ==> o.orderNumber == "NOULA-" + NatToString(now)
    ensures data.date.None? ==> o.date == now
    ensures data.status.None? ==> o.status == "processing"
    ensures data.paymentMethod.None? ==> o.paymentMethod == "Not specified"
    ensures data.subtotal.None? ==> o.subtotal == Cents(0)
    ensures data.deliveryFee.None? ==> o.deliveryFee == Cents(0)
    ensures data.tax.None? ==> o.tax == Cents(0)
    ensures data.id.Some? ==> o.id == data.id.value
    ensures data.orderNumber.Some? ==> o.orderNumber == data.orderNumber.value
    ensures data.date.Some? ==> o.date == data.date.value
    ensures data.status.Some? ==> o.status == data.status.value
    ensures data.paymentMethod.Some? ==> o.paymentMethod == data.paymentMethod.value
    ensures data.subtotal.Some? ==> o.subtotal == data.subtotal.value
    ensures data.deliveryFee.Some? ==> o.deliveryFee == data.deliveryFee.value
    ensures data.tax.Some? ==> o.tax == data.tax.value
    ensures o.shippingAddress == data.shippingAddress && o.items == data.items && o.total == data.total
  {
    Order(
      id := data.id.GetOr(NatToString(now)),
      orderNumber := data.orderNumber.GetOr("NOULA-" + NatToString(now)),
      date := data.date.GetOr(now),
      status := data.status.GetOr("processing"),
      paymentMethod := data.paymentMethod.GetOr("Not specified"),
      shippingAddress := data.shippingAddress,
      items := data.items,
      subtotal := data.subtotal.GetOr(Cents(0)),
      deliveryFee := data.deliveryFee.GetOr(Cents(0)),
      tax := data.tax.GetOr(Cents(0)),
      total := data.total)
  }

  /** Orders created without an id at different clock readings get different ids. */
  lemma NewOrderIdsDiffer(d1: OrderData, d2: OrderData, now1: nat, now2: nat)
    requires d1.id.None? && d2.id.None? && now1 != now2
    ensures NewOrder(d1, now1).id != NewOrder(d2, now2).id
  {
    if NatToString(now1) == NatToString(now2) {
      NatToStringInjective(now1, now2);
    }
  }

  /** Position of the first order with this id, `|orders|` when there is none. */
  function OrderIndex(orders: seq<Order>, id: string): (k: nat)
    ensures k <= |orders|
    ensures forall j :: 0 <= j < k ==> orders[j].id != id
    ensures k < |orders| ==> orders[k].id == id
  {
    if orders == [] then 0
    else if orders[0].id == id then 0
    else 1 + OrderIndex(orders[1..], id)
  }

  /** `orders.find(order => order.id === id)`. */
  function FindOrder(orders: seq<Order>, id: string): (r: Option<Order>)
    ensures r.None? <==> forall i :: 0 <= i < |orders| ==> orders[i].id != id
    ensures r.Some? ==> r.value.id == id && r.value == orders[OrderIndex(orders, id)]
  {
    var k := OrderIndex(orders, id);
    if k < |orders| then Some(orders[k]) else None
  }

  /** The `map` of `updateOrderStatus`: orders with this id get the new status and
      nothing else changes. Any status is accepted. */
  function StatusUpdated(orders: seq<Order>, id: string, status: string): (r: seq<Order>)
    ensures |r| == |orders|
    ensures forall i :: 0 <= i < |orders| && orders[i].id != id ==> r[i] == orders[i]
    ensures forall i :: 0 <= i < |orders| && orders[i].id == id ==> r[i] == orders[i].(status := status)
  {
    if orders == [] then []
    else
      var head := if orders[0].id == id then orders[0].(status := status) else orders[0];
      [head] + StatusUpdated(orders[1..], id, status)
  }

  /** After a status change, looking the order up finds it with the new status,
      and an unknown id leaves the lookup unanswered as before. */
  lemma FindAfterStatusUpdate(orders: seq<Order>, id: string, status: string)
    ensures FindOrder(StatusUpdated(orders, id, status), id) ==
            match FindOrder(orders, id)
            case Some(o) => Some(o.(status := status))
            case None => None
  {
    var r := StatusUpdated(orders, id, status);
    var k := OrderIndex(orders, id);
    if k < |orders| {
      assert OrderIndex(r, id) == k by {
        OrderIndexExact(r, id, k);
      }
    }
  }

  lemma OrderIndexExact(orders: seq<Order>, id: string, k: nat)
    requires k < |orders| && orders[k].id == id
    requires forall j :: 0 <= j < k ==> orders[j].id != id
    ensures OrderIndex(orders, id) == k
  {
    var m := OrderIndex(orders, id);
    assert !(m < k);
    assert !(k < m);
  }

  /** Newest first: dates never increase along the list. */
  predicate NewestFirst(s: seq<Order>) {
    forall i, j :: 0 <= i < j < |s| ==> s[i].date >= s[j].date
  }

  /** Put `o` in front of the first order that is not newer than it. */
  function InsertByDate(o: Order, s: seq<Order>): (r: seq<Order>)
    ensures |r| == |s| + 1
  {
    if s == [] then [o]
    else if s[0].date <= o.date then [o] + s
    else [s[0]] + InsertByDate(o, s[1..])
  }

  /** Inserting keeps every order and adds exactly the inserted one. */
  lemma {:induction false} InsertByDatePermutes(o: Order, s: seq<Order>)
    ensures multiset(InsertByDate(o, s)) == multiset(s) + multiset{o}
  {
    if s != [] && s[0].date > o.date {
      assert s == [s[0]] + s[1..];
      InsertByDatePermutes(o, s[1..]);
    }
  }

  lemma {:induction false} InsertKeepsNewestFirst(o: Order, s: seq<Order>)
    requires NewestFirst(s)
    ensures NewestFirst(InsertByDate(o, s))
  {
    if s != [] && s[0].date > o.date {
      var rest := InsertByDate(o, s[1..]);
      var r := [s[0]] + rest;
      assert r == InsertByDate(o, s);
      InsertKeepsNewestFirst(o, s[1..]);
      forall j | 0 <= j < |rest| ensures rest[j].date <= s[0].date {
        LaterIsOlder(o, s, rest[j]);
      }
    }
  }

  lemma LaterIsOlder(o: Order, s: seq<Order>, x: Order)
    requires NewestFirst(s) && s != [] && s[0].date > o.date
    requires x in InsertByDate(o, s[1..])
    ensures x.date <= s[0].date
  {
    InsertByDatePermutes(o, s[1..]);
    assert x in multiset(InsertByDate(o, s[1..]));
    if x != o {
      assert x in s[1..];
    }
  }

  /** `orders.sort((a, b) => new Date(b.date) - new Date(a.date))`: a stable sort, newest first. */
  function SortNewestFirst(s: seq<Order>): (r: seq<Order>)
    ensures multiset(r) == multiset(s)
    ensures NewestFirst(r)
  {
    if s == [] then []
    else
      assert s == [s[0]] + s[1..];
      var rest := SortNewestFirst(s[1..]);
      InsertKeepsNewestFirst(s[0], rest);
      InsertByDatePermutes(s[0], rest);
      InsertByDate(s[0], rest)
  }

  /** The orders dated `d`, in their order. */
  function WithDate(s: seq<Order>, d: int): seq<Order> {
    if s == [] then []
    else (if s[0].date == d then [s[0]] else []) + WithDate(s[1..], d)
  }

  lemma {:induction false} WithDateOfInsert(o: Order, s: seq<Order>, d: int)
    ensures WithDate(InsertByDate(o, s), d) == (if o.date == d then [o] else []) + WithDate(s, d)
  {
    var mine: seq<Order> := if o.date == d then [o] else [];
    if s == [] {
      assert InsertByDate(o, s) == [o] + [];
      WithDateCons(o, [], d);
    } else if s[0].date <= o.date {
      WithDateCons(o, s, d);
    } else {
      var head: seq<Order> := if s[0].date == d then [s[0]] else [];
      var rest := InsertByDate(o, s[1..]);
      WithDateCons(s[0], rest, d);
      WithDateOfInsert(o, s[1..], d);
      assert s == [s[0]] + s[1..];
      WithDateCons(s[0], s[1..], d);
      if s[0].date == d {
        assert mine == [];
        assert WithDate(InsertByDate(o, s), d) == head + WithDate(s[1..], d);
      } else {
        assert head == [];
        assert WithDate(InsertByDate(o, s), d) == mine + WithDate(s[1..], d);
      }
    }
  }

  /** The orders dated `d` in a list with a new head. */
  lemma WithDateCons(x: Order, t: seq<Order>, d: int)
    ensures WithDate([x] + t, d) == (if x.date == d then [x] else []) + WithDate(t, d)
  {
    assert ([x] + t)[0] == x && ([x] + t)[1..] == t;
  }

  /** The sort is stable: orders with the same date keep their relative order. */
  lemma {:induction false} SortIsStable(s: seq<Order>, d: int)
    ensures WithDate(SortNewestFirst(s), d) == WithDate(s, d)
  {
    if s != [] {
      WithDateOfInsert(s[0], SortNewestFirst(s[1..]), d);
      SortIsStable(s[1..], d);
    }
  }

  /** The totals of an order agree with its items: the subtotal is the sum of the
      line totals and the total is subtotal plus delivery fee plus tax. */
  predicate Consistent(o: Order) {
    && o.items.Some?
    && o.subtotal == Subtotal(o.items.value)
    && o.total == Some(Plus(Plus(o.subtotal, o.deliveryFee), o.tax))
  }

  function SampleAddress(): Address {
    Address("John Doe", "123 Main Street", "New York", "NY", "10001", "United States", "+1234567890")
  }

  /** A line of a sample order: the records carry no description. */
  function SampleItem(id: int, name: string, price: string, image: string, size: string, quantity: int): LineItem {
    LineItem(Product(id, name, "", price, image, size), quantity)
  }

  function SeedOrder1(now: int): Order {
    Order("1", "NOULA-20250108001", now - 5 * DayMs, "delivered", "credit card", Some(SampleAddress()),
      Some([SampleItem(1, "Velour Mist", "$72.00", "/perfume-removebg-preview (1).png", "100ml", 1)]),
      Cents(7200), Cents(5999), Cents(500), Some(Cents(13699)))
  }

  function SeedOrder2(now: int): Order {
    Order("2", "NOULA-20250105002", now - 10 * DayMs, "shipped", "paypal", Some(SampleAddress()),
      Some([SampleItem(2, "Eclat d'Aube", "$83.00", "/perfume10-removebg-preview.png", "100ml", 1),
            SampleItem(101, "Body Lotion", "$45.00", "/body_product-removebg-preview.png", "250ml", 2)]),
      Cents(17300), Cents(5999), Cents(500), Some(Cents(23799)))
  }

  function SeedOrder3(now: int): Order {
    Order("3", "NOULA-20250101003", now - 15 * DayMs, "processing", "credit card", Some(SampleAddress()),
      Some([SampleItem(3, "Whispered Iris", "$90.00", "/perfume4-removebg-preview.png", "100ml", 1)]),
      Cents(9000), Cents(5999), Cents(500), Some(Cents(15499)))
  }

  /** The three sample orders the store starts with, dated 5, 10 and 15 days before `now`. */
  function SeedOrders(now: int): seq<Order> {
    [SeedOrder1(now), SeedOrder2(now), SeedOrder3(now)]
  }

  /** The whole-dollar prices on the sample lines read exactly. */
  lemma Price72()
    ensures ParsePrice("$72.00") == Cents(7200)
  {
    assert "$72.00" == "$" + ("72" + ".00");
    ParseDollars("72");
    ValueTwoDigits("72");
  }

  lemma Price83()
    ensures ParsePrice("$83.00") == Cents(8300)
  {
    assert "$83.00" == "$" + ("83" + ".00");
    ParseDollars("83");
    ValueTwoDigits("83");
  }

  lemma Price45()
    ensures ParsePrice("$45.00") == Cents(4500)
  {
    assert "$45.00" == "$" + ("45" + ".00");
    ParseDollars("45");
    ValueTwoDigits("45");
  }

  lemma Price90()
    ensures ParsePrice("$90.00") == Cents(9000)
  {
    assert "$90.00" == "$" + ("90" + ".00");
    ParseDollars("90");
    ValueTwoDigits("90");
  }

  lemma SeedOrder1Line(now: int)
    ensures LineTotal(SeedOrder1(now).items.value[0]) == Cents(7200)
  {
    Price72();
  }

  lemma SeedOrder1Consistent(now: int)
    ensures Consistent(SeedOrder1(now))
  {
    SeedOrder1Line(now);
    OneLineConsistent(SeedOrder1(now), 7200);
  }

  lemma SeedOrder2First(now: int)
    ensures LineTotal(SeedOrder2(now).items.value[0]) == Cents(8300)
  {
    Price83();
  }

  lemma SeedOrder2Second(now: int)
    ensures LineTotal(SeedOrder2(now).items.value[1]) == Cents(9000)
  {
    Price45();
  }

  lemma SeedOrder2Consistent(now: int)
    ensures Consistent(SeedOrder2(now))
  {
    SeedOrder2First(now);
    SeedOrder2Second(now);
    TwoLineConsistent(SeedOrder2(now), 8300, 9000);
  }

  lemma SeedOrder3Line(now: int)
    ensures LineTotal(SeedOrder3(now).items.value[0]) == Cents(9000)
  {
    Price90();
  }

  lemma SeedOrder3Consistent(now: int)
    ensures Consistent(SeedOrder3(now))
  {
    SeedOrder3Line(now);
    OneLineConsistent(SeedOrder3(now), 9000);
  }

  /** The subtotal of a single line is that line's total. */
  lemma SubtotalOfOne(s: seq<LineItem>, c: int)
    requires |s| == 1 && LineTotal(s[0]) == Cents(c)
    ensures Subtotal(s) == Cents(c)
  {
    assert s[1..] == [];
  }

  /** An order of one line is consistent when its subtotal is that line's total
      and its total adds up. */
  lemma OneLineConsistent(o: Order, c: int)
    requires o.items.Some? && |o.items.value| == 1 && LineTotal(o.items.value[0]) == Cents(c)
    requires o.subtotal == Cents(c) && o.deliveryFee.Cents? && o.tax.Cents?
    requires o.total == Some(Cents(c + o.deliveryFee.cents + o.tax.cents))
    ensures Consistent(o)
  {
    SubtotalOfOne(o.items.value, c);
  }

  /** The subtotal of two lines is the sum of their totals. */
  lemma SubtotalOfTwo(s: seq<LineItem>, c1: int, c2: int)
    requires |s| == 2 && LineTotal(s[0]) == Cents(c1) && LineTotal(s[1]) == Cents(c2)
    ensures Subtotal(s) == Cents(c1 + c2)
  {
    var tail := s[1..];
    assert tail[0] == s[1];
    SubtotalOfOne(tail, c2);
  }

  /** An order of two lines is consistent when its subtotal is the sum of the
      lines' totals and its total adds up. */
  lemma TwoLineConsistent(o: Order, c1: int, c2: int)
    requires o.items.Some? && |o.items.value| == 2
    requires LineTotal(o.items.value[0]) == Cents(c1) && LineTotal(o.items.value[1]) == Cents(c2)
    requires o.subtotal == Cents(c1 + c2) && o.deliveryFee.Cents? && o.tax.Cents?
    requires o.total == Some(Cents(c1 + c2 + o.deliveryFee.cents + o.tax.cents))
    ensures Consistent(o)
  {
    SubtotalOfTwo(o.items.value, c1, c2);
  }

  /** The sample orders are consistent: e.g. 83 + 2 x 45 = 173 and 173 + 59.99 + 5 = 237.99. */
  lemma SeedOrdersConsistent(now: int)
    ensures forall o :: o in SeedOrders(now) ==> Consistent(o)
  {
    forall o | o in SeedOrders(now) ensures Consistent(o) {
      if o == SeedOrder1(now) {
        SeedOrder1Consistent(now);
      } else if o == SeedOrder2(now) {
        SeedOrder2Consistent(now);
      } else {
        assert o == SeedOrder3(now);
        SeedOrder3Consistent(now);
      }
    }
  }

  /** The sample orders are already listed newest first. */
  lemma SeedOrdersNewestFirst(now: int)
    ensures NewestFirst(SeedOrders(now))
  {
    var s := SeedOrders(now);
    assert s[0].date > s[1].date > s[2].date;
  }

  class OrderStore {
    var orders: seq<Order>

    constructor (now: int)
      ensures orders == SeedOrders(now)
    {
      orders := SeedOrders(now);
    }

    function GetOrderById(id: string): (r: Option<Order>)
      reads this
      ensures r.None? <==> forall i :: 0 <= i < |orders| ==> orders[i].id != id
      ensures r.Some? ==> r.value.id == id && r.value == orders[OrderIndex(orders, id)]
    {
      FindOrder(orders, id)
    }

    /** Prepend the new order and hand back the very record stored. */
    method CreateOrder(data: OrderData, now: nat) returns (o: Order)
      modifies this
      ensures o == NewOrder(data, now)
      ensures orders == [o] + old(orders)
      ensures GetOrderById(o.id) == Some(o)
    {
      o := NewOrder(data, now);
      orders := [o] + orders;
    }

    method UpdateOrderStatus(id: string, status: string)
      modifies this
      ensures orders == StatusUpdated(old(orders), id, status)
    {
      orders := StatusUpdated(orders, id, status);
    }

    /** Sorts the held list in place (newest first) and returns it. */
    method GetAllOrders() returns (r: seq<Order>)
      modifies this
      ensures orders == SortNewestFirst(old(orders)) && r == orders
      ensures NewestFirst(r) && multiset(r) == multiset(old(orders))
    {
      orders := SortNewestFirst(orders);
      r := orders;
    }
  }
}
