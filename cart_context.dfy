/** The cart store: an ordered list of line items keyed by product id, the
    folds over it, and its remote pull and debounced push, both gated on the
    authentication session. Each mutation builds the new list with a pure
    function below and installs it in the store. */
module CartContext {
  import opened Common
  import opened Money
  import opened Catalog
  import opened AuthContext

  /** `{ ...product, quantity }`: a product record together with how many of it. */
  datatype LineItem = LineItem(product: Product, quantity: int)

  predicate HasId(items: seq<LineItem>, id: int) {
    exists i :: 0 <= i < |items| && items[i].product.id == id
  }

  /** Position of the first item with this id, `|items|` when there is none. */
  function IndexOf(items: seq<LineItem>, id: int): (k: nat)
    ensures k <= |items|
    ensures forall j :: 0 <= j < k ==> items[j].product.id != id
    ensures k < |items| ==> items[k].product.id == id
  {
    if items == [] then 0
    else if items[0].product.id == id then 0
    else 1 + IndexOf(items[1..], id)
  }

  /** `items.find(item => item.id === id)`. */
  function Find(items: seq<LineItem>, id: int): (r: Option<LineItem>)
    ensures r.None? <==> !HasId(items, id)
    ensures r.Some? ==> r.value.product.id == id && r.value == items[IndexOf(items, id)]
  {
    var k := IndexOf(items, id);
    if k < |items| then Some(items[k]) else None
  }

  /** One line per product id. */
  predicate UniqueIds(items: seq<LineItem>) {
    forall i, j :: 0 <= i < j < |items| ==> items[i].product.id != items[j].product.id
  }

  predicate PositiveQuantities(items: seq<LineItem>) {
    forall i :: 0 <= i < |items| ==> items[i].quantity >= 1
  }

  /** The invariant the store keeps while its callers pass positive quantities. */
  predicate CartInvariant(items: seq<LineItem>) {
    UniqueIds(items) && PositiveQuantities(items)
  }

  /** The `map` of `addToCart`: items with this id get `q` more, the rest stay. */
  function Bumped(items: seq<LineItem>, id: int, q: int): (r: seq<LineItem>)
    ensures |r| == |items|
    ensures forall i :: 0 <= i < |items| ==> r[i].product == items[i].product
    ensures forall i :: 0 <= i < |items| && items[i].product.id != id ==> r[i] == items[i]
    ensures forall i :: 0 <= i < |items| && items[i].product.id == id ==> r[i].quantity == items[i].quantity + q
  {
    if items == [] then []
    else
      var head := if items[0].product.id == id then items[0].(quantity := items[0].quantity + q) else items[0];
      [head] + Bumped(items[1..], id, q)
  }

  /** The `map` of `updateQuantity`: items with this id get quantity `q`, the rest stay. */
  function Requantified(items: seq<LineItem>, id: int, q: int): (r: seq<LineItem>)
    ensures |r| == |items|
    ensures forall i :: 0 <= i < |items| ==> r[i].product == items[i].product
    ensures forall i :: 0 <= i < |items| && items[i].product.id != id ==> r[i] == items[i]
    ensures forall i :: 0 <= i < |items| && items[i].product.id == id ==> r[i].quantity == q
  {
    if items == [] then []
    else
      var head := if items[0].product.id == id then items[0].(quantity := q) else items[0];
      [head] + Requantified(items[1..], id, q)
  }

  /** The `filter` of `removeFromCart`: the items with another id, in their order. */
  function Removed(items: seq<LineItem>, id: int): (r: seq<LineItem>)
    ensures forall x :: x in r <==> x in items && x.product.id != id
    ensures IsSubsequence(r, items)
    ensures !HasId(items, id) ==> r == items
    ensures HasId(items, id) ==> |r| < |items|
    ensures forall x :: multiset(r)[x] == if x.product.id != id then multiset(items)[x] else 0
  {
    if items == [] then []
    else
      assert items == [items[0]] + items[1..];
      if items[0].product.id == id then Removed(items[1..], id)
      else [items[0]] + Removed(items[1..], id)
  }

  /** The new list `addToCart(product, q)` installs. */
  function Added(items: seq<LineItem>, p: Product, q: int): (r: seq<LineItem>)
    ensures HasId(items, p.id) ==> |r| == |items|
    ensures !HasId(items, p.id) ==> r == items + [LineItem(p, q)]
    ensures forall i :: 0 <= i < |items| && items[i].product.id != p.id ==> r[i] == items[i]
    ensures forall i :: 0 <= i < |items| && items[i].product.id == p.id ==>
              r[i] == items[i].(quantity := items[i].quantity + q)
  {
    if Find(items, p.id).Some? then Bumped(items, p.id, q) else items + [LineItem(p, q)]
  }

  /** The new list `updateQuantity(id, q)` installs: below 1 it is a removal. */
  function Updated(items: seq<LineItem>, id: int, q: int): (r: seq<LineItem>)
    ensures q < 1 ==> r == Removed(items, id)
    ensures q >= 1 ==> |r| == |items|
    ensures q >= 1 ==> forall i :: 0 <= i < |items| ==>
              r[i] == if items[i].product.id == id then items[i].(quantity := q) else items[i]
  {
    if q < 1 then Removed(items, id) else Requantified(items, id, q)
  }

  /** `getCartItemCount`: the sum of the quantities. */
  function ItemCount(items: seq<LineItem>): (n: int)
    ensures items == [] ==> n == 0
    ensures PositiveQuantities(items) ==> n >= |items|
  {
    if items == [] then 0 else items[0].quantity + ItemCount(items[1..])
  }

  /** One line's contribution to `getTotalPrice`: unit price times quantity. */
  function LineTotal(item: LineItem): Amount {
    Times(ParsePrice(item.product.price), item.quantity)
  }

  /** `getTotalPrice`, in cents: the sum of the line totals (NaN as soon as one price does not parse). */
  function Subtotal(items: seq<LineItem>): (r: Amount)
    ensures items == [] ==> r == Cents(0)
  {
    if items == [] then Cents(0) else Plus(LineTotal(items[0]), Subtotal(items[1..]))
  }

  lemma {:induction false} ItemCountAppend(a: seq<LineItem>, b: seq<LineItem>)
    ensures ItemCount(a + b) == ItemCount(a) + ItemCount(b)
  {
    if a != [] {
      assert (a + b)[0] == a[0] && (a + b)[1..] == a[1..] + b;
      ItemCountAppend(a[1..], b);
    } else {
      assert a + b == b;
    }
  }

  lemma {:induction false} SubtotalAppend(a: seq<LineItem>, b: seq<LineItem>)
    ensures Subtotal(a + b) == Plus(Subtotal(a), Subtotal(b))
  {
    if a != [] {
      assert (a + b)[0] == a[0] && (a + b)[1..] == a[1..] + b;
      SubtotalAppend(a[1..], b);
    } else {
      assert a + b == b;
    }
  }

  /** With one line per id, bumping an id changes the count by `q` when the id is present. */
  lemma {:induction false} BumpedItemCount(items: seq<LineItem>, id: int, q: int)
    requires UniqueIds(items)
    ensures ItemCount(Bumped(items, id, q)) == ItemCount(items) + (if HasId(items, id) then q else 0)
  {
    if items != [] {
      var tail := items[1..];
      var head := if items[0].product.id == id then items[0].(quantity := items[0].quantity + q) else items[0];
      var rest := Bumped(tail, id, q);
      assert Bumped(items, id, q) == [head] + rest;
      assert ([head] + rest)[1..] == rest;
      assert ItemCount([head] + rest) == head.quantity + ItemCount(rest);
      if items[0].product.id == id {
        assert !HasId(tail, id);
        assert rest == tail;
      } else {
        assert HasId(items, id) == HasId(tail, id) by {
          if HasId(items, id) {
            var i :| 0 <= i < |items| && items[i].product.id == id;
            assert tail[i - 1] == items[i];
          }
        }
        BumpedItemCount(tail, id, q);
      }
    }
  }

  /** With one line per id, `addToCart(p, q)` raises the item count by exactly `q`. */
  lemma AddedItemCount(items: seq<LineItem>, p: Product, q: int)
    requires UniqueIds(items)
    ensures ItemCount(Added(items, p, q)) == ItemCount(items) + q
  {
    if HasId(items, p.id) {
      BumpedItemCount(items, p.id, q);
    } else {
      ItemCountAppend(items, [LineItem(p, q)]);
    }
  }

  /** Adding a positive quantity keeps one line per id and all quantities positive. */
  lemma AddedKeepsInvariant(items: seq<LineItem>, p: Product, q: int)
    requires CartInvariant(items) && q >= 1
    ensures CartInvariant(Added(items, p, q))
  {
  }

  lemma {:induction false} RemovedKeepsUnique(items: seq<LineItem>, id: int)
    requires UniqueIds(items)
    ensures UniqueIds(Removed(items, id))
  {
    if items != [] {
      RemovedKeepsUnique(items[1..], id);
      var rest := Removed(items[1..], id);
      forall x | x in rest ensures x.product.id != items[0].product.id {
        var i :| 0 <= i < |items[1..]| && items[1..][i] == x;
        assert items[i + 1] == x;
      }
      if items[0].product.id != id {
        var r := [items[0]] + rest;
        assert Removed(items, id) == r;
        forall i, j | 0 <= i < j < |r| ensures r[i].product.id != r[j].product.id {
          assert r[j] == rest[j - 1] && r[j] in rest;
          if i > 0 {
            assert r[i] == rest[i - 1];
          }
        }
      }
    }
  }

  /** Every `updateQuantity`, whatever the quantity, keeps the invariant. */
  lemma UpdatedKeepsInvariant(items: seq<LineItem>, id: int, q: int)
    requires CartInvariant(items)
    ensures CartInvariant(Updated(items, id, q))
  {
    if q < 1 {
      RemovedKeepsUnique(items, id);
      var r := Removed(items, id);
      forall i | 0 <= i < |r| ensures r[i].quantity >= 1 {
        assert r[i] in items;
      }
    }
  }

  /** Adding the same new product twice yields one line with the summed quantity. */
  lemma AddTwiceMerges(items: seq<LineItem>, p: Product, q1: int, q2: int)
    requires !HasId(items, p.id)
    ensures Added(Added(items, p, q1), p, q2) == items + [LineItem(p, q1 + q2)]
  {
    var once := Added(items, p, q1);
    assert once[|items|].product.id == p.id;
    assert HasId(once, p.id);
  }

  /** The store operations a caller may perform, for reasoning about any sequence of them. */
  datatype CartOp =
    | Add(product: Product, quantity: int)
    | Remove(id: int)
    | Update(id: int, quantity: int)
    | Clear

  function Apply(items: seq<LineItem>, op: CartOp): seq<LineItem> {
    match op
    case Add(p, q) => Added(items, p, q)
    case Remove(id) => Removed(items, id)
    case Update(id, q) => Updated(items, id, q)
    case Clear => []
  }

  function Run(items: seq<LineItem>, ops: seq<CartOp>): seq<LineItem>
    decreases |ops|
  {
    if ops == [] then items else Run(Apply(items, ops[0]), ops[1..])
  }

  /** Whatever the callers do, as long as they add positive quantities the cart
      keeps one line per id and positive quantities. */
  lemma {:induction false} RunKeepsInvariant(items: seq<LineItem>, ops: seq<CartOp>)
    requires CartInvariant(items)
    requires forall k :: 0 <= k < |ops| && ops[k].Add? ==> ops[k].quantity >= 1
    ensures CartInvariant(Run(items, ops))
    decreases |ops|
  {
    if ops != [] {
      match ops[0] {
        case Add(p, q) => AddedKeepsInvariant(items, p, q);
        case Remove(id) => UpdatedKeepsInvariant(items, id, 0);
        case Update(id, q) => UpdatedKeepsInvariant(items, id, q);
        case Clear =>
      }
      RunKeepsInvariant(Apply(items, ops[0]), ops[1..]);
    }
  }

  /** Three additions of a $0.10 product cost exactly 30 cents. */
  lemma SubtotalIsExact(p: Product)
    requires p.price == "$0.10"
    ensures Subtotal(Added(Added(Added([], p, 1), p, 1), p, 1)) == Cents(30)
  {
    PriceRoundTrip(10);
    assert FormatPrice(10) == "$0.10";
    AddTwiceMerges([], p, 1, 1);
    var two := [LineItem(p, 2)];
    assert HasId(two, p.id);
    assert Added(two, p, 1) == [LineItem(p, 3)];
  }

  /** The answer of `GET /api/cart`. */
  datatype PullResponse =
    | PullFailed                              // the request threw
    | PullOk(items: Option<seq<LineItem>>)    // `response.data.items`, None when absent

  /** A response replaces the cart exactly when it carries items; the session is
      not consulted again once the request is out. */
  predicate PullInstalls(response: PullResponse) {
    response.PullOk? && response.items.Some?
  }

  /** The debounce effect has a push pending exactly when authenticated with a non-empty cart. */
  predicate SyncScheduled(authenticated: bool, items: seq<LineItem>) {
    authenticated && |items| > 0
  }

  class CartStore {
    var items: seq<LineItem>
    /** A debounced `syncCartWithAPI` call is waiting for its timer. */
    var pushPending: bool
    /** `GET /api/cart` requests sent and not yet answered. */
    var pendingPulls: nat
    const auth: AuthSession

    ghost predicate Valid()
      reads this
    {
      pushPending ==> |items| > 0
    }

    constructor (auth: AuthSession)
      ensures Valid() && items == [] && !pushPending && pendingPulls == 0 && this.auth == auth
    {
      items := [];
      pushPending := false;
      pendingPulls := 0;
      this.auth := auth;
    }

    /** The debounce effect, re-run after every change of the cart: the previous
        timer is cleared and a new one is set when authenticated and non-empty. */
    method Reschedule()
      modifies this
      ensures Valid() && items == old(items) && pendingPulls == old(pendingPulls)
      ensures pushPending == SyncScheduled(auth.isAuthenticated, items)
    {
      pushPending := auth.isAuthenticated && |items| > 0;
    }

    method AddToCart(p: Product, q: int := 1)
      modifies this
      ensures Valid() && items == Added(old(items), p, q) && pendingPulls == old(pendingPulls)
      ensures pushPending == SyncScheduled(auth.isAuthenticated, items)
      ensures CartInvariant(old(items)) && q >= 1 ==> CartInvariant(items)
      ensures UniqueIds(old(items)) ==> ItemCount(items) == ItemCount(old(items)) + q
    {
      if q >= 1 && CartInvariant(items) {
        AddedKeepsInvariant(items, p, q);
      }
      if UniqueIds(items) {
        AddedItemCount(items, p, q);
      }
      items := Added(items, p, q);
      Reschedule();
    }

    method RemoveFromCart(id: int)
      modifies this
      ensures Valid() && items == Removed(old(items), id) && pendingPulls == old(pendingPulls)
      ensures pushPending == SyncScheduled(auth.isAuthenticated, items)
      ensures CartInvariant(old(items)) ==> CartInvariant(items)
    {
      if CartInvariant(items) {
        UpdatedKeepsInvariant(items, id, 0);
      }
      items := Removed(items, id);
      Reschedule();
    }

    method UpdateQuantity(id: int, q: int)
      modifies this
      ensures Valid() && items == Updated(old(items), id, q) && pendingPulls == old(pendingPulls)
      ensures pushPending == SyncScheduled(auth.isAuthenticated, items)
      ensures CartInvariant(old(items)) ==> CartInvariant(items)
    {
      if q < 1 {
        RemoveFromCart(id);
        return;
      }
      if CartInvariant(items) {
        UpdatedKeepsInvariant(items, id, q);
      }
      items := Requantified(items, id, q);
      Reschedule();
    }

    method ClearCart()
      modifies this
      ensures Valid() && items == [] && !pushPending && pendingPulls == old(pendingPulls)
    {
      items := [];
      Reschedule();
    }

    /** `loadCartFromAPI` up to its `await`: the request goes out only when
        authenticated. */
    method RequestPull() returns (sent: bool)
      modifies this
      ensures sent <==> auth.isAuthenticated
      ensures pendingPulls == old(pendingPulls) + (if sent then 1 else 0)
      ensures items == old(items) && pushPending == old(pushPending)
    {
      if !auth.isAuthenticated {
        return false;
      }
      pendingPulls := pendingPulls + 1;
      sent := true;
    }

    /** The answer to an earlier request arrives: items in it replace the cart
        whatever the session is now and whatever was added meanwhile; a failed
        or empty answer keeps the cart. */
    method ReceivePull(response: PullResponse)
      requires Valid() && pendingPulls > 0
      modifies this
      ensures Valid() && pendingPulls == old(pendingPulls) - 1
      ensures PullInstalls(response) ==>
                items == response.items.value && pushPending == SyncScheduled(auth.isAuthenticated, items)
      ensures !PullInstalls(response) ==>
                items == old(items) && pushPending == old(pushPending)
    {
      pendingPulls := pendingPulls - 1;
      if PullInstalls(response) {
        items := response.items.value;
        Reschedule();
      }
    }

    /** `syncCartWithAPI`: the body it posts, or None when it sends nothing. */
    method SyncWithApi() returns (sent: Option<seq<LineItem>>)
      ensures sent.Some? <==> auth.isAuthenticated
      ensures sent.Some? ==> sent.value == items
    {
      if !auth.isAuthenticated {
        return None;
      }
      sent := Some(items);
    }

    /** The debounce timer fires: the pending push, if any, is made now. */
    method DebounceElapsed() returns (sent: Option<seq<LineItem>>)
      requires Valid()
      modifies this
      ensures Valid() && items == old(items) && !pushPending && pendingPulls == old(pendingPulls)
      ensures sent.Some? <==> old(pushPending) && auth.isAuthenticated
      ensures sent.Some? ==> sent.value == items && |items| > 0
    {
      if !pushPending {
        return None;
      }
      pushPending := false;
      sent := SyncWithApi();
    }
  }

  /** A logout cancels the debounced push: once the effect has re-run, the timer
      firing sends nothing. */
  method LogoutDropsPendingPush(cart: CartStore) returns (sent: Option<seq<LineItem>>)
    requires cart.Valid()
    modifies cart, cart.auth
    ensures sent == None && !cart.pushPending && cart.items == old(cart.items)
  {
    cart.auth.Logout();
    cart.Reschedule();
    sent := cart.DebounceElapsed();
  }

  /** A pull answered after a logout still installs its items: the anonymous
      cart, and any line added while the request was out, is replaced. */
  method LatePullAfterLogout(cart: CartStore, p: Product, pulled: seq<LineItem>)
    requires cart.Valid() && cart.auth.isAuthenticated
    modifies cart, cart.auth
    ensures cart.items == pulled && !cart.auth.isAuthenticated && !cart.pushPending
  {
    var sent := cart.RequestPull();
    cart.AddToCart(p);
    cart.auth.Logout();
    cart.Reschedule();
    cart.ReceivePull(PullOk(Some(pulled)));
  }
}
