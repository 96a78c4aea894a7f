/** The product page: the route id read with `parseInt`, the lookup in the page's
    own catalogue, the quantity stepper that never goes below 1, and adding the
    product with the chosen quantity. */
module ProductDetail {
  import opened Common
  import opened Decimal
  import opened Catalog
  import opened CartContext

  predicate IsHexDigit(c: char) {
    IsDigit(c) || 'a' <= c <= 'f' || 'A' <= c <= 'F'
  }

  function HexDigitValue(c: char): (d: nat)
    requires IsHexDigit(c)
    ensures d < 16
  {
    if IsDigit(c) then DigitValue(c)
    else if 'a' <= c <= 'f' then c as int - 'a' as int + 10
    else c as int - 'A' as int + 10
  }

  /** The length of the longest prefix of hexadecimal digits. */
  function HexRun(s: string): (k: nat)
    ensures k <= |s|
    ensures forall i :: 0 <= i < k ==> IsHexDigit(s[i])
    ensures k < |s| ==> !IsHexDigit(s[k])
  {
    if s == [] || !IsHexDigit(s[0]) then 0 else 1 + HexRun(s[1..])
  }

  function HexValue(s: string): nat
    requires forall i :: 0 <= i < |s| ==> IsHexDigit(s[i])
  {
    if s == [] then 0 else HexValue(s[..|s| - 1]) * 16 + HexDigitValue(s[|s| - 1])
  }

  /** The magnitude `parseInt` reads after the sign: hexadecimal after "0x" or "0X",
      decimal otherwise, up to the first character that is not a digit; None
      (NaN) when there is no digit at all. */
  function Magnitude(t: string): (r: Option<nat>)
    ensures r.None? <==> if |t| >= 2 && t[0] == '0' && (t[1] == 'x' || t[1] == 'X')
                         then |t| == 2 || !IsHexDigit(t[2])
                         else t == [] || !IsDigit(t[0])
  {
    if |t| >= 2 && t[0] == '0' && (t[1] == 'x' || t[1] == 'X') then
      var k := HexRun(t[2..]);
      if k == 0 then None else Some(HexValue(t[2..][..k]))
    else
      var k := DigitRun(t);
      if k == 0 then None else Some(Value(t[..k]))
  }

  /** `parseInt(text)` without a radix, None standing for NaN. Leading white space
      is skipped and one sign is allowed. */
  function ParseInt(text: string): (r: Option<int>)
    ensures var t := TrimStart(text);
            var unsigned := if t != [] && (t[0] == '-' || t[0] == '+') then t[1..] else t;
            && (r.None? <==> Magnitude(unsigned).None?)
            && (r.Some? && t != [] && t[0] == '-' ==> r.value == 0 - Magnitude(unsigned).value as int)
            && (r.Some? && !(t != [] && t[0] == '-') ==> r.value == Magnitude(unsigned).value)
  {
    var t := TrimStart(text);
    if t != [] && t[0] == '-' then
      match Magnitude(t[1..])
      case Some(n) => Some(0 - n as int)
      case None => None
    else if t != [] && t[0] == '+' then Magnitude(t[1..])
    else Magnitude(t)
  }

  /** A numeral followed by text that neither continues it nor turns it into a
      "0x" prefix reads as the numeral's value. */
  lemma MagnitudeOfNumeral(s: string, rest: string)
    requires s != [] && AllDigits(s) && (|s| > 1 ==> s[0] != '0')
    requires rest == [] || (!IsDigit(rest[0]) && rest[0] != 'x' && rest[0] != 'X')
    ensures Magnitude(s + rest) == Some(Value(s))
  {
    var t := s + rest;
    assert t[0] == s[0];
    if |t| >= 2 {
      assert t[1] == if |s| >= 2 then s[1] else rest[0];
    }
    DigitRunOfPrefix(s, rest);
    assert t[..|s|] == s;
  }

  /** Skipping white space and the sign leaves a string that starts with a digit alone. */
  lemma ParseIntOfUnsigned(t: string)
    requires t != [] && IsDigit(t[0])
    ensures ParseInt(t) == Magnitude(t)
  {
    assert TrimStart(t) == t;
  }

  /** The route id of a product reads back as that id. */
  lemma ParseIntOfNatToString(n: nat)
    ensures ParseInt(NatToString(n)) == Some(n)
  {
    var s := NatToString(n);
    MagnitudeOfNumeral(s, []);
    assert s + [] == s;
    ParseIntOfUnsigned(s);
    ValueOfNatToString(n);
  }

  /** Text after the digits does not change the number ("3abc" reads as 3), unless
      it makes a "0x" prefix of a lone zero. */
  lemma ParseIntIgnoresTrailingText(n: nat, rest: string)
    requires rest == [] || (!IsDigit(rest[0]) && rest[0] != 'x' && rest[0] != 'X')
    ensures ParseInt(NatToString(n) + rest) == Some(n)
  {
    var s := NatToString(n);
    MagnitudeOfNumeral(s, rest);
    ParseIntOfUnsigned(s + rest);
    ValueOfNatToString(n);
  }

  /** A lone zero followed by "x" is read as a hexadecimal prefix: "0x1A" is 26. */
  lemma HexPrefixExample()
    ensures ParseInt("0x1A") == Some(26)
  {
    assert TrimStart("0x1A") == "0x1A";
    assert HexRun("1A") == 2;
    assert "0x1A"[2..][..2] == "1A";
    assert "1A"[..1] == "1" && "1"[..0] == "";
    assert HexValue("1") == 1;
    assert HexValue("1A") == 26;
    assert Magnitude("0x1A") == Some(26);
  }

  lemma {:induction false} DigitRunOfPrefix(s: string, rest: string)
    requires AllDigits(s)
    requires rest == [] || !IsDigit(rest[0])
    ensures DigitRun(s + rest) == |s|
  {
    if s != [] {
      assert (s + rest)[1..] == s[1..] + rest;
      DigitRunOfPrefix(s[1..], rest);
    } else {
      assert s + rest == rest;
    }
  }

  /** `allProducts.find(p => p.id === id)` over a catalogue. */
  function FindById(ps: seq<Product>, id: int): (r: Option<Product>)
    ensures r.None? <==> forall i :: 0 <= i < |ps| ==> ps[i].id != id
    ensures r.Some? ==> r.value in ps && r.value.id == id
  {
    if ps == [] then None
    else if ps[0].id == id then Some(ps[0])
    else FindById(ps[1..], id)
  }

  /** The product the page shows for the route id, None for the not-found view
      (which is also what an id that is not a number gives). */
  function Lookup(routeId: string): (r: Option<Product>)
    ensures r.Some? ==> r.value in DetailProducts && ParseInt(routeId) == Some(r.value.id)
    ensures ParseInt(routeId).None? ==> r.None?
    ensures ParseInt(routeId).Some? && r.None? ==>
              forall p :: p in DetailProducts ==> p.id != ParseInt(routeId).value
  {
    match ParseInt(routeId)
    case Some(id) => FindById(DetailProducts, id)
    case None => None
  }

  /** Ids are distinct, so the product found is the only one with that id. */
  lemma {:induction false} FindByDistinctId(ps: seq<Product>, p: Product)
    requires DistinctIds(ps) && p in ps
    ensures FindById(ps, p.id) == Some(p)
  {
    if ps[0] != p {
      assert p in ps[1..];
      assert DistinctIds(ps[1..]) by {
        forall i, j | 0 <= i < j < |ps[1..]| ensures ps[1..][i].id != ps[1..][j].id {
          assert ps[1..][i] == ps[i + 1] && ps[1..][j] == ps[j + 1];
        }
      }
      var k :| 0 <= k < |ps| && ps[k] == p;
      assert ps[0].id != p.id;
      FindByDistinctId(ps[1..], p);
    }
  }

  /** Every product's page shows that product. */
  lemma LookupOfOwnId(p: Product)
    requires p in DetailProducts
    ensures Lookup(NatToString(p.id)) == Some(p)
  {
    DetailIdsPositive();
    ParseIntOfNatToString(p.id);
    CatalogueIdsDistinct();
    FindByDistinctId(DetailProducts, p);
  }

  /** The stepper's setter: the new quantity is the old one moved by `change`,
      but never below 1. */
  function Stepped(quantity: int, change: int): (r: int)
    ensures r >= 1
    ensures quantity + change >= 1 ==> r == quantity + change
    ensures quantity + change < 1 ==> r == 1
  {
    var n := quantity + change;
    if n < 1 then 1 else n
  }

  class ProductPage {
    /** The selected quantity. */
    var quantity: int
    /** The product found for the route id; None renders the not-found view. */
    const product: Option<Product>

    constructor (routeId: string)
      ensures quantity == 1 && product == Lookup(routeId)
    {
      quantity := 1;
      product := Lookup(routeId);
    }

    method HandleQuantityChange(change: int)
      modifies this
      ensures quantity == Stepped(old(quantity), change)
      ensures quantity >= 1
      ensures old(quantity) >= 1 && change == 1 ==> quantity == old(quantity) + 1
    {
      quantity := Stepped(quantity, change);
    }

    /** `handleAddToCart`: the shown product goes to the cart with the selected quantity. */
    method HandleAddToCart(cart: CartStore)
      requires product.Some?
      modifies cart
      ensures cart.items == Added(old(cart.items), product.value, quantity)
      ensures cart.pushPending == SyncScheduled(cart.auth.isAuthenticated, cart.items) && cart.pendingPulls == old(cart.pendingPulls)
      ensures CartInvariant(old(cart.items)) && quantity >= 1 ==> CartInvariant(cart.items)
    {
      cart.AddToCart(product.value, quantity);
    }
  }
}
