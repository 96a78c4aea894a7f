/** The shop page: two carousels (perfumes and body products) that show three
    cards from a current index, with next/prev buttons that wrap around and one
    dot per reachable index, and the add-to-cart button that fills in the size. */
module Shop {
  import opened Common
  import opened Catalog
  import opened CartContext

  /** The last index from which three cards still fit: `Math.max(0, len - 3)`. */
  function MaxIndex(len: nat): (m: nat)
    ensures len >= 3 ==> m + 3 == len
    ensures len < 3 ==> m == 0
  {
    if len >= 3 then len - 3 else 0
  }

  /** The next button: past the last index it starts over at 0. */
  function Next(i: int, maxIndex: nat): (r: int)
    ensures i >= maxIndex ==> r == 0
    ensures i < maxIndex ==> r == i + 1
  {
    if i >= maxIndex then 0 else i + 1
  }

  /** The previous button: before the first index it jumps to the last. */
  function Prev(i: int, maxIndex: nat): (r: int)
    ensures i <= 0 ==> r == maxIndex
    ensures i > 0 ==> r == i - 1
  {
    if i <= 0 then maxIndex else i - 1
  }

  /** The number of dots under a carousel: `Math.max(1, len - 2)`. It is one per
      index the buttons can reach. */
  function DotCount(len: nat): (n: nat)
    ensures n == MaxIndex(len) + 1
  {
    if len - 2 > 1 then len - 2 else 1
  }

  /** On the reachable indices the two buttons undo each other. */
  lemma NextPrevInverse(i: int, maxIndex: nat)
    requires 0 <= i <= maxIndex
    ensures Prev(Next(i, maxIndex), maxIndex) == i
    ensures Next(Prev(i, maxIndex), maxIndex) == i
  {
  }

  /** What a visitor can do to a carousel. */
  datatype Move = NextMove | PrevMove | Dot(k: int)

  /** A move allowed by the page: a dot can only be clicked if it is rendered. */
  predicate Allowed(mv: Move, len: nat) {
    mv.Dot? ==> 0 <= mv.k < DotCount(len)
  }

  function Step(i: int, len: nat, mv: Move): int {
    match mv
    case NextMove => Next(i, MaxIndex(len))
    case PrevMove => Prev(i, MaxIndex(len))
    case Dot(k) => k
  }

  function Walk(i: int, len: nat, moves: seq<Move>): int
    decreases |moves|
  {
    if moves == [] then i else Walk(Step(i, len, moves[0]), len, moves[1..])
  }

  /** From the start (index 0), every sequence of clicks keeps the index among the
      reachable ones, so three cards are always shown when the list has three. */
  lemma {:induction false} WalkStaysInRange(i: int, len: nat, moves: seq<Move>)
    requires 0 <= i <= MaxIndex(len)
    requires forall j :: 0 <= j < |moves| ==> Allowed(moves[j], len)
    ensures 0 <= Walk(i, len, moves) <= MaxIndex(len)
    decreases |moves|
  {
    if moves != [] {
      assert Allowed(moves[0], len);
      var next := Step(i, len, moves[0]);
      assert 0 <= next <= MaxIndex(len);
      assert forall j :: 0 <= j < |moves[1..]| ==> Allowed(moves[1..][j], len) by {
        forall j | 0 <= j < |moves[1..]| ensures Allowed(moves[1..][j], len) {
          assert moves[1..][j] == moves[j + 1];
        }
      }
      WalkStaysInRange(next, len, moves[1..]);
    }
  }

  class ShopPage {
    var perfumeIndex: int
    var bodyIndex: int
    /** The name shown in the "added to cart" notice while it is up. */
    var notice: Option<string>
    const perfumes: seq<Product>
    const bodyProducts: seq<Product>

    ghost predicate Valid()
      reads this
    {
      && 0 <= perfumeIndex <= MaxIndex(|perfumes|)
      && 0 <= bodyIndex <= MaxIndex(|bodyProducts|)
    }

    constructor ()
      ensures Valid() && perfumeIndex == 0 && bodyIndex == 0 && notice == None
      ensures perfumes == ShopPerfumes && bodyProducts == ShopBodyProducts
    {
      perfumeIndex, bodyIndex, notice := 0, 0, None;
      perfumes, bodyProducts := ShopPerfumes, ShopBodyProducts;
    }

    method NextPerfume()
      requires Valid()
      modifies this
      ensures Valid() && perfumeIndex == Next(old(perfumeIndex), MaxIndex(|perfumes|))
      ensures bodyIndex == old(bodyIndex) && notice == old(notice)
    {
      perfumeIndex := Next(perfumeIndex, MaxIndex(|perfumes|));
    }

    method PrevPerfume()
      requires Valid()
      modifies this
      ensures Valid() && perfumeIndex == Prev(old(perfumeIndex), MaxIndex(|perfumes|))
      ensures bodyIndex == old(bodyIndex) && notice == old(notice)
    {
      perfumeIndex := Prev(perfumeIndex, MaxIndex(|perfumes|));
    }

    method NextBodyProduct()
      requires Valid()
      modifies this
      ensures Valid() && bodyIndex == Next(old(bodyIndex), MaxIndex(|bodyProducts|))
      ensures perfumeIndex == old(perfumeIndex) && notice == old(notice)
    {
      bodyIndex := Next(bodyIndex, MaxIndex(|bodyProducts|));
    }

    method PrevBodyProduct()
      requires Valid()
      modifies this
      ensures Valid() && bodyIndex == Prev(old(bodyIndex), MaxIndex(|bodyProducts|))
      ensures perfumeIndex == old(perfumeIndex) && notice == old(notice)
    {
      bodyIndex := Prev(bodyIndex, MaxIndex(|bodyProducts|));
    }

    /** Clicking one of the rendered perfume dots. */
    method SelectPerfumeDot(k: int)
      requires Valid() && 0 <= k < DotCount(|perfumes|)
      modifies this
      ensures Valid() && perfumeIndex == k
      ensures bodyIndex == old(bodyIndex) && notice == old(notice)
    {
      perfumeIndex := k;
    }

    /** Clicking one of the rendered body-product dots. */
    method SelectBodyDot(k: int)
      requires Valid() && 0 <= k < DotCount(|bodyProducts|)
      modifies this
      ensures Valid() && bodyIndex == k
      ensures perfumeIndex == old(perfumeIndex) && notice == old(notice)
    {
      bodyIndex := k;
    }

    /** `handleAddToCart`: one unit of the product, sized by its id, and the notice
        naming it. */
    method HandleAddToCart(cart: CartStore, p: Product)
      modifies this, cart
      ensures cart.items == Added(old(cart.items), WithDefaultSize(p), 1)
      ensures cart.pushPending == SyncScheduled(cart.auth.isAuthenticated, cart.items) && cart.pendingPulls == old(cart.pendingPulls)
      ensures CartInvariant(old(cart.items)) ==> CartInvariant(cart.items)
      ensures notice == Some(p.name)
      ensures perfumeIndex == old(perfumeIndex) && bodyIndex == old(bodyIndex)
    {
      cart.AddToCart(WithDefaultSize(p), 1);
      notice := Some(p.name);
    }

    /** The notice's timer runs out. */
    method HideNotice()
      modifies this
      ensures notice == None
      ensures perfumeIndex == old(perfumeIndex) && bodyIndex == old(bodyIndex)
    {
      notice := None;
    }
  }

  /** With the shop's own lists: the perfume carousel has 5 positions and the body
      carousel 2. */
  lemma ShopCarousels()
    ensures DotCount(|ShopPerfumes|) == 5 && DotCount(|ShopBodyProducts|) == 2
  {
  }
}
