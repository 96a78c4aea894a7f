/** The search page: the product list filtered by a case-insensitive substring
    match on name or description, the result-count label, and adding a result to
    the cart with its default size. */
module Search {
  import opened Common
  import opened Decimal
  import opened Catalog
  import opened CartContext

  /** `toLowerCase`, letter by letter. */
  function Lower(s: string): (r: string)
    ensures |r| == |s| && forall i :: 0 <= i < |s| ==> r[i] == ToLower(s[i])
  {
    if s == [] then [] else [ToLower(s[0])] + Lower(s[1..])
  }

  /** The string without its trailing white space. */
  function TrimEnd(s: string): (r: string)
    ensures |r| <= |s| && r == s[..|r|]
    ensures forall i :: |r| <= i < |s| ==> IsWhitespace(s[i])
    ensures r == [] || !IsWhitespace(r[|r| - 1])
  {
    if s != [] && IsWhitespace(s[|s| - 1]) then TrimEnd(s[..|s| - 1]) else s
  }

  /** `trim`: white space removed at both ends. */
  function Trim(s: string): string {
    TrimEnd(TrimStart(s))
  }

  /** A query is blank exactly when it consists of white space only. */
  lemma BlankIffAllWhitespace(s: string)
    ensures Trim(s) == [] <==> forall i :: 0 <= i < |s| ==> IsWhitespace(s[i])
  {
    var t := TrimStart(s);
    if t != [] {
      assert t[0] == s[|s| - |t|];
      assert TrimEnd(t) != [];
    }
  }

  predicate StartsWith(s: string, prefix: string) {
    |prefix| <= |s| && s[..|prefix|] == prefix
  }

  /** `sub` occurs in `s` starting at position `i`. */
  predicate OccursAt(s: string, sub: string, i: int) {
    0 <= i <= |s| - |sub| && s[i..i + |sub|] == sub
  }

  /** `s.includes(sub)`. */
  predicate Contains(s: string, sub: string)
    ensures Contains(s, sub) <==> exists i :: OccursAt(s, sub, i)
    decreases |s|
  {
    if StartsWith(s, sub) then
      assert OccursAt(s, sub, 0);
      true
    else if s == [] then false
    else
      ContainsShift(s, sub);
      Contains(s[1..], sub)
  }

  lemma ContainsShift(s: string, sub: string)
    requires s != [] && !StartsWith(s, sub)
    ensures (exists i :: OccursAt(s, sub, i)) <==> (exists i :: OccursAt(s[1..], sub, i))
  {
    if exists i :: OccursAt(s, sub, i) {
      var i :| OccursAt(s, sub, i);
      assert i != 0;
      assert s[1..][i - 1..i - 1 + |sub|] == sub;
      assert OccursAt(s[1..], sub, i - 1);
    }
    if exists i :: OccursAt(s[1..], sub, i) {
      var i :| OccursAt(s[1..], sub, i);
      assert s[i + 1..i + 1 + |sub|] == sub;
      assert OccursAt(s, sub, i + 1);
    }
  }

  /** The filter's test: the lower-cased name or description contains the
      lower-cased query as typed (not trimmed). */
  predicate Matches(p: Product, query: string) {
    Contains(Lower(p.name), Lower(query)) || Contains(Lower(p.description), Lower(query))
  }

  function Filtered(ps: seq<Product>, query: string): (r: seq<Product>)
    ensures forall p :: p in r <==> p in ps && Matches(p, query)
    ensures IsSubsequence(r, ps)
    ensures |r| <= |ps|
    ensures forall p :: multiset(r)[p] == if Matches(p, query) then multiset(ps)[p] else 0
  {
    if ps == [] then []
    else
      var rest := Filtered(ps[1..], query);
      assert ps == [ps[0]] + ps[1..];
      if Matches(ps[0], query) then
        assert ([ps[0]] + rest)[1..] == rest;
        [ps[0]] + rest
      else
        assert rest == [] || rest[0] != ps[0] by {
          if rest != [] {
            assert rest[0] in rest;
          }
        }
        rest
  }

  /** The list the page shows for a query: the whole catalogue for a blank query,
      otherwise the matching products in catalogue order. */
  function Results(query: string): (r: seq<Product>)
    ensures Trim(query) == [] ==> r == SearchProducts
    ensures Trim(query) != [] ==> forall p :: p in r <==> p in SearchProducts && Matches(p, query)
    ensures IsSubsequence(r, SearchProducts)
  {
    if Trim(query) == [] then
      SubsequenceRefl(SearchProducts);
      SearchProducts
    else Filtered(SearchProducts, query)
  }

  lemma {:induction false} SubsequenceRefl<T>(a: seq<T>)
    ensures IsSubsequence(a, a)
    decreases |a|
  {
    if a != [] {
      SubsequenceRefl(a[1..]);
    }
  }

  /** Matching ignores case: "ROSE" finds what "rose" finds. */
  lemma MatchIgnoresCase(p: Product, q1: string, q2: string)
    requires Lower(q1) == Lower(q2)
    ensures Matches(p, q1) <==> Matches(p, q2)
  {
  }

  /** The query is not trimmed for matching: "rose" finds a product named "Rose"
      while "rose " with a trailing space does not, though neither is blank. */
  lemma UntrimmedQueryExample()
    ensures var p := Product(1, "Rose", "", "$1.00", "", "");
            Matches(p, "rose") && !Matches(p, "rose ")
  {
    var p := Product(1, "Rose", "", "$1.00", "", "");
    assert Lower("Rose") == "rose";
    assert Lower("rose") == "rose";
    assert Lower("rose ") == "rose ";
    assert Lower("rose")[0..4] == "rose";
  }

  /** The count line under the search box, shown only while the query is non-empty. */
  function ResultLabel(query: string, count: nat): (r: Option<string>)
    ensures r.None? <==> query == ""
    ensures r.Some? && count == 1 ==> r.value == "1 result found"
    ensures r.Some? && count != 1 ==> r.value == NatToString(count) + " results found"
  {
    if query == "" then None
    else Some(NatToString(count) + " " + (if count == 1 then "result" else "results") + " found")
  }

  /** `handleAddToCart`: one unit of the product, sized by its id. */
  method HandleAddToCart(cart: CartStore, p: Product) returns (notice: string)
    modifies cart
    ensures cart.items == Added(old(cart.items), WithDefaultSize(p), 1)
    ensures cart.pushPending == SyncScheduled(cart.auth.isAuthenticated, cart.items) && cart.pendingPulls == old(cart.pendingPulls)
    ensures CartInvariant(old(cart.items)) ==> CartInvariant(cart.items)
    ensures notice == p.name
  {
    cart.AddToCart(WithDefaultSize(p), 1);
    notice := p.name;
  }
}
