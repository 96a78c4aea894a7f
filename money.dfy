/** Money. The storefront keeps prices as display strings such as "$72.00" and
    does its arithmetic on JavaScript numbers; here amounts are whole cents, and
    `NaN` stands for the result of `parseFloat` on a string that is not a price,
    which then spreads through every sum and product it enters. */
module Money {
  import opened Decimal

  datatype Amount = Cents(cents: int) | NaN

  function Plus(a: Amount, b: Amount): (r: Amount)
    ensures r.NaN? <==> a.NaN? || b.NaN?
    ensures r.Cents? ==> r.cents == a.cents + b.cents
  {
    if a.Cents? && b.Cents? then Cents(a.cents + b.cents) else NaN
  }

  function Times(a: Amount, q: int): (r: Amount)
    ensures r.NaN? <==> a.NaN?
    ensures r.Cents? ==> r.cents == a.cents * q
  {
    if a.Cents? then Cents(a.cents * q) else NaN
  }

  /** `s.replace(c, '')` for a one-character pattern: only the first occurrence goes. */
  function RemoveFirst(s: string, c: char): (r: string)
    ensures c !in s ==> r == s
    ensures c in s ==> |r| == |s| - 1
    ensures |s| > 0 && s[0] == c ==> r == s[1..]
  {
    if s == [] then []
    else if s[0] == c then s[1..]
    else [s[0]] + RemoveFirst(s[1..], c)
  }

  /** Position of the first `c` in `s`, or `|s|` when there is none. */
  function FirstIndex(s: string, c: char): (k: nat)
    ensures k <= |s| && c !in s[..k]
    ensures k < |s| ==> s[k] == c
  {
    if s == [] then 0
    else if s[0] == c then 0
    else
      var k := 1 + FirstIndex(s[1..], c);
      assert s[..k] == [s[0]] + s[1..][..k - 1];
      k
  }

  lemma FirstIndexOfJoin(a: string, c: char, b: string)
    requires c !in a
    ensures FirstIndex(a + [c] + b, c) == |a|
  {
    if a != [] {
      assert (a + [c] + b)[1..] == a[1..] + [c] + b;
      FirstIndexOfJoin(a[1..], c, b);
    }
  }

  /** Cents denoted by at most two fraction digits: "" is 0, "5" is 50, "05" is 5. */
  function FractionCents(f: string): (r: nat)
    requires |f| <= 2 && AllDigits(f)
    ensures r < 100
  {
    if |f| == 0 then 0
    else if |f| == 1 then DigitValue(f[0]) * 10
    else DigitValue(f[0]) * 10 + DigitValue(f[1])
  }

  /** `parseFloat` on a plain decimal "D+" or "D+.F" with at most two fraction
      digits, in cents; any other text reads as NaN. */
  function ParseDecimal(t: string): (r: Amount)
    ensures r.Cents? ==> r.cents >= 0
    ensures r.Cents? ==> |t| > 0 && IsDigit(t[0])
  {
    var k := FirstIndex(t, '.');
    var whole := t[..k];
    var frac := if k < |t| then t[k + 1..] else "";
    if whole != "" && AllDigits(whole) && |frac| <= 2 && AllDigits(frac)
    then Cents(Value(whole) * 100 + FractionCents(frac))
    else NaN
  }

  /** `parseFloat(price.replace('$', ''))`, in cents. */
  function ParsePrice(price: string): Amount {
    ParseDecimal(RemoveFirst(price, '$'))
  }

  /** The catalogue's display form of a price: "$" then `toFixed(2)`. */
  function FormatPrice(c: nat): (s: string)
    ensures |s| >= 5 && s[0] == '$' && s[|s| - 3] == '.'
  {
    "$" + NatToString(c / 100) + "." + [DigitChar(c % 100 / 10), DigitChar(c % 100 % 10)]
  }

  /** The text "W.F", with digits W and at most two fraction digits F, reads as
      W hundred cents plus the cents F denotes. */
  lemma ParseDecimalOfParts(w: string, f: string)
    requires w != [] && AllDigits(w) && |f| <= 2 && AllDigits(f)
    ensures ParseDecimal(w + "." + f) == Cents(Value(w) * 100 + FractionCents(f))
  {
    var t := w + "." + f;
    assert '.' !in w by {
      forall i | 0 <= i < |w| ensures w[i] != '.' { assert IsDigit(w[i]); }
    }
    FirstIndexOfJoin(w, '.', f);
    assert t[..|w|] == w;
    assert t[|w| + 1..] == f;
  }

  /** The `$` in front of a price is dropped before parsing. */
  lemma ParsePriceOfDollar(t: string)
    ensures ParsePrice("$" + t) == ParseDecimal(t)
  {
    assert RemoveFirst("$" + t, '$') == t;
  }

  /** Reading a displayed price gives back its exact number of cents. */
  lemma PriceRoundTrip(c: nat)
    ensures ParsePrice(FormatPrice(c)) == Cents(c)
  {
    var w := NatToString(c / 100);
    var f := [DigitChar(c % 100 / 10), DigitChar(c % 100 % 10)];
    assert FormatPrice(c) == "$" + (w + "." + f);
    ParsePriceOfDollar(w + "." + f);
    ParseDecimalOfParts(w, f);
    ValueOfNatToString(c / 100);
    CentsSplit(c);
  }

  /** Whole units, tens of cents and cents put back together. */
  lemma CentsSplit(c: nat)
    ensures c == c / 100 * 100 + c % 100 / 10 * 10 + c % 100 % 10
  {
    var r := c % 100;
    assert c == c / 100 * 100 + r;
    assert r == r / 10 * 10 + r % 10;
  }

  /** A whole-dollar price "$D.00" reads as D hundred cents. */
  lemma ParseDollars(w: string)
    requires w != [] && AllDigits(w)
    ensures ParsePrice("$" + (w + ".00")) == Cents(Value(w) * 100)
  {
    var zeros := ['0', '0'];
    assert FractionCents(zeros) == 0;
    assert w + ".00" == w + "." + zeros;
    ParsePriceOfDollar(w + ".00");
    ParseDecimalOfParts(w, zeros);
  }
}
