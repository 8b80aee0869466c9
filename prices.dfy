// Prices as the edit form sees them: `Number.prototype.toString` of a
// whole-cent amount, and `parseFloat` read back into cents. Only plain
// decimals with at most two fraction digits are parsed.

module Prices {
  import opened Types

  predicate IsDigit(c: char) {
    '0' <= c <= '9'
  }

  predicate AllDigits(s: string) {
    forall i :: 0 <= i < |s| ==> IsDigit(s[i])
  }

  function DigitChar(d: nat): (c: char)
    requires d < 10
    ensures IsDigit(c)
  {
    (('0' as int) + d) as char
  }

  function DigitValue(c: char): (d: nat)
    requires IsDigit(c)
    ensures d < 10 && DigitChar(d) == c
  {
    (c as int) - ('0' as int)
  }

  /** The decimal digits of `n`, without leading zeros. */
  function NaturalText(n: nat): (s: string)
    ensures |s| > 0 && AllDigits(s)
    decreases n
  {
    if n < 10 then [DigitChar(n)] else NaturalText(n / 10) + [DigitChar(n % 10)]
  }

  /** The value of a non-empty run of decimal digits. */
  function ParseNatural(s: string): (r: Option<nat>)
    ensures r.Some? <==> |s| > 0 && AllDigits(s)
  {
    if |s| == 0 || !IsDigit(s[|s| - 1]) then None
    else if |s| == 1 then Some(DigitValue(s[0]))
    else
      match ParseNatural(s[..|s| - 1])
      case None => None
      case Some(v) => Some(v * 10 + DigitValue(s[|s| - 1]))
  }

  lemma {:induction false} NaturalRoundTrip(n: nat)
    ensures ParseNatural(NaturalText(n)) == Some(n)
    decreases n
  {
    if n >= 10 {
      var s := NaturalText(n);
      assert s[..|s| - 1] == NaturalText(n / 10);
      NaturalRoundTrip(n / 10);
      assert DigitValue(DigitChar(n % 10)) == n % 10;
    } else {
      assert DigitValue(DigitChar(n)) == n;
    }
  }

  /** ".d" or ".dd" for a non-zero cent part, with the trailing zero dropped, as JavaScript prints it. */
  function FractionText(f: nat): (s: string)
    requires f < 100
  {
    if f == 0 then ""
    else if f % 10 == 0 then ['.', DigitChar(f / 10)]
    else ['.', DigitChar(f / 10), DigitChar(f % 10)]
  }

  function UnsignedPriceText(c: nat): string {
    NaturalText(c / 100) + FractionText(c % 100)
  }

  /** `(c / 100).toString()` for an amount of `c` cents. */
  function PriceText(c: int): (s: string)
    ensures s != ""
  {
    if c < 0 then "-" + UnsignedPriceText(-c) else UnsignedPriceText(c)
  }

  /** The position of the first '.', or |s| when there is none. */
  function DotIndex(s: string): (k: nat)
    ensures k <= |s|
    ensures k < |s| ==> s[k] == '.'
    ensures forall i :: 0 <= i < k ==> s[i] != '.'
  {
    if s == [] then 0 else if s[0] == '.' then 0 else 1 + DotIndex(s[1..])
  }

  /** The cents denoted by "w", "w.", "w.d", "w.dd", ".d" or ".dd": the whole part may be left out before a point. */
  function ParseUnsigned(s: string): Option<nat> {
    var k := DotIndex(s);
    var whole := if k == 0 && k < |s| then Some(0) else ParseNatural(s[..k]);
    match whole
    case None => None
    case Some(w) =>
      if k == |s| then Some(w * 100)
      else
        var frac := s[k + 1..];
        if frac == [] then (if k == 0 then None else Some(w * 100))
        else if |frac| == 1 && IsDigit(frac[0]) then Some(w * 100 + DigitValue(frac[0]) * 10)
        else if |frac| == 2 && IsDigit(frac[0]) && IsDigit(frac[1]) then
          Some(w * 100 + DigitValue(frac[0]) * 10 + DigitValue(frac[1]))
        else None
  }

  /** `parseFloat(s)` in cents, or None where it would give NaN or a fraction of a cent. */
  function ParsePrice(s: string): (r: Option<int>)
    ensures s == "" ==> r == None
  {
    if |s| > 0 && s[0] == '-' then
      match ParseUnsigned(s[1..])
      case None => None
      case Some(v) => Some(-(v as int))
    else
      match ParseUnsigned(s)
      case None => None
      case Some(v) => Some(v)
  }

  /** A run of digits followed by nothing or by a '.' splits at the end of the digits. */
  lemma DotAfterDigits(digits: string, rest: string)
    requires AllDigits(digits)
    requires rest == [] || rest[0] == '.'
    ensures DotIndex(digits + rest) == |digits|
    ensures (digits + rest)[..|digits|] == digits
    ensures (digits + rest)[|digits|..] == rest
  {
    var s := digits + rest;
    assert forall i :: 0 <= i < |digits| ==> s[i] == digits[i] && IsDigit(s[i]);
    assert rest != [] ==> s[|digits|] == '.';
  }

  lemma FractionRoundTrip(w: nat, f: nat)
    requires f < 100
    ensures ParseUnsigned(NaturalText(w) + FractionText(f)) == Some(w * 100 + f)
  {
    var digits := NaturalText(w);
    var rest := FractionText(f);
    var s := digits + rest;
    NaturalRoundTrip(w);
    DotAfterDigits(digits, rest);
    if f != 0 {
      var frac := s[|digits| + 1..];
      assert frac == rest[1..];
      assert DigitValue(DigitChar(f / 10)) == f / 10;
      if f % 10 != 0 {
        assert DigitValue(DigitChar(f % 10)) == f % 10;
      }
    }
  }

  lemma UnsignedRoundTrip(c: nat)
    ensures ParseUnsigned(UnsignedPriceText(c)) == Some(c)
  {
    FractionRoundTrip(c / 100, c % 100);
  }

  /** A price typed without its whole part reads as a fraction of a dollar; a lone point reads as nothing. */
  lemma LeadingPointParses()
    ensures ParsePrice(".5") == Some(50) && ParsePrice("-.05") == Some(-5)
    ensures ParsePrice("7.") == Some(700)
    ensures ParsePrice(".") == None && ParsePrice("-.") == None
  {
    assert DotIndex(".5") == 0 && DotIndex(".05") == 0 && DotIndex(".") == 0;
    assert DotIndex("7.") == 1 && "7."[..1] == "7";
    assert "-.05"[1..] == ".05" && "-."[1..] == ".";
  }

  /** Printing an amount and parsing the text back gives the same amount. */
  lemma PriceRoundTrip(c: int)
    ensures ParsePrice(PriceText(c)) == Some(c)
  {
    if c < 0 {
      UnsignedRoundTrip(-c);
      assert PriceText(c)[1..] == UnsignedPriceText(-c);
    } else {
      UnsignedRoundTrip(c);
      assert NaturalText(c / 100)[0] != '-';
      assert PriceText(c)[0] == NaturalText(c / 100)[0];
    }
  }
}
