/**
 * The text the position tracker writes to `style.transform`:
 * `translate(<x>px, <y>px)`, with the offsets in JavaScript's decimal
 * rendering of an integer. The decoder below shows the string determines the
 * offset it was written from.
 */
module Position {
  import opened Wrappers

  function DigitChar(d: nat): (c: char)
    requires d < 10
    ensures '0' <= c <= '9'
  {
    "0123456789"[d]
  }

  predicate IsDigit(c: char) {
    '0' <= c <= '9'
  }

  function DigitValue(c: char): (d: nat)
    requires IsDigit(c)
    ensures d < 10
  {
    (c - '0') as nat
  }

  /** Decimal digits of `n`, most significant first, without leading zeros. */
  function NatToString(n: nat): (s: string)
    ensures |s| >= 1
    ensures forall i :: 0 <= i < |s| ==> IsDigit(s[i])
  {
    if n < 10 then [DigitChar(n)] else NatToString(n / 10) + [DigitChar(n % 10)]
  }

  /**
   * JavaScript's `${i}` for an integer-valued number of magnitude below 1e21
   * (larger ones render in exponent notation) that a double holds exactly.
   */
  function IntToString(i: int): (s: string)
    ensures |s| >= 1
    ensures forall k :: 0 <= k < |s| ==> s[k] != 'p'
  {
    if i < 0 then "-" + NatToString(-i) else NatToString(i)
  }

  /** The template the tracker fills in. */
  function Translate(x: int, y: int): string {
    "translate(" + IntToString(x) + "px, " + IntToString(y) + "px)"
  }

  /** The number a non-empty string of decimal digits denotes. */
  function DigitsValue(s: string): nat
    requires |s| >= 1 && forall i :: 0 <= i < |s| ==> IsDigit(s[i])
  {
    if |s| == 1 then DigitValue(s[0])
    else 10 * DigitsValue(s[..|s| - 1]) + DigitValue(s[|s| - 1])
  }

  function ParseNat(s: string): Option<nat> {
    if |s| >= 1 && forall i :: 0 <= i < |s| ==> IsDigit(s[i]) then Some(DigitsValue(s)) else None
  }

  function ParseInt(s: string): Option<int> {
    if |s| >= 1 && s[0] == '-' then
      match ParseNat(s[1..])
      case Some(n) => Some(0 - n)
      case None => None
    else
      match ParseNat(s)
      case Some(n) => Some(n)
      case None => None
  }

  /** The longest prefix of `s` that does not contain `c`. */
  function TakeUntil(s: string, c: char): (r: string)
    ensures |r| <= |s| && r == s[..|r|]
  {
    if s == [] || s[0] == c then [] else [s[0]] + TakeUntil(s[1..], c)
  }

  /** Reads the offset back from a transform string the tracker wrote. */
  function ParseTranslate(t: string): Option<(int, int)> {
    var prefix := "translate(";
    if |t| < |prefix| || t[..|prefix|] != prefix then None else ParseOffsets(t[|prefix|..])
  }

  /** Parses `<x>px, <y>px)`. */
  function ParseOffsets(r: string): Option<(int, int)> {
    var a := TakeUntil(r, 'p');
    var r2 := r[|a|..];
    if |r2| < 4 || r2[..4] != "px, " then None
    else
      match (ParseInt(a), ParseLast(r2[4..]))
      case (Some(x), Some(y)) => Some((x, y))
      case _ => None
  }

  /** Parses `<y>px)`. */
  function ParseLast(r: string): Option<int> {
    var b := TakeUntil(r, 'p');
    if r[|b|..] != "px)" then None else ParseInt(b)
  }

  lemma {:induction false} DigitsRoundTrip(n: nat)
    ensures DigitsValue(NatToString(n)) == n
  {
    if n >= 10 {
      var s := NatToString(n);
      assert s[..|s| - 1] == NatToString(n / 10);
      DigitsRoundTrip(n / 10);
    }
  }

  /** `IntToString` is inverted by `ParseInt`. */
  lemma IntRoundTrip(i: int)
    ensures ParseInt(IntToString(i)) == Some(i)
  {
    if i < 0 {
      assert IntToString(i)[1..] == NatToString(-i);
      DigitsRoundTrip(-i);
    } else {
      DigitsRoundTrip(i);
    }
  }

  lemma {:induction false} TakeUntilStops(a: string, rest: string, c: char)
    requires forall k :: 0 <= k < |a| ==> a[k] != c
    requires |rest| >= 1 && rest[0] == c
    ensures TakeUntil(a + rest, c) == a
  {
    if a != [] {
      assert (a + rest)[1..] == a[1..] + rest;
      TakeUntilStops(a[1..], rest, c);
    } else {
      assert a + rest == rest;
    }
  }

  lemma ParseLastRoundTrip(y: int)
    ensures ParseLast(IntToString(y) + "px)") == Some(y)
  {
    var b := IntToString(y);
    TakeUntilStops(b, "px)", 'p');
    assert (b + "px)")[|b|..] == "px)";
    IntRoundTrip(y);
  }

  lemma ParseOffsetsRoundTrip(x: int, y: int)
    ensures ParseOffsets(IntToString(x) + "px, " + IntToString(y) + "px)") == Some((x, y))
  {
    var a, b := IntToString(x), IntToString(y);
    var r := a + "px, " + b + "px)";
    assert r == a + ("px, " + b + "px)");
    TakeUntilStops(a, "px, " + b + "px)", 'p');
    var r2 := r[|a|..];
    assert r2 == "px, " + b + "px)";
    assert r2[4..] == b + "px)";
    IntRoundTrip(x);
    ParseLastRoundTrip(y);
  }

  /** The transform string determines the offset it was written from. */
  lemma TranslateRoundTrip(x: int, y: int)
    ensures ParseTranslate(Translate(x, y)) == Some((x, y))
  {
    var r := IntToString(x) + "px, " + IntToString(y) + "px)";
    var t := Translate(x, y);
    assert t == "translate(" + r;
    assert t[..10] == "translate(" && t[10..] == r;
    ParseOffsetsRoundTrip(x, y);
  }

  /** Different offsets give different transform strings. */
  lemma TranslateInjective(x1: int, y1: int, x2: int, y2: int)
    requires Translate(x1, y1) == Translate(x2, y2)
    ensures x1 == x2 && y1 == y2
  {
    TranslateRoundTrip(x1, y1);
    TranslateRoundTrip(x2, y2);
  }
}
