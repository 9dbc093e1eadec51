/**
  The few JavaScript string built-ins the core relies on, on `seq<char>`:
  the digit filter `s.replace(/[^0-9]/g, "")`, `parseInt` on digit-only text,
  `Number.prototype.toString()` on integers and `String.prototype.trim()`.
 */
module Strings {

  predicate IsDigit(c: char) {
    '0' <= c <= '9'
  }

  predicate AllDigits(s: string) {
    forall i :: 0 <= i < |s| ==> IsDigit(s[i])
  }

  /** `s.replace(/[^0-9]/g, "")`: every character that is not an ASCII digit is dropped. */
  function StripNonDigits(s: string): (r: string)
    ensures AllDigits(r)
    ensures |r| <= |s|
    ensures forall c {:trigger multiset(r)[c]} :: multiset(r)[c] == if IsDigit(c) then multiset(s)[c] else 0
    ensures AllDigits(s) ==> r == s
  {
    if s == [] then []
    else
      assert s == [s[0]] + s[1..];
      (if IsDigit(s[0]) then [s[0]] else []) + StripNonDigits(s[1..])
  }

  /** The filter works piece by piece, so the digits it keeps stay in their order. */
  lemma {:induction false} StripNonDigitsAppend(a: string, b: string)
    ensures StripNonDigits(a + b) == StripNonDigits(a) + StripNonDigits(b)
  {
    if a == [] {
      assert a + b == b;
    } else {
      var keep := if IsDigit(a[0]) then [a[0]] else [];
      assert (a + b)[0] == a[0];
      assert (a + b)[1..] == a[1..] + b;
      StripNonDigitsAppend(a[1..], b);
      calc {
        StripNonDigits(a + b);
        keep + StripNonDigits(a[1..] + b);
        keep + (StripNonDigits(a[1..]) + StripNonDigits(b));
        (keep + StripNonDigits(a[1..])) + StripNonDigits(b);
        StripNonDigits(a) + StripNonDigits(b);
      }
    }
  }

  function DigitValue(c: char): (d: nat)
    requires IsDigit(c)
    ensures d < 10
  {
    (c as int - '0' as int) as nat
  }

  function DigitChar(d: nat): (c: char)
    requires d < 10
    ensures IsDigit(c) && DigitValue(c) == d
  {
    (d + '0' as int) as char
  }

  /** Ten to the power `n`. */
  function Pow10(n: nat): (p: nat)
    ensures p >= 1
  {
    if n == 0 then 1 else 10 * Pow10(n - 1)
  }

  /**
    `parseInt(s, 10)` on a string of decimal digits (leading zeros allowed):
    `n` digits read as a number below ten to the `n`.
   */
  function ParseDigits(s: string): (r: nat)
    requires AllDigits(s)
    ensures r < Pow10(|s|)
  {
    if s == [] then 0
    else 10 * ParseDigits(s[..|s| - 1]) + DigitValue(s[|s| - 1])
  }

  /** A digit string reads as zero exactly when every digit is `0` (as with "0" and "000"). */
  lemma {:induction false} ParseDigitsZero(s: string)
    requires AllDigits(s)
    ensures ParseDigits(s) == 0 <==> forall i :: 0 <= i < |s| ==> s[i] == '0'
  {
    if s != [] {
      var init := s[..|s| - 1];
      ParseDigitsZero(init);
      if ParseDigits(s) == 0 {
        assert ParseDigits(init) == 0 && DigitValue(s[|s| - 1]) == 0;
        forall i | 0 <= i < |s| ensures s[i] == '0' {
          if i < |s| - 1 { assert s[i] == init[i]; }
        }
      }
      if forall i :: 0 <= i < |s| ==> s[i] == '0' {
        assert forall i :: 0 <= i < |init| ==> init[i] == s[i];
      }
    }
  }

  /**
    `n.toString()` for an integer: the shortest decimal numeral, with a leading
    minus sign for negative values. It reads back as `n` under `parseInt`.
   */
  function DecimalString(n: int): (r: string)
    ensures r != []
    ensures n >= 0 ==> AllDigits(r) && ParseDigits(r) == n
    ensures n >= 0 && r[0] == '0' ==> r == "0"
    ensures n < 0 ==> r[0] == '-' && AllDigits(r[1..]) && ParseDigits(r[1..]) == -n
    decreases if n < 0 then 1 - n else n
  {
    if n < 0 then "-" + DecimalString(-n)
    else if n < 10 then [DigitChar(n)]
    else
      var high := DecimalString(n / 10);
      var r := high + [DigitChar(n % 10)];
      assert r[..|r| - 1] == high;
      r
  }

  /** The characters ECMAScript's `trim` removes: WhiteSpace and LineTerminator. */
  predicate IsSpace(c: char) {
    c == '\t' || c == '\n' || c == '\U{000B}' || c == '\U{000C}' || c == '\r' || c == ' '
    || c == '\U{00A0}' || c == '\U{1680}' || ('\U{2000}' <= c <= '\U{200A}')
    || c == '\U{2028}' || c == '\U{2029}' || c == '\U{202F}' || c == '\U{205F}'
    || c == '\U{3000}' || c == '\U{FEFF}'
  }

  /** How many white-space characters `s` starts with. */
  function LeadingSpaces(s: string): (n: nat)
    ensures n <= |s|
    ensures forall i :: 0 <= i < n ==> IsSpace(s[i])
    ensures n < |s| ==> !IsSpace(s[n])
  {
    if s == [] || !IsSpace(s[0]) then 0
    else
      var n := 1 + LeadingSpaces(s[1..]);
      assert forall i :: 1 <= i < |s| ==> s[i] == s[1..][i - 1];
      n
  }

  /** How many white-space characters `s` ends with. */
  function TrailingSpaces(s: string): (n: nat)
    ensures n <= |s|
    ensures forall i :: |s| - n <= i < |s| ==> IsSpace(s[i])
    ensures n < |s| ==> !IsSpace(s[|s| - 1 - n])
  {
    if s == [] || !IsSpace(s[|s| - 1]) then 0
    else
      var n := 1 + TrailingSpaces(s[..|s| - 1]);
      assert forall i :: 0 <= i < |s| - 1 ==> s[i] == s[..|s| - 1][i];
      n
  }

  /**
    `s.trim()`: the result is the piece of `s` after its leading white space,
    up to its trailing white space; it neither starts nor ends with white
    space, and everything cut off around it is white space.
   */
  function Trim(s: string): (r: string)
    ensures r != [] ==> !IsSpace(r[0]) && !IsSpace(r[|r| - 1])
    ensures LeadingSpaces(s) + |r| <= |s|
    ensures forall j {:trigger r[j]} :: 0 <= j < |r| ==> r[j] == s[LeadingSpaces(s) + j]
    ensures forall i :: LeadingSpaces(s) + |r| <= i < |s| ==> IsSpace(s[i])
    ensures AllDigits(s) ==> r == s
  {
    var a := LeadingSpaces(s);
    if a == |s| then []
    else
      var b := TrailingSpaces(s);
      assert !IsSpace(s[a]);
      s[a..|s| - b]
  }
}
