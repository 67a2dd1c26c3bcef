/** The JavaScript string built-ins the core relies on: Number#toString on a
    non-negative integer, String#padStart and String#trim. */
module Text {

  function DigitChar(d: nat): (c: char)
    requires d < 10
    ensures '0' <= c <= '9' && c as int - '0' as int == d
  {
    ('0' as int + d) as char
  }

  predicate IsDigits(t: string) {
    forall i :: 0 <= i < |t| ==> '0' <= t[i] <= '9'
  }

  /** The value of a string of decimal digits, most significant first. */
  function DigitsValue(t: string): (n: nat)
    requires IsDigits(t)
  {
    if t == [] then 0 else DigitsValue(t[..|t| - 1]) * 10 + (t[|t| - 1] as int - '0' as int)
  }

  /** `n.toString()` for a non-negative integer: its decimal digits, no leading zero. */
  function DecimalString(n: nat): (t: string)
    ensures |t| >= 1 && IsDigits(t)
    ensures n < 10 <==> |t| == 1
    ensures |t| > 1 ==> t[0] != '0'
  {
    if n < 10 then [DigitChar(n)] else DecimalString(n / 10) + [DigitChar(n % 10)]
  }

  /** Reading the digits back gives the number: toString is injective on numbers. */
  lemma {:induction false} DecimalRoundTrip(n: nat)
    ensures DigitsValue(DecimalString(n)) == n
  {
    var t := DecimalString(n);
    if n >= 10 {
      DecimalRoundTrip(n / 10);
      assert t[..|t| - 1] == DecimalString(n / 10);
    }
  }

  /** `t.padStart(2, "0")`. */
  function PadStart2(t: string): (r: string)
    ensures |t| >= 2 ==> r == t
    ensures |t| < 2 ==> |r| == 2 && r[2 - |t|..] == t
    ensures forall i :: 0 <= i < |r| - |t| ==> r[i] == '0'
    decreases 2 - |t|
  {
    if |t| >= 2 then t else PadStart2(['0'] + t)
  }

  /** A leading zero does not change the value of a digit string. */
  lemma {:induction false} LeadingZerosValue(t: string)
    requires IsDigits(t)
    ensures IsDigits(PadStart2(t)) && DigitsValue(PadStart2(t)) == DigitsValue(t)
    decreases 2 - |t|
  {
    if |t| < 2 {
      ZeroPrefixValue(t);
      LeadingZerosValue(['0'] + t);
    }
  }

  lemma {:induction false} ZeroPrefixValue(t: string)
    requires IsDigits(t)
    ensures IsDigits(['0'] + t) && DigitsValue(['0'] + t) == DigitsValue(t)
  {
    var z := ['0'] + t;
    if t != [] {
      assert z[..|z| - 1] == ['0'] + t[..|t| - 1];
      ZeroPrefixValue(t[..|t| - 1]);
    }
  }

  /** WhiteSpace and LineTerminator of ECMAScript, the characters String#trim removes:
      tab, line feed, vertical tab, form feed and carriage return (U+0009 to U+000D),
      space, no-break space, ogham space mark, the spaces U+2000 to U+200A, line and
      paragraph separators, narrow no-break space, medium mathematical space,
      ideographic space and the byte order mark. */
  predicate IsWhitespace(c: char) {
    var n := c as int;
    (0x09 <= n <= 0x0D) || n == 0x20 || n == 0xA0 || n == 0x1680 || (0x2000 <= n <= 0x200A)
    || n == 0x2028 || n == 0x2029 || n == 0x202F || n == 0x205F || n == 0x3000 || n == 0xFEFF
  }

  predicate IsBlank(s: string) {
    forall i :: 0 <= i < |s| ==> IsWhitespace(s[i])
  }

  /** The number of white space characters `s` starts with. */
  function LeadingBlanks(s: string): (n: nat)
    ensures n <= |s|
    ensures n < |s| ==> !IsWhitespace(s[n])
    ensures forall i :: 0 <= i < n ==> IsWhitespace(s[i])
  {
    if s != [] && IsWhitespace(s[0]) then 1 + LeadingBlanks(s[1..]) else 0
  }

  /** The number of white space characters `s` ends with. */
  function TrailingBlanks(s: string): (n: nat)
    ensures n <= |s|
    ensures n < |s| ==> !IsWhitespace(s[|s| - 1 - n])
    ensures forall i :: |s| - n <= i < |s| ==> IsWhitespace(s[i])
  {
    if s != [] && IsWhitespace(s[|s| - 1]) then 1 + TrailingBlanks(s[..|s| - 1]) else 0
  }

  /** Leading white space removed; what is kept does not start with any. */
  function TrimStart(s: string): (r: string)
    ensures |r| <= |s| && r == s[|s| - |r|..]
    ensures r != [] ==> !IsWhitespace(r[0])
    ensures IsBlank(s[..|s| - |r|])
  {
    s[LeadingBlanks(s)..]
  }

  /** Trailing white space removed; what is kept does not end with any. */
  function TrimEnd(s: string): (r: string)
    ensures |r| <= |s| && r == s[..|r|]
    ensures r != [] ==> !IsWhitespace(r[|r| - 1])
    ensures IsBlank(s[|r|..])
  {
    s[..|s| - TrailingBlanks(s)]
  }

  /** `s.trim()`. */
  function Trim(s: string): (r: string)
    ensures |r| <= |s|
  {
    TrimEnd(TrimStart(s))
  }

  /** `s.trim()` is the infix of `s` that starts where TrimStart cut and is
      followed by white space only. */
  lemma TrimIsInfix(s: string)
    ensures var r := Trim(s);
            var k := |s| - |TrimStart(s)|;
            k + |r| <= |s| && r == s[k..k + |r|] && IsBlank(s[k + |r|..])
  {
    var t := TrimStart(s);
    var r := TrimEnd(t);
    var k := |s| - |t|;
    assert r == s[k..k + |r|];
    assert s[k + |r|..] == t[|r|..];
  }

  /** `s.trim()` neither starts nor ends with white space. */
  lemma TrimEnds(s: string)
    ensures var r := Trim(s);
            r != [] ==> !IsWhitespace(r[0]) && !IsWhitespace(r[|r| - 1])
  {
    var t := TrimStart(s);
    var r := TrimEnd(t);
    if r != [] {
      assert r[0] == t[0];
    }
  }

  lemma TrimStartEmptyIffBlank(s: string)
    ensures TrimStart(s) == [] <==> IsBlank(s)
  {
    if TrimStart(s) == [] {
      assert s[..LeadingBlanks(s)] == s;
    }
  }

  /** A name trims to "" exactly when every character of it is whitespace. */
  lemma TrimEmptyIffBlank(s: string)
    ensures Trim(s) == "" <==> IsBlank(s)
  {
    TrimStartEmptyIffBlank(s);
    var t := TrimStart(s);
    if t != [] {
      TrimEndOfNonBlank(t);
    }
  }

  lemma TrimEndOfNonBlank(t: string)
    requires t != [] && !IsWhitespace(t[0])
    ensures TrimEnd(t) != []
  {
    var n := TrailingBlanks(t);
    assert forall j | |t| - n <= j < |t| :: IsWhitespace(t[j]);
  }
}
