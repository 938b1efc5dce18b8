/** JavaScript's number conversions as the editor meets them: `parseInt` of
 *  a goal option, `Number(value)` inside a DataView setter, and the 32-bit
 *  shift and or operators of the overworld loader. Numbers are the integers
 *  they truncate to; see README for what doubles add. */
module JsNumber {
  import opened Wrappers
  import opened Bytes

  // ---------------------------------------------------------------- white space

  /** ECMAScript's WhiteSpace and LineTerminator characters, which both
   *  conversions skip around a number. */
  predicate IsSpace(c: char)
  {
    c == '\t' || c == '\n' || c == '\U{B}' || c == '\U{C}' || c == '\r' || c == ' ' || c == '\U{A0}'
    || c == '\U{1680}' || ('\U{2000}' <= c <= '\U{200A}') || c == '\U{2028}' || c == '\U{2029}'
    || c == '\U{202F}' || c == '\U{205F}' || c == '\U{3000}' || c == '\U{FEFF}'
  }

  /** `s` without the white space at its front. */
  function TrimStart(s: string): (r: string)
    ensures |r| <= |s| && r == s[|s| - |r|..]
    ensures forall i | 0 <= i < |s| - |r| :: IsSpace(s[i])
    ensures r != [] ==> !IsSpace(r[0])
  {
    if s != [] && IsSpace(s[0]) then TrimStart(s[1..]) else s
  }

  /** `s` without the white space at its end. */
  function TrimEnd(s: string): (r: string)
    ensures |r| <= |s| && r == s[..|r|]
    ensures forall i | |r| <= i < |s| :: IsSpace(s[i])
    ensures r != [] ==> !IsSpace(r[|r| - 1])
  {
    if s != [] && IsSpace(s[|s| - 1]) then TrimEnd(s[..|s| - 1]) else s
  }

  /** White space in front of a string that starts with something else is
   *  exactly what `TrimStart` removes. */
  lemma {:induction false} TrimSpaces(w: string, s: string)
    requires forall i | 0 <= i < |w| :: IsSpace(w[i])
    requires s != [] ==> !IsSpace(s[0])
    ensures TrimStart(w + s) == s
    decreases |w|
  {
    if w != [] {
      assert (w + s)[1..] == w[1..] + s;
      TrimSpaces(w[1..], s);
    } else {
      assert w + s == s;
    }
  }

  // ---------------------------------------------------------------- digits

  /** A digit's value in the bases up to 36; 36 for any other character. */
  function DigitValue(c: char): (d: nat)
    ensures d <= 36
    ensures d < 10 <==> IsDigit(c)
    ensures IsDigit(c) ==> d == c as int - '0' as int
  {
    if '0' <= c <= '9' then c as int - '0' as int
    else if 'a' <= c <= 'z' then c as int - 'a' as int + 10
    else if 'A' <= c <= 'Z' then c as int - 'A' as int + 10
    else 36
  }

  predicate RadixDigits(s: string, radix: nat)
  {
    forall i | 0 <= i < |s| :: DigitValue(s[i]) < radix
  }

  /** How many characters at the front of `s` are digits of the base. */
  function LeadingDigits(s: string, radix: nat): (k: nat)
    ensures k <= |s| && RadixDigits(s[..k], radix)
    ensures k < |s| ==> DigitValue(s[k]) >= radix
  {
    if s == [] || DigitValue(s[0]) >= radix then 0
    else
      var k := 1 + LeadingDigits(s[1..], radix);
      assert forall i | 1 <= i < k :: s[..k][i] == s[1..][..k - 1][i - 1];
      k
  }

  /** The value of a run of digits of the base, most significant first. */
  function RadixValue(s: string, radix: nat): (v: nat)
    requires RadixDigits(s, radix)
  {
    if s == [] then 0 else radix * RadixValue(s[..|s| - 1], radix) + DigitValue(s[|s| - 1])
  }

  /** A run of digits is read whole, up to the first other character. */
  lemma {:induction false} LeadingRun(ds: string, rest: string, radix: nat)
    requires RadixDigits(ds, radix)
    requires rest != [] ==> DigitValue(rest[0]) >= radix
    ensures LeadingDigits(ds + rest, radix) == |ds|
    decreases |ds|
  {
    if ds != [] {
      assert (ds + rest)[1..] == ds[1..] + rest;
      LeadingRun(ds[1..], rest, radix);
    } else {
      assert ds + rest == rest;
    }
  }

  /** In base 10 the value is the decimal one. */
  lemma {:induction false} DecimalValue(s: string)
    requires forall i | 0 <= i < |s| :: IsDigit(s[i])
    ensures RadixDigits(s, 10) && RadixValue(s, 10) == Decimal(s)
    decreases |s|
  {
    if s != [] {
      DecimalValue(s[..|s| - 1]);
    }
  }

  // ---------------------------------------------------------------- parseInt

  /** The optional sign after the white space: whether it is a minus, and
   *  the text after it. */
  function Unsigned(t: string): (bool, string)
  {
    if t != [] && (t[0] == '-' || t[0] == '+') then (t[0] == '-', t[1..]) else (false, t)
  }

  predicate HexPrefix(s: string)
  {
    |s| >= 2 && s[0] == '0' && (s[1] == 'x' || s[1] == 'X')
  }

  /** JavaScript's `parseInt(s)` without a radix: white space at the front is
   *  skipped, then the number is read as `ParseTrimmed` says. */
  function ParseInt(s: string): (r: Option<int>)
  {
    ParseTrimmed(TrimStart(s))
  }

  /** `parseInt` after the white space: an optional sign; a `0x` or `0X`
   *  prefix chooses base 16, base 10 otherwise; then the longest run of
   *  digits of the base, whatever follows it. `None` is NaN, when no digit
   *  follows. */
  function ParseTrimmed(t: string): (r: Option<int>)
  {
    var (negative, body) := Unsigned(t);
    var radix := if HexPrefix(body) then 16 else 10;
    var digits := if HexPrefix(body) then body[2..] else body;
    var k := LeadingDigits(digits, radix);
    if k == 0 then None
    else
      var n: int := RadixValue(digits[..k], radix);
      Some(if negative then -n else n)
  }

  /** White space in front is skipped like the string's own. */
  lemma {:induction false} TrimStartSpaces(w: string, s: string)
    requires forall i | 0 <= i < |w| :: IsSpace(w[i])
    ensures TrimStart(w + s) == TrimStart(s)
    decreases |w|
  {
    if w != [] {
      assert (w + s)[1..] == w[1..] + s;
      TrimStartSpaces(w[1..], s);
    } else {
      assert w + s == s;
    }
  }

  /** White space in front does not change what `parseInt` reads. */
  lemma {:induction false} ParseIntSpaces(w: string, s: string)
    requires forall i | 0 <= i < |w| :: IsSpace(w[i])
    ensures ParseInt(w + s) == ParseInt(s)
  {
    TrimStartSpaces(w, s);
  }

  /** `parseInt` reads back the decimal string `${n}` writes, after any
   *  white space and before any text that does not go on with a digit or
   *  an `x`. */
  lemma {:induction false} ParseIntString(w: string, n: int, rest: string)
    requires forall i | 0 <= i < |w| :: IsSpace(w[i])
    requires rest != [] ==> !IsDigit(rest[0]) && rest[0] != 'x' && rest[0] != 'X'
    ensures ParseInt(w + IntString(n) + rest) == Some(n)
  {
    var m := if n < 0 then -n else n;
    var text := (if n < 0 then ['-'] else []) + (DecimalString(m) + rest);
    SignedText(n, rest);
    ParseIntSpaces(w, text);
    JoinThree(w, IntString(n), rest);
    NoSpaceFirst(text);
    DecimalDigits(n < 0, DecimalString(m), rest);
    DecimalRoundTrip(m);
  }

  lemma {:induction false} JoinThree(a: string, b: string, c: string)
    ensures a + b + c == a + (b + c)
  {
  }

  /** `${n}` followed by more text: a sign, the digits, the text; it does
   *  not start with white space. */
  lemma {:induction false} SignedText(n: int, rest: string)
    ensures var text := (if n < 0 then ['-'] else []) + (DecimalString(if n < 0 then -n else n) + rest);
      IntString(n) + rest == text && text != [] && !IsSpace(text[0])
  {
    var ds := DecimalString(if n < 0 then -n else n);
    var text := (if n < 0 then ['-'] else []) + (ds + rest);
    IntStringSigned(n);
    assert IsDigit(ds[0]) && (text[0] == '-' || text[0] == ds[0]);
  }

  lemma {:induction false} NoSpaceFirst(t: string)
    requires t != [] && !IsSpace(t[0])
    ensures TrimStart(t) == t
  {
  }

  /** `parseInt` of text whose body after the sign has no `0x` prefix and
   *  starts with `k` decimal digits. */
  lemma {:induction false} ParseTrimmedDecimal(t: string, negative: bool, body: string, k: nat)
    requires Unsigned(t) == (negative, body) && !HexPrefix(body)
    requires 0 < k == LeadingDigits(body, 10)
    ensures ParseTrimmed(t) == Some(if negative then -(RadixValue(body[..k], 10) as int) else RadixValue(body[..k], 10))
  {
  }

  /** The sign a text starts with, and the text after it. */
  lemma {:induction false} UnsignedOf(negative: bool, body: string)
    requires body != [] && body[0] != '-' && body[0] != '+'
    ensures Unsigned((if negative then ['-'] else []) + body) == (negative, body)
  {
    var t := (if negative then ['-'] else []) + body;
    if negative {
      assert t[0] == '-' && t[1..] == body;
    } else {
      assert t == body;
    }
  }

  /** A sign, decimal digits and text that does not go on with a digit or an
   *  `x` read as the signed decimal value. */
  lemma {:induction false} DecimalDigits(negative: bool, ds: string, rest: string)
    requires ds != [] && forall i | 0 <= i < |ds| :: IsDigit(ds[i])
    requires rest != [] ==> !IsDigit(rest[0]) && rest[0] != 'x' && rest[0] != 'X'
    ensures ParseTrimmed((if negative then ['-'] else []) + (ds + rest)) ==
      Some(if negative then -(Decimal(ds) as int) else Decimal(ds))
  {
    var body := ds + rest;
    assert body[0] == ds[0] && IsDigit(ds[0]);
    UnsignedOf(negative, body);
    assert !HexPrefix(body) by {
      if |ds| >= 2 {
        assert body[1] == ds[1] && IsDigit(ds[1]);
      } else if |body| >= 2 {
        assert body[1] == rest[0];
      }
    }
    DecimalValue(ds);
    LeadingRun(ds, rest, 10);
    assert body[..|ds|] == ds;
    ParseTrimmedDecimal((if negative then ['-'] else []) + body, negative, body, |ds|);
  }

  /** After a `0x` or `0X` prefix the digits are read in base 16. */
  lemma {:induction false} ParseIntHex(x: char, ds: string, rest: string)
    requires x == 'x' || x == 'X'
    requires ds != [] && RadixDigits(ds, 16)
    requires rest != [] ==> DigitValue(rest[0]) >= 16
    ensures ParseInt(['0', x] + ds + rest) == Some(RadixValue(ds, 16))
  {
    var s := ['0', x] + ds + rest;
    NoSpaceFirst(s);
    assert Unsigned(s) == (false, s) && HexPrefix(s);
    assert s[2..] == ds + rest;
    LeadingRun(ds, rest, 16);
    assert (ds + rest)[..|ds|] == ds;
  }

  /** White space in front of the digits is skipped. */
  lemma {:induction false} ParseIntLeadingSpace()
    ensures ParseInt("  12") == Some(12)
  {
    assert IntString(12) == "12";
    ParseIntString("  ", 12, "");
    assert "  " + "12" + "" == "  12";
  }

  /** A `0x` prefix reads the digits in base 16. */
  lemma {:induction false} ParseIntHexPrefix()
    ensures ParseInt("0x10") == Some(16)
  {
    var s := "0x10";
    NoSpaceFirst(s);
    assert Unsigned(s) == (false, s) && HexPrefix(s);
    assert s[2..] == "10";
    assert LeadingDigits("10", 16) == 2 by {
      assert "10"[1..] == "0" && "0"[1..] == [];
    }
    assert "10"[..2] == "10";
    assert RadixValue("10", 16) == 16 by {
      assert "10"[..1] == "1" && "1"[..0] == "";
    }
  }

  /** A sign is read and the text after the digits is ignored. */
  lemma {:induction false} ParseIntTrailingText()
    ensures ParseInt("-7px") == Some(-7)
  {
    calc {
      ParseInt("-7px");
      { NoSpaceFirst("-7px"); }
      ParseTrimmed("-7px");
      { assert ['-'] + ("7" + "px") == "-7px"; }
      ParseTrimmed(['-'] + ("7" + "px"));
      { DecimalDigits(true, "7", "px"); }
      Some(-(Decimal("7") as int));
      { assert Decimal("7") == 7 by { assert "7"[..0] == []; } }
      Some(-7);
    }
  }

  /** Strings without a digit where the number should start are NaN: a
   *  word, a bare `0x`, and the empty string. */
  lemma {:induction false} ParseIntNaN()
    ensures ParseInt("px") == None
    ensures ParseInt("0x") == None
    ensures ParseInt("") == None
  {
    NoSpaceFirst("px");
    assert LeadingDigits("px", 10) == 0;
    NoSpaceFirst("0x");
    assert HexPrefix("0x") && "0x"[2..] == [];
  }

  // ---------------------------------------------------------------- Number( string )

  function Pow10(n: nat): (r: nat)
    ensures r >= 1
  {
    if n == 0 then 1 else 10 * Pow10(n - 1)
  }

  /** The exponent part of a decimal literal, up to the end of the text:
   *  nothing, or `e`/`E`, an optional sign and digits. */
  function Exponent(rest: string): Option<int>
  {
    if rest == [] then Some(0)
    else if rest[0] != 'e' && rest[0] != 'E' then None
    else
      var (negative, ds) := Unsigned(rest[1..]);
      if ds != [] && forall k | 0 <= k < |ds| :: IsDigit(ds[k]) then
        var e: int := Decimal(ds);
        Some(if negative then -e else e)
      else None
  }

  /** An unsigned decimal literal, the whole text: digits, a point and
   *  digits (one of the two runs may be empty), and an exponent; its value
   *  truncated toward zero, or `None` when the text has another shape. */
  function UnsignedDecimal(t: string): Option<nat>
  {
    var i := LeadingDigits(t, 10);
    var afterInt := t[i..];
    var afterPoint := if afterInt != [] && afterInt[0] == '.' then afterInt[1..] else afterInt;
    var f := LeadingDigits(afterPoint, 10);
    if i + f == 0 then None
    else match Exponent(afterPoint[f..])
      case None => None
      case Some(e) =>
        RadixDigitsJoin(t[..i], afterPoint[..f], 10);
        Some(Scaled(RadixValue(t[..i] + afterPoint[..f], 10), e - f))
  }

  /** `d` times ten to the `shift`, truncated toward zero when the shift is
   *  negative. */
  function Scaled(d: nat, shift: int): nat
  {
    if shift >= 0 then NatProduct(d, Pow10(shift)) else NatQuotient(d, Pow10(-shift))
  }

  function NatProduct(a: nat, b: nat): (r: nat)
    ensures r == a * b
  {
    MulNonnegative(a, b);
    a * b
  }

  function NatQuotient(a: nat, b: nat): (r: nat)
    requires b >= 1
    ensures r == a / b
  {
    DivNonnegative(a, b);
    a / b
  }

  lemma {:induction false} MulNonnegative(a: nat, b: nat)
    ensures a * b >= 0
  {
  }

  lemma {:induction false} DivNonnegative(a: nat, b: nat)
    requires b >= 1
    ensures a / b >= 0
  {
  }

  /** Two runs of digits of a base joined are digits of the base. */
  lemma {:induction false} RadixDigitsJoin(a: string, b: string, radix: nat)
    requires RadixDigits(a, radix) && RadixDigits(b, radix)
    ensures RadixDigits(a + b, radix)
  {
    forall i | 0 <= i < |a + b|
      ensures DigitValue((a + b)[i]) < radix
    {
      if i < |a| {
        assert (a + b)[i] == a[i];
      } else {
        assert (a + b)[i] == b[i - |a|];
      }
    }
  }

  /** A literal in base 16, 8 or 2 (`0x`, `0o`, `0b`, either case), the
   *  whole text, without a sign. */
  function NonDecimal(t: string): Option<nat>
  {
    if |t| < 3 || t[0] != '0' then None
    else
      var radix := if t[1] in "xX" then 16 else if t[1] in "oO" then 8 else if t[1] in "bB" then 2 else 0;
      if radix != 0 && RadixDigits(t[2..], radix) then Some(RadixValue(t[2..], radix)) else None
  }

  /** `Number(s)` as a DataView setter uses it: the value truncated toward
   *  zero; `None` for NaN and the infinities, which every setter stores as
   *  0. White space around the number is ignored. */
  function NumberOfString(s: string): (r: Option<int>)
  {
    NumberOfTrimmed(TrimEnd(TrimStart(s)))
  }

  /** `Number` of the text between the white space: 0 when there is none, a
   *  literal in base 16, 8 or 2, or a signed decimal literal. */
  function NumberOfTrimmed(t: string): (r: Option<int>)
  {
    if t == [] then Some(0)
    else if NonDecimal(t).Some? then Some(NonDecimal(t).value)
    else SignedDecimal(Unsigned(t).0, Unsigned(t).1)
  }

  /** A decimal literal after its sign; `Infinity` has no finite value. */
  function SignedDecimal(negative: bool, body: string): (r: Option<int>)
  {
    if body == "Infinity" then None
    else match UnsignedDecimal(body)
      case None => None
      case Some(n) =>
        var m: int := n;
        Some(if negative then -m else m)
  }

  /** What the setter stores for `Number(s)`: NaN and the infinities are 0. */
  function SetterValue(n: Option<int>): int
  {
    if n.Some? then n.value else 0
  }

  /** A run of decimal digits alone is read as its value. */
  lemma {:induction false} UnsignedDigits(ds: string)
    requires ds != [] && forall i | 0 <= i < |ds| :: IsDigit(ds[i])
    ensures UnsignedDecimal(ds) == Some(Decimal(ds))
  {
    DecimalValue(ds);
    LeadingRun(ds, [], 10);
    assert ds + [] == ds;
    assert ds[|ds|..] == [] && ds[..|ds|] + [] == ds;
  }

  /** `Number` of text with no base prefix: the signed decimal literal. */
  lemma {:induction false} NumberOfTrimmedDecimal(t: string, negative: bool, body: string)
    requires t != [] && NonDecimal(t).None? && Unsigned(t) == (negative, body)
    ensures NumberOfTrimmed(t) == SignedDecimal(negative, body)
  {
  }

  /** A decimal literal that is not `Infinity` is read with its sign. */
  lemma {:induction false} SignedDecimalOf(negative: bool, body: string, n: nat)
    requires body != "Infinity" && UnsignedDecimal(body) == Some(n)
    ensures SignedDecimal(negative, body) == Some(if negative then -(n as int) else n)
  {
  }

  /** Digits after an optional minus are no `0x`, `0o` or `0b` literal. */
  lemma {:induction false} NoBasePrefix(negative: bool, ds: string)
    requires ds != [] && forall i | 0 <= i < |ds| :: IsDigit(ds[i])
    ensures NonDecimal((if negative then ['-'] else []) + ds).None?
  {
    var t := (if negative then ['-'] else []) + ds;
    if |t| >= 3 && t[0] == '0' {
      assert !negative && t[1] == ds[1];
      assert IsDigit(t[1]);
    }
  }

  lemma {:induction false} NotInfinity(ds: string)
    requires ds != [] && IsDigit(ds[0])
    ensures ds != "Infinity"
  {
  }

  /** A sign and a run of decimal digits are read as the signed value. */
  lemma {:induction false} SignedDigits(negative: bool, ds: string)
    requires ds != [] && forall i | 0 <= i < |ds| :: IsDigit(ds[i])
    ensures NumberOfTrimmed((if negative then ['-'] else []) + ds) ==
      Some(if negative then -(Decimal(ds) as int) else Decimal(ds))
  {
    var t := (if negative then ['-'] else []) + ds;
    NoBasePrefix(negative, ds);
    assert IsDigit(ds[0]);
    UnsignedOf(negative, ds);
    NumberOfTrimmedDecimal(t, negative, ds);
    UnsignedDigits(ds);
    NotInfinity(ds);
    SignedDecimalOf(negative, ds, Decimal(ds));
  }

  /** `Number` reads back the decimal string `${n}` writes. */
  lemma {:induction false} NumberOfIntString(n: int)
    ensures NumberOfString(IntString(n)) == Some(n)
  {
    IntStringUnspaced(n);
    NumberOfBetweenSpaces(IntString(n), IntString(n));
    TrimmedIntString(n);
  }

  /** Between the white space, `${n}` is read as n. */
  lemma {:induction false} TrimmedIntString(n: int)
    ensures NumberOfTrimmed(IntString(n)) == Some(n)
  {
    var m := if n < 0 then -n else n;
    IntStringSigned(n);
    SignedDigits(n < 0, DecimalString(m));
    DecimalRoundTrip(m);
  }

  lemma {:induction false} IntStringSigned(n: int)
    ensures IntString(n) == (if n < 0 then ['-'] else []) + DecimalString(if n < 0 then -n else n)
  {
  }

  /** `${n}` has no white space at either end. */
  lemma {:induction false} IntStringUnspaced(n: int)
    ensures IntString(n) != [] && !IsSpace(IntString(n)[0]) && !IsSpace(IntString(n)[|IntString(n)| - 1])
    ensures TrimEnd(TrimStart(IntString(n))) == IntString(n)
  {
    IntStringEnds(n);
    NoSpaceFirst(IntString(n));
    NoSpaceLast(IntString(n));
  }

  lemma {:induction false} IntStringEnds(n: int)
    ensures IntString(n) != [] && !IsSpace(IntString(n)[0]) && !IsSpace(IntString(n)[|IntString(n)| - 1])
  {
    IntStringSigned(n);
    SignedDigitsEnds(n < 0, DecimalString(if n < 0 then -n else n));
  }

  /** A sign and digits neither start nor end with white space. */
  lemma {:induction false} SignedDigitsEnds(negative: bool, ds: string)
    requires ds != [] && forall i | 0 <= i < |ds| :: IsDigit(ds[i])
    ensures var s := (if negative then ['-'] else []) + ds;
      s != [] && !IsSpace(s[0]) && !IsSpace(s[|s| - 1])
  {
    var s := (if negative then ['-'] else []) + ds;
    assert IsDigit(ds[0]) && s[|s| - 1] == ds[|ds| - 1] && IsDigit(ds[|ds| - 1]);
  }

  /** `Number` reads the text between the white space. */
  lemma {:induction false} NumberOfBetweenSpaces(s: string, t: string)
    requires TrimEnd(TrimStart(s)) == t
    ensures NumberOfString(s) == NumberOfTrimmed(t)
  {
  }

  lemma {:induction false} NoSpaceLast(t: string)
    requires t != [] && !IsSpace(t[|t| - 1])
    ensures TrimEnd(t) == t
  {
  }

  /** White space at the end of a string that ends with something else is
   *  exactly what `TrimEnd` removes. */
  lemma {:induction false} TrimEndSpaces(s: string, w: string)
    requires s != [] && !IsSpace(s[|s| - 1])
    requires forall i | 0 <= i < |w| :: IsSpace(w[i])
    ensures TrimEnd(s + w) == s
    decreases |w|
  {
    if w != [] {
      assert (s + w)[..|s + w| - 1] == s + w[..|w| - 1];
      TrimEndSpaces(s, w[..|w| - 1]);
    } else {
      assert s + w == s;
      NoSpaceLast(s);
    }
  }

  /** White space on either side of `${n}` is ignored. */
  lemma {:induction false} NumberSpaced(w: string, n: int, v: string)
    requires forall i | 0 <= i < |w| :: IsSpace(w[i])
    requires forall i | 0 <= i < |v| :: IsSpace(v[i])
    ensures NumberOfString(w + IntString(n) + v) == Some(n)
  {
    IntStringUnspaced(n);
    SpacedTrim(w, IntString(n), v);
    NumberOfBetweenSpaces(w + IntString(n) + v, IntString(n));
    TrimmedIntString(n);
  }

  /** Trimming removes exactly the white space put around a string that
   *  neither starts nor ends with white space. */
  lemma {:induction false} SpacedTrim(w: string, s: string, v: string)
    requires forall i | 0 <= i < |w| :: IsSpace(w[i])
    requires forall i | 0 <= i < |v| :: IsSpace(v[i])
    requires s != [] && !IsSpace(s[0]) && !IsSpace(s[|s| - 1])
    ensures TrimEnd(TrimStart(w + s + v)) == s
  {
    NoSpaceJoined(s, v);
    TrimSpaces(w, s + v);
    TrimEndSpaces(s, v);
    JoinThree(w, s, v);
  }

  lemma {:induction false} NoSpaceJoined(s: string, v: string)
    requires s != [] && !IsSpace(s[0])
    ensures s + v != [] && !IsSpace((s + v)[0])
  {
    assert (s + v)[0] == s[0];
  }

  /** A fraction is truncated toward zero. */
  lemma {:induction false} NumberFraction()
    ensures NumberOfString("-2.7") == Some(-2)
  {
    var t := "-2.7";
    NoSpaceFirst(t);
    assert TrimEnd(t) == t;
    assert NonDecimal(t).None?;
    assert Unsigned(t) == (true, "2.7") by { assert t[1..] == "2.7"; }
    FractionDigits();
    assert SignedDecimal(true, "2.7") == Some(-2);
  }

  /** The digits of "2.7": the fraction is read, then cut off. */
  lemma {:induction false} FractionDigits()
    ensures UnsignedDecimal("2.7") == Some(2)
  {
    FractionRuns();
    assert "2.7"[..1] + "7"[..1] == "27";
    assert RadixValue("27", 10) == 27 by { assert "27"[..1] == "2" && "2"[..0] == ""; }
    assert Pow10(1) == 10;
  }

  /** "2.7" splits into one integer digit, the point and one fraction
   *  digit. */
  lemma {:induction false} FractionRuns()
    ensures LeadingDigits("2.7", 10) == 1 && "2.7"[1..] == ".7" && ".7"[1..] == "7"
    ensures LeadingDigits("7", 10) == 1 && "7"[1..] == []
  {
    assert LeadingDigits("2.7", 10) == 1 by { assert "2.7"[1..] == ".7"; }
    assert LeadingDigits("7", 10) == 1 by { assert "7"[1..] == []; }
  }

  /** An exponent scales the value. */
  lemma {:induction false} NumberExponent()
    ensures NumberOfString("1e3") == Some(1000)
  {
    var t := "1e3";
    NoSpaceFirst(t);
    assert TrimEnd(t) == t;
    assert NonDecimal(t).None?;
    assert Unsigned(t) == (false, t);
    ExponentDigits();
    assert SignedDecimal(false, t) == Some(1000);
  }

  /** The digits of "1e3": one digit, scaled by the exponent. */
  lemma {:induction false} ExponentDigits()
    ensures UnsignedDecimal("1e3") == Some(1000)
  {
    var t := "1e3";
    assert LeadingDigits(t, 10) == 1 by { assert t[1..] == "e3"; }
    assert t[1..] == "e3" && LeadingDigits("e3", 10) == 0;
    assert Exponent("e3") == Some(3) by {
      assert "e3"[1..] == "3";
      assert Decimal("3") == 3 by { assert "3"[..0] == ""; }
    }
    assert "e3"[..0] == [] && "e3"[0..] == "e3";
    assert t[..1] + [] == "1";
    assert RadixValue("1", 10) == 1 by { assert "1"[..0] == ""; }
    assert Pow10(3) == 1000;
  }

  /** Text that is not a number is NaN; the empty string is 0. */
  lemma {:induction false} NumberNotANumber()
    ensures NumberOfString("abc") == None && NumberOfString("") == Some(0)
  {
    var t := "abc";
    NoSpaceFirst(t);
    assert TrimEnd(t) == t;
    assert NonDecimal(t).None?;
    assert Unsigned(t) == (false, t);
    assert UnsignedDecimal(t) == None by {
      assert LeadingDigits(t, 10) == 0;
      assert t[0..] == t;
      assert LeadingDigits(t, 10) == 0;
    }
  }

  /** A `0x` literal is read in base 16. */
  lemma {:induction false} NumberHex()
    ensures NumberOfString("0x10") == Some(16)
  {
    var t := "0x10";
    NoSpaceFirst(t);
    assert TrimEnd(t) == t;
    assert t[2..] == "10" && RadixDigits("10", 16);
    assert RadixValue("10", 16) == 16 by {
      assert "10"[..1] == "1" && "1"[..0] == "";
    }
  }

  // ---------------------------------------------------------------- 32-bit operators

  const Two32: nat := 0x1_0000_0000
  const Two31: nat := 0x8000_0000

  /** ToUint32: the value modulo 2^32. */
  function ToUint32(x: int): (r: nat)
    ensures r < Two32
  {
    x % Two32
  }

  /** ToInt32: the value modulo 2^32, read as a two's-complement number. */
  function ToInt32(x: int): (r: int)
    ensures -(Two31 as int) <= r < Two31
    ensures (r - x) % Two32 == 0
  {
    var u := ToUint32(x);
    if u >= Two31 then u - Two32 else u
  }

  /** `a << s`, for a shift count below 32. */
  function ShiftLeft(a: int, s: nat): int
    requires s < 32
  {
    ToInt32(ToInt32(a) * Pow2(s))
  }

  /** `a >> s`: the arithmetic shift, rounding toward minus infinity. */
  function ShiftRight(a: int, s: nat): int
    requires s < 32
  {
    ToInt32(a) / Pow2(s)
  }

  /** `a >>> s`: the logical shift of the unsigned value. */
  function ShiftRightUnsigned(a: int, s: nat): nat
    requires s < 32
  {
    NatQuotient(ToUint32(a), Pow2(s))
  }

  /** The bitwise or of the low `w` bits of two naturals. */
  function OrBits(x: nat, y: nat, w: nat): nat
  {
    if w == 0 then 0
    else 2 * OrBits(x / 2, y / 2, w - 1) + (if x % 2 == 1 || y % 2 == 1 then 1 else 0)
  }

  /** `a | b`: the or of the two 32-bit patterns, read as a signed number. */
  function Or(a: int, b: int): int
  {
    ToInt32(OrBits(ToUint32(a), ToUint32(b), 32))
  }

  /** Or with nothing keeps the low bits. */
  lemma {:induction false} OrZero(x: nat, w: nat)
    requires x < Pow2(w)
    ensures OrBits(x, 0, w) == x
  {
    if w > 0 {
      OrZero(x / 2, w - 1);
    }
  }

  /** The or of bits that do not overlap is their sum. */
  lemma {:induction false} OrDisjoint(x: nat, y: nat, k: nat, w: nat)
    requires k <= w && x < Pow2(w) && y < Pow2(k) && x % Pow2(k) == 0
    ensures OrBits(x, y, w) == x + y
    decreases k
  {
    if k == 0 {
      OrZero(x, w);
    } else {
      assert Pow2(k) == 2 * Pow2(k - 1) && Pow2(w) == 2 * Pow2(w - 1);
      ModHalf(x, Pow2(k - 1));
      OrDisjoint(x / 2, y / 2, k - 1, w - 1);
    }
  }

  lemma {:induction false} ModHalf(x: nat, p: nat)
    requires p > 0 && x % (2 * p) == 0
    ensures x % 2 == 0 && (x / 2) % p == 0
  {
    var q := x / (2 * p);
    assert x == (2 * p) * q;
    assert (2 * p) * q == 2 * (p * q);
    DivUnique(x, 2, p * q, 0);
    DivUnique(p * q, p, q, 0);
  }

  lemma {:induction false} ShiftPowers()
    ensures Pow2(7) == 128 && Pow2(8) == 256 && Pow2(15) == 32768 && Pow2(16) == 65536
    ensures Pow2(24) == 0x100_0000 && Pow2(32) == Two32
  {
    SmallPowers();
    Pow2Add(16, 8);
    Pow2Add(16, 16);
  }

  /** `b << 8` of a byte stays below 2^31, so it is the plain product. */
  lemma {:induction false} ShiftByteLeft(b: byte)
    ensures ShiftLeft(b, 8) == 256 * b
  {
    SmallPowers();
    Int32Congruent(b, b);
    Int32Congruent(256 * b, 256 * b);
  }

  /** A byte or-ed into the zero low byte of a shifted byte is added to it. */
  lemma {:induction false} OrLowByte(b0: byte, b1: byte)
    ensures OrBits(256 * b0, b1, 32) == 256 * b0 + b1
  {
    ShiftPowers();
    var x := 256 * (b0 as int);
    assert x % Pow2(8) == 0;
    OrDisjoint(x, b1 as nat, 8, 32);
  }

  /** A byte shifted into the next byte's place and or-ed with that byte is
   *  the big-endian word of the two. */
  lemma {:induction false} WordOfShiftOr(b0: byte, b1: byte)
    ensures Or(ShiftLeft(b0, 8), b1) == 256 * b0 + b1
  {
    var x := 256 * (b0 as int);
    calc {
      Or(ShiftLeft(b0, 8), b1);
      { ShiftByteLeft(b0); }
      Or(x, b1);
      { assert ToUint32(x) == x && ToUint32(b1) == b1; }
      ToInt32(OrBits(x, b1, 32));
      { OrLowByte(b0, b1); }
      ToInt32(x + b1);
      { Int32Congruent(x + b1, x + b1); }
      x + b1;
    }
  }

  /** `x >>> 0` leaves a non-negative 32-bit value as it is. */
  lemma {:induction false} UnsignedOfSmall(x: int)
    requires 0 <= x < Two31
    ensures ShiftRightUnsigned(x, 0) == x
  {
  }

  /** ToInt32 of any value is the one 32-bit signed value congruent to it
   *  modulo 2^32. */
  lemma {:induction false} Int32Congruent(x: int, y: int)
    requires -(Two31 as int) <= y < Two31 && (y - x) % Two32 == 0
    ensures ToInt32(x) == y
  {
    var t := (y - x) / Two32;
    assert y - x == Two32 * t;
    if y >= 0 {
      DivUnique(x, Two32, -t, y);
    } else {
      DivUnique(x, Two32, -t - 1, y + Two32);
    }
  }

  /** A multiple of `2^s` inside the 32-bit range, shifted right by `s`. */
  lemma {:induction false} ShiftBack(q: int, s: nat)
    requires s < 32 && -(Two31 as int) <= q * Pow2(s) < Two31
    ensures ShiftRight(q * Pow2(s), s) == q
  {
    Int32Congruent(q * Pow2(s), q * Pow2(s));
    DivExact(q, Pow2(s));
  }

  /** `v << s` of a small non-negative `v` is the 32-bit value congruent to
   *  `v * 2^s`. */
  lemma {:induction false} ShiftInto(v: nat, s: nat, y: int)
    requires s < 32 && v < Two31 && -(Two31 as int) <= y < Two31 && (y - v * Pow2(s)) % Two32 == 0
    ensures ShiftLeft(v, s) == y
  {
    Int32Congruent(v, v);
    Int32Congruent(v * Pow2(s), y);
  }

  /** `(b << 24) >> 24` sign-extends a byte. */
  lemma {:induction false} ByteSignByShifts(v: byte)
    ensures ShiftRight(ShiftLeft(v, 24), 24) == SignExtend(v, 8)
  {
    ShiftPowers();
    var q: int := if v >= 128 then v - 256 else v;
    assert q * 0x100_0000 - v * 0x100_0000 == (if v >= 128 then -(Two32 as int) else 0);
    ShiftInto(v, 24, q * 0x100_0000);
    ShiftBack(q, 24);
  }

  /** `(w << 16) >> 16` sign-extends a 16-bit word. */
  lemma {:induction false} WordSignByShifts(v: nat)
    requires v < Pow2(16)
    ensures ShiftRight(ShiftLeft(v, 16), 16) == SignExtend(v, 16)
  {
    ShiftPowers();
    var q: int := if v >= 32768 then v - 65536 else v;
    assert q * 65536 - v * 65536 == (if v >= 32768 then -(Two32 as int) else 0);
    ShiftInto(v, 16, q * 65536);
    ShiftBack(q, 16);
  }

  lemma {:induction false} DivExact(a: int, p: nat)
    requires p > 0
    ensures (a * p) / p == a
  {
    DivUnique(a * p, p, a, 0);
  }
}
