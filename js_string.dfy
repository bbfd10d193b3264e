/**
 * The JavaScript string and number built-ins that the storefront's logic is written
 * with: the `\s` and `\d` character classes, `String.prototype.trim`, `split` on one
 * character, `toUpperCase`, `padStart(2, '0')`, `String(n)` for an integer and
 * `parseInt` without a radix.
 */
module JsString {
  import opened Wrappers

  // ---------------------------------------------------------------------------
  // Character classes
  // ---------------------------------------------------------------------------

  /** The ECMAScript WhiteSpace and LineTerminator characters: the class `\s` of a
      regular expression, and what `trim` and `parseInt` skip. */
  predicate IsWhitespace(c: char) {
    || c == '\t' || c == '\n' || c == '\U{000B}' || c == '\U{000C}' || c == '\r'
    || c == ' ' || c == '\U{00A0}' || c == '\U{1680}' || ('\U{2000}' <= c <= '\U{200A}')
    || c == '\U{2028}' || c == '\U{2029}' || c == '\U{202F}' || c == '\U{205F}'
    || c == '\U{3000}' || c == '\U{FEFF}'
  }

  /** The class `\d`: ASCII decimal digits only. */
  predicate IsDigit(c: char) {
    '0' <= c <= '9'
  }

  predicate AllWhitespace(s: string) {
    forall k :: 0 <= k < |s| ==> IsWhitespace(s[k])
  }

  predicate AllDigits(s: string) {
    forall k :: 0 <= k < |s| ==> IsDigit(s[k])
  }

  /** A character outside the Basic Multilingual Plane, which UTF-16 writes as a
      surrogate pair. */
  predicate IsAstral(c: char) {
    c as int > 0xFFFF
  }

  /** JavaScript's `length`: the number of UTF-16 code units, two for each character
      above U+FFFF and one for every other character. */
  function Utf16Length(s: string): (n: nat)
    ensures |s| <= n <= 2 * |s|
  {
    if s == [] then 0 else (if IsAstral(s[0]) then 2 else 1) + Utf16Length(s[1..])
  }

  /** A text of at least two code units is two characters long, or one character above
      U+FFFF. */
  lemma Utf16LengthAtLeastTwo(s: string)
    ensures Utf16Length(s) >= 2 <==> |s| >= 2 || (|s| == 1 && IsAstral(s[0]))
  {
    if |s| == 1 {
      assert s[1..] == [];
    }
  }

  // ---------------------------------------------------------------------------
  // trim
  // ---------------------------------------------------------------------------

  /** The end of the whitespace run that starts at `i`. */
  function WhitespaceRunEnd(s: string, i: nat): (j: nat)
    requires i <= |s|
    decreases |s| - i
    ensures i <= j <= |s|
    ensures forall k :: i <= k < j ==> IsWhitespace(s[k])
    ensures j < |s| ==> !IsWhitespace(s[j])
  {
    if i < |s| && IsWhitespace(s[i]) then WhitespaceRunEnd(s, i + 1) else i
  }

  /** The start of the whitespace run that ends at `j`, going no lower than `lo`. */
  function WhitespaceRunStart(s: string, lo: nat, j: nat): (i: nat)
    requires lo <= j <= |s|
    decreases j
    ensures lo <= i <= j
    ensures forall k :: i <= k < j ==> IsWhitespace(s[k])
    ensures i > lo ==> !IsWhitespace(s[i - 1])
  {
    if j > lo && IsWhitespace(s[j - 1]) then WhitespaceRunStart(s, lo, j - 1) else j
  }

  /** Where the trimmed string starts: the length of the leading whitespace run. */
  function TrimOffset(s: string): nat {
    WhitespaceRunEnd(s, 0)
  }

  /** `s` without its leading whitespace, as `parseInt` skips it. */
  function TrimStart(s: string): string {
    s[TrimOffset(s)..]
  }

  /** `s.trim()`: leading and trailing whitespace removed; `TrimShape` states the result. */
  function Trim(s: string): string {
    var i := TrimOffset(s);
    s[i..WhitespaceRunStart(s, i, |s|)]
  }

  /** `Trim(s)` is what lies between a leading and a trailing run of whitespace in `s`,
      and it neither starts nor ends with whitespace. */
  lemma TrimShape(s: string)
    ensures var r, i := Trim(s), TrimOffset(s);
      && i + |r| <= |s|
      && (forall k :: 0 <= k < |r| ==> r[k] == s[i + k])
      && (forall k :: 0 <= k < i ==> IsWhitespace(s[k]))
      && (forall k :: i + |r| <= k < |s| ==> IsWhitespace(s[k]))
      && (r != [] ==> !IsWhitespace(s[i]) && !IsWhitespace(s[i + |r| - 1]))
  {
    var i := TrimOffset(s);
    var e := WhitespaceRunStart(s, i, |s|);
    assert Trim(s) == s[i..e];
  }

  /** `s.trim()` is empty exactly when `s` is all whitespace (the empty string included). */
  lemma TrimIsEmptyIffBlank(s: string)
    ensures Trim(s) == "" <==> AllWhitespace(s)
  {
    TrimShape(s);
    if Trim(s) != "" {
      assert !IsWhitespace(s[TrimOffset(s)]);
    }
  }


  // ---------------------------------------------------------------------------
  // split on one separator character, and its inverse
  // ---------------------------------------------------------------------------

  /** `s.split(sep)` for a one-character separator: the maximal separator-free pieces,
      in order, including empty ones (`"".split(':')` is `[""]`). */
  function Split(s: string, sep: char): (pieces: seq<string>)
    ensures |pieces| >= 1
    ensures forall k :: 0 <= k < |pieces| ==> sep !in pieces[k]
  {
    if s == [] then [[]]
    else
      var rest := Split(s[1..], sep);
      if s[0] == sep then [[]] + rest
      else [[s[0]] + rest[0]] + rest[1..]
  }

  /** `pieces.join(sep)`. */
  function Join(pieces: seq<string>, sep: char): string
    requires |pieces| >= 1
  {
    if |pieces| == 1 then pieces[0] else pieces[0] + [sep] + Join(pieces[1..], sep)
  }

  /** Joining the pieces back with the separator gives the original string. */
  lemma {:induction false} JoinSplit(s: string, sep: char)
    ensures Join(Split(s, sep), sep) == s
  {
    if s != [] {
      JoinSplit(s[1..], sep);
      var rest := Split(s[1..], sep);
      if s[0] == sep {
        assert Split(s, sep)[1..] == rest;
      } else {
        var p := Split(s, sep);
        if |rest| == 1 {
          assert p == [[s[0]] + rest[0]];
        } else {
          assert p[1..] == rest[1..];
          assert Join(rest, sep) == rest[0] + [sep] + Join(rest[1..], sep);
        }
      }
    }
  }

  /** A separator-free string is a single piece. */
  lemma {:induction false} SplitWithoutSeparator(a: string, sep: char)
    requires sep !in a
    ensures Split(a, sep) == [a]
  {
    if a != [] {
      SplitWithoutSeparator(a[1..], sep);
      assert a == [a[0]] + a[1..];
    }
  }

  /** Splitting `a + sep + b`, with `a` free of the separator, yields `a` and then the
      pieces of `b`. */
  lemma {:induction false} SplitAfterPiece(a: string, b: string, sep: char)
    requires sep !in a
    ensures Split(a + [sep] + b, sep) == [a] + Split(b, sep)
  {
    var s := a + [sep] + b;
    if a == [] {
      assert s[1..] == b;
    } else {
      assert s[1..] == a[1..] + [sep] + b;
      SplitAfterPiece(a[1..], b, sep);
      var rest := Split(s[1..], sep);
      assert rest == [a[1..]] + Split(b, sep);
      assert Split(s, sep) == [[a[0]] + rest[0]] + rest[1..];
      assert a == [a[0]] + a[1..];
    }
  }

  /** Splitting a join of separator-free pieces gives the pieces back. */
  lemma {:induction false} SplitJoin(pieces: seq<string>, sep: char)
    requires |pieces| >= 1
    requires forall k :: 0 <= k < |pieces| ==> sep !in pieces[k]
    ensures Split(Join(pieces, sep), sep) == pieces
  {
    if |pieces| == 1 {
      SplitWithoutSeparator(pieces[0], sep);
    } else {
      SplitJoin(pieces[1..], sep);
      SplitAfterPiece(pieces[0], Join(pieces[1..], sep), sep);
    }
  }

  // ---------------------------------------------------------------------------
  // toUpperCase
  // ---------------------------------------------------------------------------

  function UpperChar(c: char): char {
    if 'a' <= c <= 'z' then (c as int - 32) as char else c
  }

  /** `s.toUpperCase()` on the ASCII letters; every other character is kept. */
  function ToUpper(s: string): (r: string)
    ensures |r| == |s|
    ensures forall k :: 0 <= k < |s| ==> r[k] == UpperChar(s[k])
  {
    seq(|s|, k requires 0 <= k < |s| => UpperChar(s[k]))
  }

  /** Upper-casing twice is upper-casing once. */
  lemma ToUpperIdempotent(s: string)
    ensures ToUpper(ToUpper(s)) == ToUpper(s)
  {
  }

  // ---------------------------------------------------------------------------
  // Digits and numerals
  // ---------------------------------------------------------------------------

  /** The two bases in which `parseInt` without a radix reads digits. */
  datatype Radix = Decimal | Hexadecimal

  function Base(radix: Radix): nat {
    if radix == Decimal then 10 else 16
  }

  predicate IsDigitIn(c: char, radix: Radix) {
    IsDigit(c) || (radix == Hexadecimal && ('a' <= c <= 'f' || 'A' <= c <= 'F'))
  }

  predicate AllDigitsIn(s: string, radix: Radix) {
    forall k :: 0 <= k < |s| ==> IsDigitIn(s[k], radix)
  }

  function DigitValue(c: char, radix: Radix): (d: nat)
    requires IsDigitIn(c, radix)
    ensures d < Base(radix)
  {
    if IsDigit(c) then c as int - '0' as int
    else if 'a' <= c <= 'f' then c as int - 'a' as int + 10
    else c as int - 'A' as int + 10
  }

  /** The number a string of digits denotes, most significant digit first. */
  function ValueIn(s: string, radix: Radix): nat
    requires AllDigitsIn(s, radix)
  {
    if s == [] then 0 else ValueIn(s[..|s| - 1], radix) * Base(radix) + DigitValue(s[|s| - 1], radix)
  }

  function DecimalValue(s: string): nat
    requires AllDigits(s)
  {
    assert AllDigitsIn(s, Decimal);
    ValueIn(s, Decimal)
  }

  /** A leading zero does not change the value of a decimal numeral. */
  lemma {:induction false} LeadingZero(s: string)
    requires AllDigits(s)
    ensures AllDigits("0" + s) && DecimalValue("0" + s) == DecimalValue(s)
  {
    var z := "0" + s;
    assert AllDigits(z);
    if s != [] {
      assert z[..|z| - 1] == "0" + s[..|s| - 1];
      LeadingZero(s[..|s| - 1]);
    }
  }

  /** The longest prefix of `s` made of digits in the given base. */
  function DigitPrefix(s: string, radix: Radix): (r: string)
    ensures AllDigitsIn(r, radix) && r <= s
    ensures |r| < |s| ==> !IsDigitIn(s[|r|], radix)
  {
    if s != [] && IsDigitIn(s[0], radix) then [s[0]] + DigitPrefix(s[1..], radix) else []
  }

  function DigitChar(d: nat): (c: char)
    requires d < 10
    ensures IsDigit(c) && IsDigitIn(c, Decimal) && DigitValue(c, Decimal) == d
  {
    ('0' as int + d) as char
  }

  /** `String(n)` for a non-negative integer: its shortest decimal numeral. */
  function NatToString(n: nat): (r: string)
    ensures |r| >= 1 && AllDigits(r)
    ensures |r| == 1 <==> n < 10
  {
    if n < 10 then [DigitChar(n)] else NatToString(n / 10) + [DigitChar(n % 10)]
  }

  /** The numeral `String(n)` writes denotes `n`. */
  lemma {:induction false} NumeralValue(n: nat)
    ensures DecimalValue(NatToString(n)) == n
  {
    var r := NatToString(n);
    if n >= 10 {
      NumeralValue(n / 10);
      assert r[..|r| - 1] == NatToString(n / 10);
      assert DecimalValue(r) == ValueIn(r[..|r| - 1], Decimal) * 10 + DigitValue(r[|r| - 1], Decimal);
    } else {
      assert r[..0] == [];
    }
  }

  /** The numeral of a positive number has no leading zero. */
  lemma {:induction false} NumeralLeadingDigit(n: nat)
    ensures NatToString(n)[0] == '0' <==> n == 0
  {
    if n >= 10 {
      NumeralLeadingDigit(n / 10);
      assert NatToString(n)[0] == NatToString(n / 10)[0];
    }
  }

  /** `String(n)` for an integer (written without an exponent). */
  function IntToString(n: int): (r: string)
    ensures |r| >= 1
    ensures n >= 0 ==> r == NatToString(n)
    ensures n < 0 ==> r == "-" + NatToString(-n)
    ensures |r| == 1 <==> 0 <= n < 10
  {
    if n < 0 then "-" + NatToString(-n) else NatToString(n)
  }

  /** `parseInt(s)`: skip leading whitespace, read an optional sign, then the digits
      `ParseMagnitude` reads. `None` stands for `NaN`, the result when no digit follows. */
  function ParseInt(s: string): Option<int> {
    var t := TrimStart(s);
    var signed := |t| > 0 && (t[0] == '-' || t[0] == '+');
    var magnitude := ParseMagnitude(if signed then t[1..] else t);
    if magnitude.None? then None
    else if signed && t[0] == '-' then Some(0 - magnitude.value as int)
    else Some(magnitude.value as int)
  }

  /** The unsigned part of `parseInt`: a `0x` / `0X` prefix switches to base 16, and the
      longest run of digits that follows is the value; no digit gives `None`. */
  function ParseMagnitude(u: string): Option<nat> {
    var hex := |u| >= 2 && u[0] == '0' && (u[1] == 'x' || u[1] == 'X');
    var radix := if hex then Hexadecimal else Decimal;
    var digits := DigitPrefix(if hex then u[2..] else u, radix);
    if digits == [] then None else Some(ValueIn(digits, radix))
  }

  lemma {:induction false} DigitPrefixOfDigits(s: string, radix: Radix)
    requires AllDigitsIn(s, radix)
    ensures DigitPrefix(s, radix) == s
  {
    if s != [] {
      DigitPrefixOfDigits(s[1..], radix);
    }
  }

  /** A run of decimal digits is read whole, in base 10. */
  lemma MagnitudeOfDigits(u: string)
    requires u != [] && AllDigits(u)
    ensures ParseMagnitude(u) == Some(DecimalValue(u))
  {
    assert |u| >= 2 ==> IsDigit(u[1]);
    assert AllDigitsIn(u, Decimal);
    DigitPrefixOfDigits(u, Decimal);
  }

  lemma MagnitudeOfNumeral(n: nat)
    ensures ParseMagnitude(NatToString(n)) == Some(n)
  {
    MagnitudeOfDigits(NatToString(n));
    NumeralValue(n);
  }

  lemma TrimStartKeeps(t: string)
    requires t != [] && !IsWhitespace(t[0])
    ensures TrimStart(t) == t
  {
  }

  lemma SignedParse(t: string, m: nat)
    requires |t| > 0 && t[0] == '-' && TrimStart(t) == t && ParseMagnitude(t[1..]) == Some(m)
    ensures ParseInt(t) == Some(0 - m as int)
  {
  }

  lemma UnsignedParse(t: string, m: nat)
    requires |t| > 0 && IsDigit(t[0]) && TrimStart(t) == t && ParseMagnitude(t) == Some(m)
    ensures ParseInt(t) == Some(m)
  {
  }

  /** `parseInt` of a run of decimal digits, leading zeros included, is its value. */
  lemma ParseIntOfDigits(u: string)
    requires u != [] && AllDigits(u)
    ensures ParseInt(u) == Some(DecimalValue(u))
  {
    MagnitudeOfDigits(u);
    assert IsDigit(u[0]);
    TrimStartKeeps(u);
    UnsignedParse(u, DecimalValue(u));
  }

  /** `parseInt` reads back what `String` writes. */
  lemma {:induction false} ParseIntOfString(n: int)
    ensures ParseInt(IntToString(n)) == Some(n)
  {
    var m: nat := if n < 0 then -n else n;
    var d := NatToString(m);
    MagnitudeOfNumeral(m);
    if n < 0 {
      var t := "-" + d;
      assert t == IntToString(n);
      TrimStartKeeps(t);
      assert t[1..] == d;
      SignedParse(t, m);
    } else {
      assert d == IntToString(n);
      assert IsDigit(d[0]);
      TrimStartKeeps(d);
      UnsignedParse(d, m);
    }
  }

  // ---------------------------------------------------------------------------
  // padStart
  // ---------------------------------------------------------------------------

  /** `s.padStart(2, '0')`: `s` behind as many zeros as it takes to reach length 2. */
  function PadStart2(s: string): (r: string)
    ensures |r| == if |s| >= 2 then |s| else 2
    ensures r[|r| - |s|..] == s
    ensures forall k :: 0 <= k < |r| - |s| ==> r[k] == '0'
  {
    if |s| >= 2 then s else if |s| == 1 then "0" + s else "00"
  }
}
