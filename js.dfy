/**
 * The handful of JavaScript built-ins the site's rules are written with:
 * `parseInt` (with its NaN result), integer `toString`, `toLowerCase`,
 * `includes` and `startsWith` on strings, and string truthiness.
 * Strings are sequences of characters; numbers that the site computes are
 * integers, so a JS number is either an integer or NaN.
 */
module Js {

  datatype Option<T> = None | Some(value: T)

  /** A JavaScript number as the site produces it: an integer, or NaN. */
  datatype Number = NaN | Num(value: int)

  /** A string is truthy iff it is not empty. */
  predicate Truthy(s: string) { s != [] }

  /** The UTF-16 code units of one character: two for a character outside the basic plane. */
  function CodeUnits(c: char): nat
  {
    if c as int >= 0x1_0000 then 2 else 1
  }

  /** A string's `length`, which counts UTF-16 code units rather than characters. */
  function CodeUnitLength(s: string): (n: nat)
    ensures |s| <= n <= 2 * |s|
  {
    if s == [] then 0 else CodeUnits(s[0]) + CodeUnitLength(s[1..])
  }

  /** Outside the basic plane nothing is counted twice, so `length` is the number of characters. */
  lemma {:induction false} CodeUnitLengthOfBasicPlane(s: string)
    requires forall i :: 0 <= i < |s| ==> s[i] as int < 0x1_0000
    ensures CodeUnitLength(s) == |s|
  {
    if s != [] {
      assert forall i :: 0 <= i < |s[1..]| ==> s[1..][i] == s[i + 1];
      CodeUnitLengthOfBasicPlane(s[1..]);
    }
  }

  /** A single emoji has `length` 2. */
  lemma EmojiHasLengthTwo()
    ensures |"\U{1F600}"| == 1 && CodeUnitLength("\U{1F600}") == 2
  {
  }

  /** `String.prototype.startsWith`. */
  predicate StartsWith(s: string, prefix: string)
  {
    |prefix| <= |s| && s[..|prefix|] == prefix
  }

  /** `needle` occurs in `hay` starting at position `i`. */
  predicate OccursAt(hay: string, needle: string, i: int)
  {
    0 <= i && i + |needle| <= |hay| && hay[i..i + |needle|] == needle
  }

  /** `String.prototype.includes`, scanning `hay` from the left. */
  predicate Includes(hay: string, needle: string)
    decreases |hay|
  {
    StartsWith(hay, needle) || (hay != [] && Includes(hay[1..], needle))
  }

  /** The scan finds `needle` iff it occurs at some position. */
  lemma {:induction false} IncludesAt(hay: string, needle: string)
    ensures Includes(hay, needle) <==> exists i :: OccursAt(hay, needle, i)
    decreases |hay|
  {
    if StartsWith(hay, needle) {
      assert OccursAt(hay, needle, 0);
    } else if hay != [] {
      IncludesAt(hay[1..], needle);
      if Includes(hay[1..], needle) {
        var i :| OccursAt(hay[1..], needle, i);
        assert hay[i + 1..i + 1 + |needle|] == hay[1..][i..i + |needle|];
        assert OccursAt(hay, needle, i + 1);
      }
      if exists i :: OccursAt(hay, needle, i) {
        var i :| OccursAt(hay, needle, i);
        assert i != 0;
        assert hay[1..][i - 1..i - 1 + |needle|] == hay[i..i + |needle|];
        assert OccursAt(hay[1..], needle, i - 1);
      }
    }
  }

  /** The empty string is included in every string. */
  lemma IncludesEmpty(hay: string)
    ensures Includes(hay, "")
  {
  }

  /** `toLowerCase` on one character; only the ASCII letters A-Z are mapped. */
  function LowerChar(c: char): (d: char)
    ensures 'A' <= c <= 'Z' ==> d as int == c as int + 32
    ensures !('A' <= c <= 'Z') ==> d == c
    ensures !('A' <= d <= 'Z')
  {
    if 'A' <= c <= 'Z' then (c as int + 32) as char else c
  }

  /** `String.prototype.toLowerCase`, character by character. */
  function ToLower(s: string): (r: string)
    ensures |r| == |s|
    ensures forall i :: 0 <= i < |s| ==> r[i] == LowerChar(s[i])
  {
    if s == [] then [] else [LowerChar(s[0])] + ToLower(s[1..])
  }

  /** Lower-casing twice is lower-casing once. */
  lemma ToLowerIdempotent(s: string)
    ensures ToLower(ToLower(s)) == ToLower(s)
  {
  }

  /**
   * The characters `parseInt` skips before the number: the ECMAScript
   * WhiteSpace (TAB, VT, FF, ZWNBSP and the space separators) and
   * LineTerminator (LF, CR, LS, PS) characters.
   */
  predicate IsWhiteSpace(c: char)
  {
    var k := c as int;
    k == 0x09 || k == 0x0A || k == 0x0B || k == 0x0C || k == 0x0D || k == 0x20 ||
    k == 0xA0 || k == 0x1680 || (0x2000 <= k <= 0x200A) || k == 0x2028 || k == 0x2029 ||
    k == 0x202F || k == 0x205F || k == 0x3000 || k == 0xFEFF
  }

  predicate IsDecimalDigit(c: char) { '0' <= c <= '9' }

  /** The value of `c` as a digit of base 16 (or 10), or 99 if it is none. */
  function DigitValue(c: char): (v: nat)
    ensures IsDecimalDigit(c) ==> v == c as int - '0' as int
    ensures v < 16 ==> IsDecimalDigit(c) || ('a' <= c <= 'f') || ('A' <= c <= 'F')
  {
    if '0' <= c <= '9' then c as int - '0' as int
    else if 'a' <= c <= 'f' then c as int - 'a' as int + 10
    else if 'A' <= c <= 'F' then c as int - 'A' as int + 10
    else 99
  }

  function TrimStart(s: string): (r: string)
    ensures |r| <= |s| && r == s[|s| - |r|..]
    ensures r != [] ==> !IsWhiteSpace(r[0])
  {
    if s != [] && IsWhiteSpace(s[0]) then TrimStart(s[1..]) else s
  }

  /** The longest prefix of `s` made of digits of base `radix`. */
  function DigitPrefix(s: string, radix: nat): (r: string)
    ensures |r| <= |s| && r == s[..|r|]
    ensures forall i :: 0 <= i < |r| ==> DigitValue(r[i]) < radix
    ensures |r| < |s| ==> DigitValue(s[|r|]) >= radix
  {
    if s != [] && DigitValue(s[0]) < radix then [s[0]] + DigitPrefix(s[1..], radix) else []
  }

  /** The value of a string of digits, most significant first. */
  function DigitsValue(d: string, radix: nat): nat
  {
    if d == [] then 0
    else DigitsValue(d[..|d| - 1], radix) * radix + (if DigitValue(d[|d| - 1]) < radix then DigitValue(d[|d| - 1]) else 0)
  }

  /** `0x` or `0X` in front: `parseInt` then reads base 16. */
  predicate HexPrefixed(u: string)
  {
    |u| >= 2 && u[0] == '0' && (u[1] == 'x' || u[1] == 'X')
  }

  /** The number read from the digits of base `radix` at the start of `u`: NaN when there are none. */
  function ReadDigits(u: string, radix: nat): Number
  {
    var digits := DigitPrefix(u, radix);
    if digits == [] then NaN else Num(DigitsValue(digits, radix))
  }

  /** The number read from `u`, which follows any sign: base 16 after `0x`/`0X`, base 10 otherwise. */
  function ParseUnsigned(u: string): Number
  {
    if HexPrefixed(u) then ReadDigits(u[2..], 16) else ReadDigits(u, 10)
  }

  /** Unary minus on a JS number; NaN stays NaN. */
  function Negate(x: Number): Number
  {
    match x
    case NaN => NaN
    case Num(v) => Num(-v)
  }

  /** The number read from `t`, which starts after the skipped white space: one optional sign, then digits. */
  function ParseSigned(t: string): Number
  {
    if t != [] && t[0] == '-' then Negate(ParseUnsigned(t[1..]))
    else if t != [] && t[0] == '+' then ParseUnsigned(t[1..])
    else ParseUnsigned(t)
  }

  /**
   * Global `parseInt` without a radix: skip leading white space, take one
   * optional sign, read base 16 after a `0x`/`0X` prefix and base 10
   * otherwise, and stop at the first character that is not a digit.
   * NaN when no digit is read.
   */
  function ParseInt(s: string): Number
  {
    ParseSigned(TrimStart(s))
  }

  function DigitChar(d: nat): (c: char)
    requires d < 10
    ensures IsDecimalDigit(c) && DigitValue(c) == d
  {
    ('0' as int + d) as char
  }

  /** Decimal digits of a natural number, most significant first, no leading zero. */
  function NatToString(n: nat): (s: string)
    ensures s != []
    ensures forall i :: 0 <= i < |s| ==> IsDecimalDigit(s[i])
  {
    if n < 10 then [DigitChar(n)] else NatToString(n / 10) + [DigitChar(n % 10)]
  }

  /** `Number.prototype.toString` of an integer. */
  function IntToString(n: int): string
  {
    if n < 0 then "-" + NatToString(-n) else NatToString(n)
  }

  /** `String(x)` for a number that may be NaN. */
  function NumberToString(x: Number): string
  {
    match x
    case NaN => "NaN"
    case Num(n) => IntToString(n)
  }

  lemma {:induction false} NatToStringValue(n: nat)
    ensures DigitsValue(NatToString(n), 10) == n
  {
    var s := NatToString(n);
    if n >= 10 {
      NatToStringValue(n / 10);
      assert s[..|s| - 1] == NatToString(n / 10);
    }
  }

  lemma {:induction false} AllDigitsPrefix(s: string)
    requires forall i :: 0 <= i < |s| ==> IsDecimalDigit(s[i])
    ensures DigitPrefix(s, 10) == s
  {
    if s != [] {
      AllDigitsPrefix(s[1..]);
    }
  }

  /** A non-empty run of decimal digits reads as its value. */
  lemma ParseUnsignedOfDigits(d: string)
    requires d != [] && forall i :: 0 <= i < |d| ==> IsDecimalDigit(d[i])
    ensures ParseUnsigned(d) == Num(DigitsValue(d, 10))
  {
    AllDigitsPrefix(d);
    assert !HexPrefixed(d) by {
      if |d| >= 2 { assert IsDecimalDigit(d[1]); }
    }
  }

  lemma TrimStartOfNonSpace(s: string)
    requires s != [] && !IsWhiteSpace(s[0])
    ensures TrimStart(s) == s
  {
  }

  lemma DigitIsNotSpace(c: char)
    requires IsDecimalDigit(c)
    ensures !IsWhiteSpace(c) && c != '-' && c != '+'
  {
  }

  /** Text that starts with a decimal digit has neither white space nor a sign to skip. */
  lemma ParseIntOfDigitFirst(s: string)
    requires s != [] && IsDecimalDigit(s[0])
    ensures ParseInt(s) == ParseUnsigned(s)
  {
    DigitIsNotSpace(s[0]);
    TrimStartOfNonSpace(s);
  }

  lemma ParseIntOfDigits(d: string)
    requires d != [] && forall i :: 0 <= i < |d| ==> IsDecimalDigit(d[i])
    ensures ParseInt(d) == Num(DigitsValue(d, 10))
  {
    ParseUnsignedOfDigits(d);
    ParseIntOfDigitFirst(d);
  }

  /** A minus sign followed by text that reads as `v` reads as `-v`. */
  lemma ParseIntOfMinus(s: string, v: int)
    requires s != [] && s[0] == '-' && ParseUnsigned(s[1..]) == Num(v)
    ensures ParseInt(s) == Num(-v)
  {
    assert !IsWhiteSpace(s[0]);
    TrimStartOfNonSpace(s);
  }

  /**
   * Digits followed by text that starts with neither a digit nor an `x`/`X`
   * read as the digits' value.
   */
  lemma ParseIntBeforeText(d: string, rest: string)
    requires d != [] && forall i :: 0 <= i < |d| ==> IsDecimalDigit(d[i])
    requires rest != [] && DigitValue(rest[0]) >= 10 && rest[0] != 'x' && rest[0] != 'X'
    ensures ParseInt(d + rest) == Num(DigitsValue(d, 10))
  {
    var s := d + rest;
    ParseUnsignedBeforeText(d, rest);
    assert s[0] == d[0];
    ParseIntOfDigitFirst(s);
  }

  lemma {:induction false} DigitPrefixBeforeText(d: string, rest: string)
    requires forall i :: 0 <= i < |d| ==> IsDecimalDigit(d[i])
    requires rest != [] && DigitValue(rest[0]) >= 10
    ensures DigitPrefix(d + rest, 10) == d
  {
    if d != [] {
      assert (d + rest)[1..] == d[1..] + rest;
      DigitPrefixBeforeText(d[1..], rest);
    }
  }

  lemma ParseUnsignedBeforeText(d: string, rest: string)
    requires d != [] && forall i :: 0 <= i < |d| ==> IsDecimalDigit(d[i])
    requires rest != [] && DigitValue(rest[0]) >= 10 && rest[0] != 'x' && rest[0] != 'X'
    ensures ParseUnsigned(d + rest) == Num(DigitsValue(d, 10))
  {
    var s := d + rest;
    DigitPrefixBeforeText(d, rest);
    assert !HexPrefixed(s) by {
      if |d| >= 2 { assert s[1] == d[1]; } else { assert s[1] == rest[0]; }
    }
  }

  /** Reading back the decimal text of a natural number gives the number. */
  lemma ParseIntOfNatToString(n: nat)
    ensures ParseInt(NatToString(n)) == Num(n)
  {
    NatToStringValue(n);
    ParseIntOfDigits(NatToString(n));
  }

  /** Reading back the decimal text of an integer gives the integer. */
  lemma ParseIntOfIntToString(n: int)
    ensures ParseInt(IntToString(n)) == Num(n)
  {
    var m: nat := if n < 0 then -n else n;
    var t := NatToString(m);
    NatToStringValue(m);
    ParseUnsignedOfDigits(t);
    if n < 0 {
      var s := "-" + t;
      assert s[1..] == t;
      ParseIntOfMinus(s, m);
    } else {
      ParseIntOfDigitFirst(t);
    }
  }

  /** NaN prints as "NaN", which reads back as NaN: the round trip holds for every number. */
  lemma ParseIntOfNumberToString(x: Number)
    ensures ParseInt(NumberToString(x)) == x
  {
    match x
    case NaN =>
      var t := "NaN";
      assert !IsWhiteSpace(t[0]) && t[0] != '-' && t[0] != '+';
      TrimStartOfNonSpace(t);
      assert !HexPrefixed(t);
      assert DigitPrefix(t, 10) == [];
    case Num(n) =>
      ParseIntOfIntToString(n);
  }
}
