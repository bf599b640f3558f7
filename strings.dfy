/** The string operations of JavaScript the container relies on: the default
    ordering of `Array.prototype.sort`, number-to-string and `parseInt`. */
module Strings {
  import opened Common

  /** `a < b` in the default ordering of `sort()`: lexicographic by character.
      JavaScript compares UTF-16 code units, so for characters outside the Basic
      Multilingual Plane the two orders can differ; they agree on every string
      made of characters below U+10000. */
  predicate StrLt(a: string, b: string)
    decreases |a|
  {
    if |a| == 0 then |b| > 0
    else if |b| == 0 then false
    else if a[0] == b[0] then StrLt(a[1..], b[1..])
    else a[0] < b[0]
  }

  predicate StrLe(a: string, b: string) {
    a == b || StrLt(a, b)
  }

  lemma {:induction false} StrLtIrreflexive(a: string)
    ensures !StrLt(a, a)
    decreases |a|
  {
    if |a| > 0 {
      StrLtIrreflexive(a[1..]);
    }
  }

  lemma {:induction false} StrLtTransitive(a: string, b: string, c: string)
    requires StrLt(a, b) && StrLt(b, c)
    ensures StrLt(a, c)
    decreases |a|
  {
    if |a| > 0 && a[0] == b[0] && b[0] == c[0] {
      StrLtTransitive(a[1..], b[1..], c[1..]);
    }
  }

  lemma {:induction false} StrLtTotal(a: string, b: string)
    requires a != b
    ensures StrLt(a, b) || StrLt(b, a)
    decreases |a|
  {
    if |a| > 0 && |b| > 0 && a[0] == b[0] {
      assert a == [a[0]] + a[1..] && b == [b[0]] + b[1..];
      StrLtTotal(a[1..], b[1..]);
    }
  }

  lemma StrLtAsymmetric(a: string, b: string)
    requires StrLt(a, b)
    ensures !StrLt(b, a)
  {
    if StrLt(b, a) {
      StrLtTransitive(a, b, a);
      StrLtIrreflexive(a);
    }
  }

  // ---------------------------------------------------------------------------
  // Decimal strings

  function DigitChar(d: nat): char
    requires d < 10
  {
    "0123456789"[d]
  }

  /** The decimal digits of a natural number, most significant first, no leading zero. */
  function Digits(n: nat): (s: string)
    ensures |s| > 0
    decreases n
  {
    if n < 10 then [DigitChar(n)] else Digits(n / 10) + [DigitChar(n % 10)]
  }

  /** `String(n)` for an integer `n` (JavaScript's `toString` without exponent notation). */
  function DecimalString(n: int): string {
    if n < 0 then "-" + Digits(-n) else Digits(n)
  }

  /** A number as `parseInt` produces it: an integer or NaN. */
  datatype Number = Int(i: int) | NaN

  /** `Number.prototype.toString` on the numbers `parseInt` can produce. */
  function NumberToString(x: Number): string {
    match x
    case Int(i) => DecimalString(i)
    case NaN => "NaN"
  }

  // ---------------------------------------------------------------------------
  // parseInt(string) with the radix left out

  /** The white space and line terminators `parseInt` skips: tab, vertical tab,
      form feed, the byte order mark, LF, CR, the two Unicode line and paragraph
      separators, and every space separator (category Zs). */
  predicate IsWhitespace(c: char) {
    c == '\t' || c == '\U{B}' || c == '\U{C}' || c == '\U{FEFF}'
    || c == '\n' || c == '\r' || c == '\U{2028}' || c == '\U{2029}'
    || c == ' ' || c == '\U{A0}' || c == '\U{1680}' || '\U{2000}' <= c <= '\U{200A}'
    || c == '\U{202F}' || c == '\U{205F}' || c == '\U{3000}'
  }

  function TrimStart(s: string): (t: string)
    ensures |t| <= |s|
    ensures |t| > 0 ==> !IsWhitespace(t[0])
    ensures forall i :: 0 <= i < |s| - |t| ==> IsWhitespace(s[i])
    ensures t == s[|s| - |t|..]
  {
    if |s| > 0 && IsWhitespace(s[0]) then TrimStart(s[1..]) else s
  }

  /** The value of `c` as a digit in base `radix` (10 or 16), if it is one. */
  function DigitValue(c: char, radix: nat): Option<nat> {
    if '0' <= c <= '9' && (c as int) - ('0' as int) < radix then Some((c as int) - ('0' as int))
    else if radix == 16 && 'a' <= c <= 'f' then Some((c as int) - ('a' as int) + 10)
    else if radix == 16 && 'A' <= c <= 'F' then Some((c as int) - ('A' as int) + 10)
    else None
  }

  /** Length of the longest prefix of `s` made of digits in base `radix`. */
  function DigitPrefixLength(s: string, radix: nat): (n: nat)
    ensures n <= |s|
    ensures forall i :: 0 <= i < n ==> DigitValue(s[i], radix).Some?
    ensures n < |s| ==> DigitValue(s[n], radix).None?
  {
    if |s| > 0 && DigitValue(s[0], radix).Some? then 1 + DigitPrefixLength(s[1..], radix) else 0
  }

  /** The value of a string of digits in base `radix`, most significant first. */
  function DigitsValue(s: string, radix: nat): nat
    requires forall i :: 0 <= i < |s| ==> DigitValue(s[i], radix).Some?
  {
    if |s| == 0 then 0
    else DigitsValue(s[..|s| - 1], radix) * radix + DigitValue(s[|s| - 1], radix).value
  }

  /** The unsigned part of `parseInt`: an optional `0x` prefix, then the longest digit prefix. */
  function ParseUnsigned(u: string): Number {
    if |u| >= 2 && u[0] == '0' && (u[1] == 'x' || u[1] == 'X') then
      var h := u[2..];
      var n := DigitPrefixLength(h, 16);
      if n == 0 then NaN else Int(DigitsValue(h[..n], 16))
    else
      var n := DigitPrefixLength(u, 10);
      if n == 0 then NaN else Int(DigitsValue(u[..n], 10))
  }

  /** `parseInt(s)`: leading whitespace, an optional sign, then the unsigned part. */
  function ParseInt(s: string): Number {
    var t := TrimStart(s);
    if |t| > 0 && t[0] == '-' then
      match ParseUnsigned(t[1..])
      case Int(i) => Int(-i)
      case NaN => NaN
    else if |t| > 0 && t[0] == '+' then ParseUnsigned(t[1..])
    else ParseUnsigned(t)
  }

  // ---------------------------------------------------------------------------
  // parseInt undoes DecimalString

  lemma {:induction false} DigitsAreDigits(n: nat)
    ensures forall i :: 0 <= i < |Digits(n)| ==> DigitValue(Digits(n)[i], 10).Some?
    ensures DigitsValue(Digits(n), 10) == n
    decreases n
  {
    if n >= 10 {
      DigitsAreDigits(n / 10);
      var s := Digits(n);
      assert s[..|s| - 1] == Digits(n / 10);
    }
  }

  lemma {:induction false} DigitsLeadingNonZero(n: nat)
    requires n >= 1
    ensures Digits(n)[0] != '0'
    decreases n
  {
    if n >= 10 {
      DigitsLeadingNonZero(n / 10);
    }
  }

  lemma DigitsParse(n: nat)
    ensures ParseUnsigned(Digits(n)) == Int(n)
  {
    var s := Digits(n);
    DigitsAreDigits(n);
    if n >= 1 {
      DigitsLeadingNonZero(n);
    } else {
      assert s == "0";
    }
    assert DigitPrefixLength(s, 10) == |s|;
    assert s[..|s|] == s;
  }

  lemma TrimStartKeeps(s: string)
    requires |s| > 0 && !IsWhitespace(s[0])
    ensures TrimStart(s) == s
  {
  }

  /** A decimal digit is neither whitespace nor a sign. */
  lemma DigitIsNotSpaceOrSign(c: char)
    requires DigitValue(c, 10).Some?
    ensures !IsWhitespace(c) && c != '-' && c != '+'
  {
  }

  lemma ParseIntOfDigits(n: nat)
    ensures ParseInt(Digits(n)) == Int(n)
  {
    var s := Digits(n);
    DigitsParse(n);
    DigitsAreDigits(n);
    DigitIsNotSpaceOrSign(s[0]);
    TrimStartKeeps(s);
  }

  lemma ParseIntOfMinusDigits(n: nat)
    ensures ParseInt("-" + Digits(n)) == Int(-(n as int))
  {
    var s := "-" + Digits(n);
    DigitsParse(n);
    assert s[0] == '-' && s[1..] == Digits(n);
    TrimStartKeeps(s);
  }

  /** Round trip: `parseInt(String(n)) === n` for every integer `n`. */
  lemma ParseIntOfDecimalString(n: int)
    ensures ParseInt(DecimalString(n)) == Int(n)
  {
    if n < 0 {
      ParseIntOfMinusDigits(-n);
      assert DecimalString(n) == "-" + Digits(-n);
    } else {
      ParseIntOfDigits(n);
      assert DecimalString(n) == Digits(n);
    }
  }
}
