/** The JavaScript primitives the handlers and components are written with:
    parseInt, the conversion of numbers to text, and the `value || default`
    idiom. JavaScript numbers are restricted to the values this program can
    produce from its inputs: integers and NaN. */
module Js {

  datatype Option<+T> = None | Some(value: T)

  /** A JavaScript number that is an integer or NaN. */
  datatype Num = Int(i: int) | NaN

  /** `n > 0`, which is false for NaN. */
  predicate Positive(n: Num) {
    n.Int? && n.i > 0
  }

  /** `n * k`; NaN stays NaN. */
  function Times(n: Num, k: int): Num {
    match n
    case Int(i) => Int(i * k)
    case NaN => NaN
  }

  // ---------------------------------------------------------------------
  // parseInt(s) with no radix argument

  /** The white space and line terminators parseInt skips before the number. */
  predicate IsSpace(c: char) {
    if c < '\U{A0}' then '\t' <= c <= '\r' || c == ' ' else WideSpace(c)
  }

  /** The white space and line terminators outside ASCII. */
  predicate WideSpace(c: char) {
    || c == '\U{A0}' || c == '\U{1680}' || ('\U{2000}' <= c <= '\U{200A}')
    || c == '\U{2028}' || c == '\U{2029}' || c == '\U{202F}' || c == '\U{205F}'
    || c == '\U{3000}' || c == '\U{FEFF}'
  }

  /** Drops the leading white space. */
  function TrimStart(s: string): string {
    if s != [] && IsSpace(s[0]) then TrimStart(s[1..]) else s
  }

  /** The value of a digit or letter as a digit in any radix up to 36; -1 otherwise. */
  function DigitOf(c: char): (d: int)
    ensures -1 <= d < 36
  {
    if '0' <= c <= '9' then c as int - '0' as int
    else if 'a' <= c <= 'z' then c as int - 'a' as int + 10
    else if 'A' <= c <= 'Z' then c as int - 'A' as int + 10
    else -1
  }

  predicate IsDigitIn(c: char, radix: nat) {
    0 <= DigitOf(c) < radix
  }

  /** The longest prefix of `s` made of digits of the radix. */
  function DigitPrefix(s: string, radix: nat): string {
    if s != [] && IsDigitIn(s[0], radix) then [s[0]] + DigitPrefix(s[1..], radix) else []
  }

  /** The number a string of digits denotes, most significant digit first. */
  function Value(s: string, radix: nat): int {
    if s == [] then 0 else Value(s[..|s| - 1], radix) * radix + DigitOf(s[|s| - 1])
  }

  /** parseInt(s): skip white space, read an optional sign and an optional
      `0x`/`0X` prefix (which selects radix 16), then as many digits as
      there are; no digit at all gives NaN. */
  function ParseInt(s: string): Num {
    var t := TrimStart(s);
    var u := Unsigned(t);
    var digits := DigitPrefix(u[PrefixLength(u)..], Radix(u));
    if digits == [] then NaN
    else
      var v := Value(digits, Radix(u));
      Int(if t != [] && t[0] == '-' then -v else v)
  }

  /** The text after an optional leading sign. */
  function Unsigned(t: string): string {
    if t != [] && (t[0] == '-' || t[0] == '+') then t[1..] else t
  }

  predicate HasHexPrefix(u: string) {
    |u| >= 2 && u[0] == '0' && (u[1] == 'x' || u[1] == 'X')
  }

  function Radix(u: string): nat {
    if HasHexPrefix(u) then 16 else 10
  }

  function PrefixLength(u: string): nat {
    if HasHexPrefix(u) then 2 else 0
  }

  // ---------------------------------------------------------------------
  // Number to text (String(n), template interpolation, n.toString())

  function DigitChar(d: nat): (c: char)
    requires d < 10
    ensures IsDigitIn(c, 10) && DigitOf(c) == d
  {
    ('0' as int + d) as char
  }

  /** The decimal digits of a natural number, without leading zeros. */
  function ShowNat(n: nat): (r: string)
    ensures r != []
  {
    if n < 10 then [DigitChar(n)] else ShowNat(n / 10) + [DigitChar(n % 10)]
  }

  function ShowInt(i: int): string {
    if i < 0 then "-" + ShowNat(-i) else ShowNat(i)
  }

  /** How JavaScript writes a number of this model as text. */
  function ShowNum(n: Num): string {
    match n
    case Int(i) => ShowInt(i)
    case NaN => "NaN"
  }

  /** How JavaScript writes the number `ms / 1000` (a count of seconds held
      exactly as milliseconds): the whole seconds, then a decimal point and
      the fraction without trailing zeros when there is one. */
  function ShowSeconds(ms: int): string {
    var a := if ms < 0 then -ms else ms;
    (if ms < 0 then "-" else "") + ShowNat(a / 1000) + Fraction(a % 1000)
  }

  function ShowSecondsNum(n: Num): string {
    match n
    case Int(ms) => ShowSeconds(ms)
    case NaN => "NaN"
  }

  /** The decimals of `f` thousandths: empty for 0, else "." and up to three digits. */
  function Fraction(f: nat): (r: string)
    requires f < 1000
    ensures r == [] <==> f == 0
    ensures r != [] ==> r[0] == '.'
  {
    if f == 0 then ""
    else "." + TrimZeros([DigitChar(f / 100), DigitChar(f / 10 % 10), DigitChar(f % 10)])
  }

  function TrimZeros(s: string): string {
    if s != [] && s[|s| - 1] == '0' then TrimZeros(s[..|s| - 1]) else s
  }

  /** Integer division truncating toward zero, as `parseInt` of a decimal fraction does. */
  function TruncDiv(a: int, b: nat): int
    requires b > 0
  {
    if a < 0 then -((-a) / b) else a / b
  }

  // ---------------------------------------------------------------------
  // Properties

  lemma {:induction false} ValueShowNat(n: nat)
    ensures Value(ShowNat(n), 10) == n
  {
    if n >= 10 {
      var a := ShowNat(n / 10);
      var s := a + [DigitChar(n % 10)];
      assert s[..|s| - 1] == a;
      ValueShowNat(n / 10);
    }
  }

  /** A numeral is made of decimal digits only. */
  lemma {:induction false} ShowNatDigits(n: nat)
    ensures forall k :: 0 <= k < |ShowNat(n)| ==> IsDigitIn(ShowNat(n)[k], 10)
  {
    if n >= 10 {
      ShowNatDigits(n / 10);
      var a := ShowNat(n / 10);
      assert ShowNat(n) == a + [DigitChar(n % 10)];
    }
  }

  lemma {:induction false} DigitPrefixOfDigits(d: string, rest: string, radix: nat)
    requires forall k :: 0 <= k < |d| ==> IsDigitIn(d[k], radix)
    ensures DigitPrefix(d + rest, radix) == d + DigitPrefix(rest, radix)
  {
    if d != [] {
      assert (d + rest)[1..] == d[1..] + rest;
      DigitPrefixOfDigits(d[1..], rest, radix);
    } else {
      assert d + rest == rest;
    }
  }

  /** parseInt of text that starts with neither white space nor a hex
      prefix reads the decimal digits `d` after the optional sign. */
  lemma ParseDecimalText(s: string, d: string, v: int)
    requires s != [] && !IsSpace(s[0]) && !HasHexPrefix(Unsigned(s))
    requires d == DigitPrefix(Unsigned(s), 10) && d != [] && v == Value(d, 10)
    ensures ParseInt(s) == Int(if s[0] == '-' then -v else v)
  {
    assert TrimStart(s) == s;
    assert Unsigned(s)[0..] == Unsigned(s);
  }

  /** parseInt reads back a decimal numeral followed by text that cannot
      continue the number (nothing, or e.g. a decimal point). */
  lemma ParsePositive(m: nat, rest: string)
    requires rest == [] || (!IsDigitIn(rest[0], 10) && rest[0] != 'x' && rest[0] != 'X')
    ensures ParseInt(ShowNat(m) + rest) == Int(m)
  {
    var u := ShowNat(m) + rest;
    NumeralThenStop(m, rest);
    assert Unsigned(u) == u;
    ParseDecimalText(u, ShowNat(m), m);
  }

  /** The same after a minus sign. */
  lemma ParseNegative(m: nat, rest: string)
    requires rest == [] || (!IsDigitIn(rest[0], 10) && rest[0] != 'x' && rest[0] != 'X')
    ensures ParseInt("-" + ShowNat(m) + rest) == Int(-(m as int))
  {
    var u := ShowNat(m) + rest;
    NumeralThenStop(m, rest);
    var s := "-" + u;
    assert s[1..] == u;
    assert "-" + ShowNat(m) + rest == s;
    ParseDecimalText(s, ShowNat(m), m);
  }

  /** A numeral followed by a stop character: no hex prefix, and the digit
      prefix is the numeral, denoting the number. */
  lemma NumeralThenStop(m: nat, rest: string)
    requires rest == [] || (!IsDigitIn(rest[0], 10) && rest[0] != 'x' && rest[0] != 'X')
    ensures var u := ShowNat(m) + rest;
      u != [] && IsDigitIn(u[0], 10) && !HasHexPrefix(u) && DigitPrefix(u, 10) == ShowNat(m)
      && Value(DigitPrefix(u, 10), 10) == m
  {
    ShowNatDigits(m);
    var digits := ShowNat(m);
    var u := digits + rest;
    assert u[0] == digits[0];
    assert !HasHexPrefix(u) by {
      if |u| >= 2 {
        if |digits| >= 2 { assert u[1] == digits[1]; } else { assert u[1] == rest[0]; }
      }
    }
    DigitPrefixOfDigits(digits, rest, 10);
    assert DigitPrefix(rest, 10) == [];
    assert digits + [] == digits;
    ValueShowNat(m);
  }

  /** Writing an integer as text and reading it back with parseInt gives it back. */
  lemma ParseShowInt(i: int)
    ensures ParseInt(ShowInt(i)) == Int(i)
  {
    if i < 0 {
      ParseNegative(-i, "");
      assert "-" + ShowNat(-i) + "" == ShowInt(i);
    } else {
      ParsePositive(i, "");
      assert ShowNat(i) + "" == ShowInt(i);
    }
  }

  /** parseInt of a number of seconds written as text gives the whole
      seconds, truncated toward zero: a half second is lost. */
  lemma ParseShowSeconds(ms: int)
    ensures ParseInt(ShowSeconds(ms)) == Int(TruncDiv(ms, 1000))
  {
    var a: nat := if ms < 0 then -ms else ms;
    var whole, frac := ShowNat(a / 1000), Fraction(a % 1000);
    if ms < 0 {
      ParseNegative(a / 1000, frac);
      assert ShowSeconds(ms) == "-" + whole + frac;
    } else {
      ParsePositive(a / 1000, frac);
      assert ShowSeconds(ms) == whole + frac;
    }
  }

  // ---------------------------------------------------------------------
  // Reading numbers back out of a text

  /** The text after `head` when `m` starts with it. */
  function After(m: string, head: string): (r: Option<string>)
    ensures r.Some? ==> m == head + r.value
  {
    if |head| <= |m| && m[..|head|] == head then Some(m[|head|..]) else None
  }

  lemma AfterPrefix(head: string, rest: string)
    ensures After(head + rest, head) == Some(rest)
  {
    assert (head + rest)[..|head|] == head;
  }

  lemma Regroup(a: string, b: string, c: string, d: string)
    ensures a + (b + (c + d)) == (a + b + c) + d
  {
  }

  lemma Regroup4(a: string, b: string, c: string, d: string, e: string)
    ensures a + (b + (c + (d + e))) == a + (b + c + d) + e
  {
  }

  lemma Regroup4'(a: string, b: string, c: string, d: string, e: string, rest: string)
    ensures a + (b + ((c + d + e) + rest)) == (a + b) + (c + (d + (e + rest)))
  {
  }

  /** parseInt of an integer's text followed by a double quote, a space
      or nothing. */
  lemma ReadInteger(i: int, rest: string)
    requires rest == [] || DigitOf(rest[0]) == -1
    ensures ParseInt(ShowInt(i) + rest) == Int(i)
  {
    if i < 0 {
      ParseNegative(-i, rest);
      assert ShowInt(i) + rest == "-" + ShowNat(-i) + rest;
    } else {
      ParsePositive(i, rest);
    }
  }

  /** Two integers written with a separator between them, after some
      text, read back: the first after the text, the second after the
      separator. */
  lemma ReadSeparated(head: string, w: int, sep: string, h: int, tail: string)
    requires sep != [] && DigitOf(sep[0]) == -1
    requires tail == [] || DigitOf(tail[0]) == -1
    ensures var second := ShowInt(h) + tail;
      var first := ShowInt(w) + (sep + second);
      && After(head + first, head) == Some(first) && ParseInt(first) == Int(w)
      && After(head + first, head + ShowInt(w) + sep) == Some(second) && ParseInt(second) == Int(h)
  {
    var second := ShowInt(h) + tail;
    var first := ShowInt(w) + (sep + second);
    ReadAfter(head, w, sep + second);
    assert head + first == (head + ShowInt(w) + sep) + second;
    ReadAfter(head + ShowInt(w) + sep, h, tail);
  }

  /** An integer written after some text, read back. */
  lemma ReadAfter(head: string, i: int, rest: string)
    requires rest == [] || DigitOf(rest[0]) == -1
    ensures After(head + (ShowInt(i) + rest), head) == Some(ShowInt(i) + rest)
    ensures ParseInt(ShowInt(i) + rest) == Int(i)
  {
    AfterPrefix(head, ShowInt(i) + rest);
    ReadInteger(i, rest);
  }
}
