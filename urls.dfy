/** Query strings and the links the program builds. A query is the list of
    name/value pairs a URLSearchParams holds; a link is either a URL taken
    verbatim or one of the program's endpoints with a query. */
module Urls {
  import opened Js

  type Query = seq<(string, string)>

  /** `params.get(k)`: the value of the first pair named `k`. */
  function Get(q: Query, k: string): (r: Option<string>)
    ensures r.Some? <==> exists j :: 0 <= j < |q| && q[j].0 == k
  {
    if q == [] then None
    else if q[0].0 == k then Some(q[0].1)
    else Get(q[1..], k)
  }

  predicate Has(q: Query, k: string) {
    Get(q, k).Some?
  }

  /** Whether an optional string is truthy: present and not empty. */
  predicate Truthy(o: Option<string>) {
    o.Some? && o.value != ""
  }

  /** An optional string as text, `undefined` and `null` read as "". */
  function OrEmpty(o: Option<string>): string {
    if o.Some? then o.value else ""
  }

  /** `params.get(k) || d`. */
  function ValueOr(q: Query, k: string, d: string): (r: string)
    ensures Truthy(Get(q, k)) ==> r == Get(q, k).value
    ensures !Truthy(Get(q, k)) ==> r == d
  {
    if Truthy(Get(q, k)) then Get(q, k).value else d
  }

  /** `parseInt(o || d)` where the default text is the numeral of `d`. */
  function ParseOr(o: Option<string>, d: int): Num {
    if Truthy(o) then ParseInt(o.value) else Int(d)
  }

  /** `ParseOr` is `parseInt` of the value or of the default's numeral. */
  lemma ParseDefault(o: Option<string>, d: int)
    ensures ParseOr(o, d) == ParseInt(if Truthy(o) then o.value else ShowInt(d))
  {
    ParseShowInt(d);
  }

  /** The pairs of `q` not named `k`, in order. */
  function Without(q: Query, k: string): (r: Query)
    ensures |r| <= |q|
  {
    if q == [] then []
    else if q[0].0 == k then Without(q[1..], k)
    else [q[0]] + Without(q[1..], k)
  }

  /** `params.set(k, v)`: the first pair named `k` takes the value `v` and
      every later pair of that name goes; with no such pair, (k, v) is appended. */
  function Set(q: Query, k: string, v: string): Query {
    if !Has(q, k) then q + [(k, v)] else SetFirst(q, k, v)
  }

  function SetFirst(q: Query, k: string, v: string): Query {
    if q == [] then []
    else if q[0].0 == k then [(k, v)] + Without(q[1..], k)
    else [q[0]] + SetFirst(q[1..], k, v)
  }

  // ---------------------------------------------------------------------
  // Laws of get and set

  /** Lookup in a concatenation: the first part wins. */
  lemma {:induction false} GetConcat(a: Query, b: Query, k: string)
    ensures Get(a + b, k) == if Has(a, k) then Get(a, k) else Get(b, k)
  {
    if a != [] {
      assert (a + b)[0] == a[0];
      assert (a + b)[1..] == a[1..] + b;
      GetConcat(a[1..], b, k);
    } else {
      assert a + b == b;
    }
  }

  lemma {:induction false} GetWithout(q: Query, k: string, k': string)
    ensures Get(Without(q, k), k') == if k' == k then None else Get(q, k')
  {
    if q != [] {
      GetWithout(q[1..], k, k');
    }
  }

  lemma {:induction false} GetSetFirst(q: Query, k: string, v: string, k': string)
    requires Has(q, k)
    ensures Get(SetFirst(q, k, v), k') == if k' == k then Some(v) else Get(q, k')
  {
    if q[0].0 == k {
      GetWithout(q[1..], k, k');
    } else {
      GetSetFirst(q[1..], k, v, k');
    }
  }

  /** After `set(k, v)`, `get(k)` is `v` and every other name reads as before. */
  lemma GetSet(q: Query, k: string, v: string, k': string)
    ensures Get(Set(q, k, v), k') == if k' == k then Some(v) else Get(q, k')
  {
    if Has(q, k) {
      GetSetFirst(q, k, v, k');
    } else {
      GetConcat(q, [(k, v)], k');
    }
  }

  /** After `set(k, v)` exactly one pair is named `k`. */
  lemma {:induction false} SetOnce(q: Query, k: string, v: string)
    ensures Count(Set(q, k, v), k) == 1
  {
    if Has(q, k) {
      SetFirstOnce(q, k, v);
    } else {
      CountConcat(q, [(k, v)], k);
      CountAbsent(q, k);
    }
  }

  /** The number of pairs named `k`. */
  function Count(q: Query, k: string): nat {
    if q == [] then 0 else (if q[0].0 == k then 1 else 0) + Count(q[1..], k)
  }

  lemma {:induction false} CountConcat(a: Query, b: Query, k: string)
    ensures Count(a + b, k) == Count(a, k) + Count(b, k)
  {
    if a != [] {
      assert (a + b)[1..] == a[1..] + b;
      CountConcat(a[1..], b, k);
    } else {
      assert a + b == b;
    }
  }

  lemma {:induction false} CountAbsent(q: Query, k: string)
    requires !Has(q, k)
    ensures Count(q, k) == 0
  {
    if q != [] {
      CountAbsent(q[1..], k);
    }
  }

  lemma {:induction false} CountWithout(q: Query, k: string)
    ensures Count(Without(q, k), k) == 0
  {
    if q != [] {
      CountWithout(q[1..], k);
    }
  }

  lemma {:induction false} SetFirstOnce(q: Query, k: string, v: string)
    requires Has(q, k)
    ensures Count(SetFirst(q, k, v), k) == 1
  {
    if q[0].0 == k {
      CountWithout(q[1..], k);
    } else {
      SetFirstOnce(q[1..], k, v);
    }
  }

  // ---------------------------------------------------------------------
  // Links

  datatype Route = Home | ImageProxy | GenerateImage

  datatype Link = Direct(url: string) | Endpoint(base: string, route: Route, query: Query)

  /** The pair (k, v) when `v` is truthy, else nothing: `if (v) params.set(k, v)`. */
  function Opt(k: string, v: string): Query {
    if v != "" then [(k, v)] else []
  }

  /** A generated image's query for the generate-image endpoint: `delay`
      always, then `size` for a preset that is not "custom", or else each of
      `width` and `height` that is not empty. */
  function GeneratorQuery(delay: string, size: string, width: string, height: string): (q: Query)
    ensures 1 <= |q| <= 3 && q[0] == ("delay", delay)
  {
    [("delay", delay)]
    + (if size != "" && size != "custom" then [("size", size)]
       else Opt("width", width) + Opt("height", height))
  }

  /** Which parameters a generator query holds: `delay` always, `size` for a
      preset that is not "custom", otherwise the width and height that are
      not empty; a size and a width or height never appear together. */
  lemma GeneratorQueryParams(delay: string, size: string, width: string, height: string)
    ensures var q := GeneratorQuery(delay, size, width, height);
      && Get(q, "delay") == Some(delay)
      && Get(q, "size") == (if size != "" && size != "custom" then Some(size) else None)
      && Get(q, "width") == (if (size == "" || size == "custom") && width != "" then Some(width) else None)
      && Get(q, "height") == (if (size == "" || size == "custom") && height != "" then Some(height) else None)
      && (Has(q, "size") ==> !Has(q, "width") && !Has(q, "height"))
  {
    var dims := if size != "" && size != "custom" then [("size", size)]
                else Opt("width", width) + Opt("height", height);
    forall k | k in {"size", "width", "height"}
      ensures Get(GeneratorQuery(delay, size, width, height), k) == Get(dims, k)
    {
      GetConcat([("delay", delay)], dims, k);
    }
    if !(size != "" && size != "custom") {
      forall k ensures Get(dims, k) == if Has(Opt("width", width), k) then Get(Opt("width", width), k) else Get(Opt("height", height), k) {
        GetConcat(Opt("width", width), Opt("height", height), k);
      }
    }
  }

  /** The generator query built the way the components build it, one
      `params.set` after another on an empty URLSearchParams. */
  method BuildGeneratorQuery(delay: string, size: string, width: string, height: string)
    returns (q: Query)
    ensures q == GeneratorQuery(delay, size, width, height)
  {
    q := [];
    q := Set(q, "delay", delay);
    if size != "" && size != "custom" {
      q := Set(q, "size", size);
    } else {
      if width != "" {
        q := Set(q, "width", width);
      }
      if height != "" {
        assert !Has(q, "height");
        q := Set(q, "height", height);
      }
    }
  }

  // ---------------------------------------------------------------------
  // Links as text

  /** The characters encodeURIComponent leaves alone. */
  predicate Unreserved(c: char) {
    || ('A' <= c <= 'Z') || ('a' <= c <= 'z') || ('0' <= c <= '9')
    || c == '-' || c == '_' || c == '.' || c == '!' || c == '~' || c == '*'
    || c == '\'' || c == '(' || c == ')'
  }

  function HexDigit(d: nat): (c: char)
    requires d < 16
    ensures HexValue(c) == d
  {
    if d < 10 then ('0' as int + d) as char else ('A' as int + d - 10) as char
  }

  /** The value of a hexadecimal digit; -1 for any other character. */
  function HexValue(c: char): int {
    if '0' <= c <= '9' then c as int - '0' as int
    else if 'A' <= c <= 'F' then c as int - 'A' as int + 10
    else if 'a' <= c <= 'f' then c as int - 'a' as int + 10
    else -1
  }

  /** One character percent-encoded: an ASCII character that is not
      unreserved becomes `%XX`. */
  function EncodeChar(c: char): string {
    if Unreserved(c) || c as int >= 128 then [c]
    else ['%', HexDigit(c as int / 16), HexDigit(c as int % 16)]
  }

  function Encode(s: string): string {
    if s == [] then [] else EncodeChar(s[0]) + Encode(s[1..])
  }

  /** Percent-decoding: `%XX` with two hexadecimal digits is the character
      with that code; every other character stands for itself. */
  function Decode(s: string): string {
    if |s| >= 3 && s[0] == '%' && HexValue(s[1]) >= 0 && HexValue(s[2]) >= 0 then
      [(HexValue(s[1]) * 16 + HexValue(s[2])) as char] + Decode(s[3..])
    else if s == [] then []
    else [s[0]] + Decode(s[1..])
  }

  lemma DecodeEncodeChar(c: char, rest: string)
    ensures Decode(EncodeChar(c) + rest) == [c] + Decode(rest)
  {
    var e := EncodeChar(c) + rest;
    if Unreserved(c) || c as int >= 128 {
      assert e[0] == c && e[1..] == rest;
    } else {
      assert e[0] == '%' && e[3..] == rest;
      assert (HexValue(e[1]) * 16 + HexValue(e[2])) == c as int;
    }
  }

  /** Decoding undoes the encoding, so the encoding loses nothing. */
  lemma {:induction false} DecodeEncode(s: string)
    ensures Decode(Encode(s)) == s
  {
    if s != [] {
      DecodeEncodeChar(s[0], Encode(s[1..]));
      DecodeEncode(s[1..]);
    }
  }

  /** The characters the application/x-www-form-urlencoded serializer of
      URLSearchParams leaves alone: fewer than encodeURIComponent does. */
  predicate FormUnreserved(c: char) {
    || ('A' <= c <= 'Z') || ('a' <= c <= 'z') || ('0' <= c <= '9')
    || c == '-' || c == '_' || c == '.' || c == '*'
  }

  /** One character as `URLSearchParams.toString()` writes it: a space
      becomes `+`, any other ASCII character that is not left alone
      becomes `%XX`. */
  function FormEncodeChar(c: char): string {
    if c == ' ' then "+"
    else if FormUnreserved(c) || c as int >= 128 then [c]
    else ['%', HexDigit(c as int / 16), HexDigit(c as int % 16)]
  }

  function FormEncode(s: string): string {
    if s == [] then [] else FormEncodeChar(s[0]) + FormEncode(s[1..])
  }

  /** Form decoding: `+` is a space, `%XX` the character with that code,
      and every other character stands for itself. */
  function FormDecode(s: string): string {
    if |s| >= 3 && s[0] == '%' && HexValue(s[1]) >= 0 && HexValue(s[2]) >= 0 then
      [(HexValue(s[1]) * 16 + HexValue(s[2])) as char] + FormDecode(s[3..])
    else if s == [] then []
    else [if s[0] == '+' then ' ' else s[0]] + FormDecode(s[1..])
  }

  lemma FormDecodeEncodeChar(c: char, rest: string)
    ensures FormDecode(FormEncodeChar(c) + rest) == [c] + FormDecode(rest)
  {
    var e := FormEncodeChar(c) + rest;
    if c == ' ' {
      assert e[0] == '+' && e[1..] == rest;
    } else if FormUnreserved(c) || c as int >= 128 {
      assert e[0] == c && e[1..] == rest;
    } else {
      assert e[0] == '%' && e[3..] == rest;
      assert (HexValue(e[1]) * 16 + HexValue(e[2])) == c as int;
    }
  }

  /** Form decoding undoes the form encoding. */
  lemma {:induction false} FormDecodeEncode(s: string)
    ensures FormDecode(FormEncode(s)) == s
  {
    if s != [] {
      FormDecodeEncodeChar(s[0], FormEncode(s[1..]));
      FormDecodeEncode(s[1..]);
    }
  }

  /** The two encoders agree on a text made only of characters both
      leave alone, and differ on a space and on `!`, `~`, `'`, `(`, `)`. */
  lemma EncodersDiffer()
    ensures Encode("a b") == "a%20b" && FormEncode("a b") == "a+b"
    ensures Encode("(x)") == "(x)" && FormEncode("(x)") == "%28x%29"
  {
    assert Encode("a b") == EncodeChar('a') + Encode(" b");
    assert Encode(" b") == EncodeChar(' ') + Encode("b");
    assert FormEncode("a b") == FormEncodeChar('a') + FormEncode(" b");
    assert FormEncode(" b") == FormEncodeChar(' ') + FormEncode("b");
    assert Encode("(x)") == EncodeChar('(') + Encode("x)");
    assert Encode("x)") == EncodeChar('x') + Encode(")");
    assert FormEncode("(x)") == FormEncodeChar('(') + FormEncode("x)");
    assert FormEncode("x)") == FormEncodeChar('x') + FormEncode(")");
  }

  function Path(r: Route): string {
    match r
    case Home => "/"
    case ImageProxy => "/api/image-proxy"
    case GenerateImage => "/api/generate-image"
  }

  /** How a link to the route encodes its names and values: the proxy
      links are template text with `encodeURIComponent`, the generator
      links and the test URL are `URLSearchParams.toString()`. */
  function EncodeFor(r: Route, s: string): string {
    if r == ImageProxy then Encode(s) else FormEncode(s)
  }

  /** `name=value` pairs, both encoded for the route, joined by `&`. */
  function QueryText(r: Route, q: Query): string {
    if q == [] then ""
    else EncodeFor(r, q[0].0) + "=" + EncodeFor(r, q[0].1) + (if |q| == 1 then "" else "&" + QueryText(r, q[1..]))
  }

  function LinkText(l: Link): string {
    match l
    case Direct(url) => url
    case Endpoint(base, route, query) => base + Path(route) + "?" + QueryText(route, query)
  }
}
