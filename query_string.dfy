/**
 * The query string of the authorization URL (app.js:86). The URL is built
 * with Node's querystring.stringify, which writes `key=value` fields joined
 * by `&`, each side escaped the way encodeURIComponent escapes: the
 * unreserved characters stay, every other character becomes the
 * percent-encoded bytes of its UTF-8 form, in upper-case hexadecimal.
 *
 * The partner of the encoder is a reference parser, the reading a server
 * applies to the query: split on `&`, split each field at its first `=`,
 * decode the percent escapes and the UTF-8 sequences. The round-trip lemma
 * `ParseStringify` says that the parser recovers every key and every value
 * of the options object, in order.
 */
module QueryString {
  import opened JsValues

  type Byte = b: int | 0 <= b < 256

  /** The characters encodeURIComponent leaves unescaped. */
  predicate Unreserved(c: char) {
    ('A' <= c <= 'Z') || ('a' <= c <= 'z') || ('0' <= c <= '9') ||
    c == '-' || c == '_' || c == '.' || c == '!' || c == '~' ||
    c == '*' || c == '\'' || c == '(' || c == ')'
  }

  // ---------------------------------------------------------------------
  // Encoding
  // ---------------------------------------------------------------------

  /** The UTF-8 encoding of one Unicode scalar value. */
  function Utf8(c: char): (bs: seq<Byte>)
    ensures 1 <= |bs| <= 4
  {
    var n := c as int;
    if n < 0x80 then [n]
    else if n < 0x800 then [0xC0 + n / 64, 0x80 + n % 64]
    else if n < 0x10000 then [0xE0 + n / 4096, 0x80 + (n / 64) % 64, 0x80 + n % 64]
    else [0xF0 + n / 262144, 0x80 + (n / 4096) % 64, 0x80 + (n / 64) % 64, 0x80 + n % 64]
  }

  function HexDigit(d: int): (c: char)
    requires 0 <= d < 16
    ensures Unreserved(c)
  {
    if d < 10 then ('0' as int + d) as char else ('A' as int + d - 10) as char
  }

  /** `%XY` for every byte. */
  function Percent(bs: seq<Byte>): (t: string)
    ensures |t| == 3 * |bs|
  {
    if bs == [] then [] else ['%', HexDigit(bs[0] / 16), HexDigit(bs[0] % 16)] + Percent(bs[1..])
  }

  function EscapeChar(c: char): string {
    if Unreserved(c) then [c] else Percent(Utf8(c))
  }

  /** querystring.escape, which is encodeURIComponent: unreserved text is left as it is. */
  function Escape(s: string): (t: string)
    ensures |t| >= |s|
    ensures (forall i | 0 <= i < |s| :: Unreserved(s[i])) ==> t == s
  {
    if s == [] then [] else EscapeChar(s[0]) + Escape(s[1..])
  }

  /** One `key=value` field of the query string. */
  function Field(key: string, value: Value): string {
    Escape(key) + "=" + Escape(StringifyPrimitive(value))
  }

  /**
   * querystring.stringify of an object whose own keys, in insertion order,
   * are the first components of `obj`.
   */
  function Stringify(obj: seq<(string, Value)>): (q: string)
    ensures q == "" <==> obj == []
    decreases |obj|
  {
    if obj == [] then ""
    else if |obj| == 1 then Field(obj[0].0, obj[0].1)
    else Field(obj[0].0, obj[0].1) + "&" + Stringify(obj[1..])
  }

  /** The string pairs `obj` stands for once every value is written as text. */
  function Primitives(obj: seq<(string, Value)>): (ps: seq<(string, string)>)
    ensures |ps| == |obj|
    ensures forall i | 0 <= i < |obj| :: ps[i] == (obj[i].0, StringifyPrimitive(obj[i].1))
  {
    if obj == [] then [] else [(obj[0].0, StringifyPrimitive(obj[0].1))] + Primitives(obj[1..])
  }

  // ---------------------------------------------------------------------
  // The reference parser
  // ---------------------------------------------------------------------

  function HexValue(c: char): Option<int> {
    if '0' <= c <= '9' then Some(c as int - '0' as int)
    else if 'A' <= c <= 'F' then Some(c as int - 'A' as int + 10)
    else if 'a' <= c <= 'f' then Some(c as int - 'a' as int + 10)
    else None
  }

  /** The byte of a `%XY` triple at the start of `t`. */
  function LeadByte(t: string): Option<Byte> {
    if |t| < 3 || t[0] != '%' then None
    else match (HexValue(t[1]), HexValue(t[2]))
      case (Some(hi), Some(lo)) => Some(hi * 16 + lo)
      case _ => None
  }

  /** The bytes of a text made only of `%XY` triples. */
  function PercentBytes(t: string): Option<seq<Byte>>
    decreases |t|
  {
    if t == [] then Some([])
    else match LeadByte(t)
      case None => None
      case Some(b) =>
        match PercentBytes(t[3..])
        case None => None
        case Some(rest) => Some([b] + rest)
  }

  /** How many bytes a UTF-8 sequence starting with `lead` has (0: not a lead byte). */
  function SequenceLength(lead: Byte): nat {
    if lead < 0x80 then 1
    else if 0xC0 <= lead < 0xE0 then 2
    else if 0xE0 <= lead < 0xF0 then 3
    else if 0xF0 <= lead < 0xF8 then 4
    else 0
  }

  predicate Continuation(b: Byte) {
    0x80 <= b < 0xC0
  }

  predicate ScalarValue(n: int) {
    (0 <= n < 0xD800) || (0xE000 <= n < 0x11_0000)
  }

  /** The six payload bits of the continuation byte at `i`, 0 past the end. */
  function Continued(bs: seq<Byte>, i: nat): int {
    if i < |bs| then bs[i] as int - 0x80 else 0
  }

  /** The character one complete UTF-8 sequence stands for. */
  function Utf8Decode(bs: seq<Byte>): Option<char> {
    if |bs| == 0 || SequenceLength(bs[0]) != |bs| then None
    else if exists i | 1 <= i < |bs| :: !Continuation(bs[i]) then None
    else
      var b0: int, b1: int, b2: int, b3: int :=
        bs[0], Continued(bs, 1), Continued(bs, 2), Continued(bs, 3);
      var n :=
        if |bs| == 1 then b0
        else if |bs| == 2 then (b0 - 0xC0) * 64 + b1
        else if |bs| == 3 then (b0 - 0xE0) * 4096 + b1 * 64 + b2
        else (b0 - 0xF0) * 262144 + b1 * 4096 + b2 * 64 + b3;
      if ScalarValue(n) then Some(n as char) else None
  }

  /**
   * The reference decoder: percent escapes that form complete UTF-8
   * sequences become their characters, anything malformed is refused.
   */
  function Unescape(t: string): Option<string>
    decreases |t|
  {
    if t == [] then Some([])
    else if t[0] != '%' then
      match Unescape(t[1..])
      case None => None
      case Some(rest) => Some([t[0]] + rest)
    else match LeadByte(t)
      case None => None
      case Some(lead) =>
        var n := SequenceLength(lead);
        if n == 0 || |t| < 3 * n then None
        else match (PercentBytes(t[..3 * n]), Unescape(t[3 * n..]))
          case (Some(bs), Some(rest)) =>
            (match Utf8Decode(bs)
             case None => None
             case Some(c) => Some([c] + rest))
          case _ => None
  }

  /** The pieces of `s` between occurrences of `d`. */
  function SplitOn(s: string, d: char): (parts: seq<string>)
    ensures |parts| >= 1
    decreases |s|
  {
    if s == [] then [[]]
    else
      var rest := SplitOn(s[1..], d);
      if s[0] == d then [[]] + rest else [[s[0]] + rest[0]] + rest[1..]
  }

  /** `s` cut at its first `d`, when it has one. */
  function SplitFirst(s: string, d: char): Option<(string, string)>
    decreases |s|
  {
    if s == [] then None
    else if s[0] == d then Some(([], s[1..]))
    else match SplitFirst(s[1..], d)
      case None => None
      case Some(p) => Some(([s[0]] + p.0, p.1))
  }

  /** One field: the key before the first `=`, the value after it (empty without `=`). */
  function ParseField(field: string): Option<(string, string)> {
    var (k, v) := match SplitFirst(field, '=')
      case None => (field, "")
      case Some(p) => p;
    match (Unescape(k), Unescape(v))
    case (Some(key), Some(value)) => Some((key, value))
    case _ => None
  }

  function ParseFields(fields: seq<string>): Option<seq<(string, string)>>
    decreases |fields|
  {
    if fields == [] then Some([])
    else match (ParseField(fields[0]), ParseFields(fields[1..]))
      case (Some(p), Some(ps)) => Some([p] + ps)
      case _ => None
  }

  /** The key/value pairs of a query string, in order. */
  function ParseQuery(q: string): Option<seq<(string, string)>> {
    if q == "" then Some([]) else ParseFields(SplitOn(q, '&'))
  }

  /** The value of the first field named `key`. */
  function Lookup(ps: seq<(string, string)>, key: string): Option<string>
    decreases |ps|
  {
    if ps == [] then None
    else if ps[0].0 == key then Some(ps[0].1)
    else Lookup(ps[1..], key)
  }

  /** Lookup finds the first field with the key. */
  lemma {:induction false} LookupFirst(ps: seq<(string, string)>, key: string, i: nat)
    requires i < |ps| && ps[i].0 == key
    requires forall j | 0 <= j < i :: ps[j].0 != key
    ensures Lookup(ps, key) == Some(ps[i].1)
    decreases i
  {
    if i > 0 {
      LookupFirst(ps[1..], key, i - 1);
    }
  }

  /** Lookup finds nothing when no field has the key. */
  lemma {:induction false} LookupMissing(ps: seq<(string, string)>, key: string)
    requires forall j | 0 <= j < |ps| :: ps[j].0 != key
    ensures Lookup(ps, key) == None
    decreases |ps|
  {
    if ps != [] {
      LookupMissing(ps[1..], key);
    }
  }

  // ---------------------------------------------------------------------
  // Round trip
  // ---------------------------------------------------------------------

  /** Every character of an escaped text is unreserved or `%`. */
  predicate EscapedText(t: string) {
    forall i | 0 <= i < |t| :: Unreserved(t[i]) || t[i] == '%'
  }

  lemma {:induction false} PercentIsEscaped(bs: seq<Byte>)
    ensures EscapedText(Percent(bs))
  {
    if bs != [] {
      PercentIsEscaped(bs[1..]);
    }
  }

  /** Escaped text never holds the separators `&` and `=`. */
  lemma {:induction false} EscapeIsEscaped(s: string)
    ensures EscapedText(Escape(s))
  {
    if s != [] {
      if !Unreserved(s[0]) {
        PercentIsEscaped(Utf8(s[0]));
      }
      EscapeIsEscaped(s[1..]);
    }
  }

  lemma HexRoundTrip(d: int)
    requires 0 <= d < 16
    ensures HexValue(HexDigit(d)) == Some(d)
  {
  }

  lemma LeadByteOfPercent(bs: seq<Byte>, rest: string)
    requires bs != []
    ensures LeadByte(Percent(bs) + rest) == Some(bs[0])
  {
    var t := Percent(bs) + rest;
    HexRoundTrip(bs[0] / 16);
    HexRoundTrip(bs[0] % 16);
    assert t[0] == '%' && t[1] == HexDigit(bs[0] / 16) && t[2] == HexDigit(bs[0] % 16);
  }

  lemma {:induction false} PercentBytesRoundTrip(bs: seq<Byte>)
    ensures PercentBytes(Percent(bs)) == Some(bs)
  {
    if bs != [] {
      var t := Percent(bs);
      LeadByteOfPercent(bs, []);
      assert t + [] == t;
      assert t[3..] == Percent(bs[1..]);
      PercentBytesRoundTrip(bs[1..]);
      assert [bs[0]] + bs[1..] == bs;
    }
  }

  lemma Utf8RoundTrip(c: char)
    ensures SequenceLength(Utf8(c)[0]) == |Utf8(c)|
    ensures Utf8Decode(Utf8(c)) == Some(c)
  {
    var bs := Utf8(c);
    var n := c as int;
    assert forall i | 1 <= i < |bs| :: Continuation(bs[i]);
    if n < 0x80 {
    } else if n < 0x800 {
      Utf8Two(n, bs);
    } else if n < 0x10000 {
      Utf8Three(n, bs);
    } else {
      Utf8Four(n, bs);
    }
  }

  lemma Utf8Two(n: int, bs: seq<Byte>)
    requires 0x80 <= n < 0x800
    requires bs == [0xC0 + n / 64, 0x80 + n % 64]
    ensures (bs[0] as int - 0xC0) * 64 + Continued(bs, 1) == n
  {
  }

  lemma Utf8Three(n: int, bs: seq<Byte>)
    requires 0x800 <= n < 0x10000
    requires bs == [0xE0 + n / 4096, 0x80 + (n / 64) % 64, 0x80 + n % 64]
    ensures (bs[0] as int - 0xE0) * 4096 + Continued(bs, 1) * 64 + Continued(bs, 2) == n
  {
    assert (n / 4096) * 64 + (n / 64) % 64 == n / 64;
  }

  lemma Utf8Four(n: int, bs: seq<Byte>)
    requires 0x10000 <= n < 0x11_0000
    requires bs == [0xF0 + n / 262144, 0x80 + (n / 4096) % 64, 0x80 + (n / 64) % 64, 0x80 + n % 64]
    ensures (bs[0] as int - 0xF0) * 262144 + Continued(bs, 1) * 4096 + Continued(bs, 2) * 64 + Continued(bs, 3) == n
  {
    assert (n / 262144) * 64 + (n / 4096) % 64 == n / 4096;
    assert (n / 4096) * 64 + (n / 64) % 64 == n / 64;
  }

  lemma UnescapeEscapeChar(c: char, rest: string)
    ensures Unescape(EscapeChar(c) + rest) ==
      match Unescape(rest)
      case None => None
      case Some(r) => Some([c] + r)
  {
    var t := EscapeChar(c) + rest;
    if Unreserved(c) {
      assert t[0] == c && t[1..] == rest;
    } else {
      var bs := Utf8(c);
      Utf8RoundTrip(c);
      LeadByteOfPercent(bs, rest);
      PercentBytesRoundTrip(bs);
      var n := |bs|;
      assert t[..3 * n] == Percent(bs);
      assert t[3 * n..] == rest;
    }
  }

  /** Decoding undoes querystring.escape, for every string. */
  lemma {:induction false} UnescapeEscape(s: string)
    ensures Unescape(Escape(s)) == Some(s)
  {
    if s != [] {
      UnescapeEscapeChar(s[0], Escape(s[1..]));
      UnescapeEscape(s[1..]);
      assert [s[0]] + s[1..] == s;
    }
  }

  lemma {:induction false} SplitWithout(a: string, d: char)
    requires d !in a
    ensures SplitOn(a, d) == [a]
  {
    if a != [] {
      SplitWithout(a[1..], d);
      assert [a[0]] + a[1..] == a;
    }
  }

  lemma {:induction false} SplitAt(a: string, b: string, d: char)
    requires d !in a
    ensures SplitOn(a + [d] + b, d) == [a] + SplitOn(b, d)
  {
    var s := a + [d] + b;
    if a == [] {
      assert s[0] == d && s[1..] == b;
    } else {
      assert s[0] == a[0] && s[1..] == a[1..] + [d] + b;
      SplitAt(a[1..], b, d);
      assert [a[0]] + a[1..] == a;
    }
  }

  lemma {:induction false} SplitFirstAt(a: string, b: string, d: char)
    requires d !in a
    ensures SplitFirst(a + [d] + b, d) == Some((a, b))
  {
    var s := a + [d] + b;
    if a == [] {
      assert s[0] == d && s[1..] == b;
    } else {
      assert s[0] == a[0] && s[1..] == a[1..] + [d] + b;
      SplitFirstAt(a[1..], b, d);
      assert [a[0]] + a[1..] == a;
    }
  }

  lemma NotInEscaped(t: string, d: char)
    requires EscapedText(t)
    requires !Unreserved(d) && d != '%'
    ensures d !in t
  {
    forall i | 0 <= i < |t|
      ensures t[i] != d
    {
    }
  }

  lemma ParseOneField(key: string, value: Value)
    ensures '&' !in Field(key, value)
    ensures ParseField(Field(key, value)) == Some((key, StringifyPrimitive(value)))
  {
    var v := StringifyPrimitive(value);
    EscapeIsEscaped(key);
    EscapeIsEscaped(v);
    NotInEscaped(Escape(key), '&');
    NotInEscaped(Escape(v), '&');
    NotInEscaped(Escape(key), '=');
    SplitFirstAt(Escape(key), Escape(v), '=');
    UnescapeEscape(key);
    UnescapeEscape(v);
  }

  /** The fields of the stringified object, one per key. */
  function FieldTexts(obj: seq<(string, Value)>): (fs: seq<string>)
    ensures |fs| == |obj|
  {
    if obj == [] then [] else [Field(obj[0].0, obj[0].1)] + FieldTexts(obj[1..])
  }

  lemma {:induction false} SplitStringify(obj: seq<(string, Value)>)
    requires obj != []
    ensures SplitOn(Stringify(obj), '&') == FieldTexts(obj)
    decreases |obj|
  {
    ParseOneField(obj[0].0, obj[0].1);
    if |obj| == 1 {
      SplitWithout(Field(obj[0].0, obj[0].1), '&');
    } else {
      SplitAt(Field(obj[0].0, obj[0].1), Stringify(obj[1..]), '&');
      SplitStringify(obj[1..]);
    }
  }

  lemma {:induction false} ParseFieldTexts(obj: seq<(string, Value)>)
    ensures ParseFields(FieldTexts(obj)) == Some(Primitives(obj))
    decreases |obj|
  {
    if obj != [] {
      ParseOneField(obj[0].0, obj[0].1);
      assert FieldTexts(obj)[1..] == FieldTexts(obj[1..]);
      ParseFieldTexts(obj[1..]);
    }
  }

  /**
   * Reading the query string back gives every field of the options object,
   * in insertion order, with its value written as querystring writes it.
   */
  lemma ParseStringify(obj: seq<(string, Value)>)
    ensures ParseQuery(Stringify(obj)) == Some(Primitives(obj))
  {
    if obj != [] {
      ParseOneField(obj[0].0, obj[0].1);
      assert Stringify(obj) != "" by {
        assert Field(obj[0].0, obj[0].1)[|Escape(obj[0].0)|] == '=';
      }
      SplitStringify(obj);
      ParseFieldTexts(obj);
    }
  }
}
