/**
 * The URL encodings the front end relies on through the browser:
 *  - UTF-8 (the Encoding Standard's encoder and a decoder for what it produces),
 *  - the application/x-www-form-urlencoded serializer and parser of section 5 of the
 *    WHATWG URL Standard, which `URLSearchParams.toString()` and its constructor run,
 *  - `encodeURIComponent` (section 19.2.6.5 of ECMA-262).
 * The parser is the standard's except that a byte sequence that is not UTF-8 makes
 * it fail instead of decoding to U+FFFD.
 */
module FormEncoding {
  import opened Outcomes

  type Byte = b: int | 0 <= b < 256

  // ---------------------------------------------------------------------------
  // UTF-8
  // ---------------------------------------------------------------------------

  predicate IsScalar(x: int) {
    0 <= x < 0xD800 || 0xE000 <= x < 0x11_0000
  }

  lemma CharIsScalar(c: char)
    ensures IsScalar(c as int)
  {
  }

  /** The UTF-8 encoding of one scalar value: one to four bytes, six payload bits per
      continuation byte. */
  function Utf8Char(c: char): (bs: seq<Byte>)
    ensures 1 <= |bs| <= 4
    ensures (c as int) < 0x80 <==> |bs| == 1
    ensures |bs| == 1 ==> bs[0] == c as int
  {
    CharIsScalar(c);
    var x := c as int;
    if x < 0x80 then [x]
    else if x < 0x800 then [0xC0 + x / 64, 0x80 + x % 64]
    else if x < 0x1_0000 then [0xE0 + x / 64 / 64, 0x80 + x / 64 % 64, 0x80 + x % 64]
    else [0xF0 + x / 64 / 64 / 64, 0x80 + x / 64 / 64 % 64, 0x80 + x / 64 % 64, 0x80 + x % 64]
  }

  function Utf8(s: string): seq<Byte> {
    if s == [] then [] else Utf8Char(s[0]) + Utf8(s[1..])
  }

  predicate IsContinuation(b: Byte) { 0x80 <= b < 0xC0 }

  /** The first scalar value of a UTF-8 byte sequence and its length in bytes;
      overlong forms, surrogates and values past U+10FFFF are refused. */
  function Utf8DecodeChar(bs: seq<Byte>): (r: Option<(char, nat)>)
    ensures r.Some? ==> 1 <= r.value.1 <= |bs|
  {
    if bs == [] then None
    else if bs[0] < 0x80 then Some((bs[0] as char, 1))
    else if 0xC2 <= bs[0] < 0xE0 && |bs| >= 2 && IsContinuation(bs[1]) then
      var x := (bs[0] as int - 0xC0) * 64 + (bs[1] as int - 0x80);
      Some((x as char, 2))
    else if 0xE0 <= bs[0] < 0xF0 && |bs| >= 3 && IsContinuation(bs[1]) && IsContinuation(bs[2]) then
      var x := (bs[0] as int - 0xE0) * 4096 + (bs[1] as int - 0x80) * 64 + (bs[2] as int - 0x80);
      if x < 0x800 || (0xD800 <= x < 0xE000) then None else Some((x as char, 3))
    else if 0xF0 <= bs[0] < 0xF5 && |bs| >= 4 && IsContinuation(bs[1]) && IsContinuation(bs[2])
         && IsContinuation(bs[3]) then
      var x := (bs[0] as int - 0xF0) * 262144 + (bs[1] as int - 0x80) * 4096 + (bs[2] as int - 0x80) * 64 + (bs[3] as int - 0x80);
      if x < 0x1_0000 || x >= 0x11_0000 then None else Some((x as char, 4))
    else None
  }

  function Utf8Decode(bs: seq<Byte>): Option<string>
    decreases |bs|
  {
    if bs == [] then Some([])
    else
      match Utf8DecodeChar(bs)
      case None => None
      case Some((c, k)) =>
        match Utf8Decode(bs[k..])
        case None => None
        case Some(t) => Some([c] + t)
  }

  lemma Utf8Char2Decodes(c: char, rest: seq<Byte>)
    requires 0x80 <= c as int < 0x800
    ensures Utf8DecodeChar(Utf8Char(c) + rest) == Some((c, 2))
  {
    var x := c as int;
    var bs := Utf8Char(c) + rest;
    assert bs[0] == 0xC0 + x / 64 && bs[1] == 0x80 + x % 64;
  }

  lemma Utf8Char3Decodes(c: char, rest: seq<Byte>)
    requires 0x800 <= c as int < 0x1_0000
    ensures Utf8DecodeChar(Utf8Char(c) + rest) == Some((c, 3))
  {
    CharIsScalar(c);
    var x := c as int;
    var q1 := x / 64;
    var q2 := q1 / 64;
    assert x == q1 * 64 + x % 64 && q1 == q2 * 64 + q1 % 64;
    var bs := Utf8Char(c) + rest;
    assert bs[0] == 0xE0 + q2 && bs[1] == 0x80 + q1 % 64 && bs[2] == 0x80 + x % 64;
    assert q2 * 4096 + (q1 % 64) * 64 + x % 64 == x;
  }

  lemma Utf8Char4Decodes(c: char, rest: seq<Byte>)
    requires 0x1_0000 <= c as int
    ensures Utf8DecodeChar(Utf8Char(c) + rest) == Some((c, 4))
  {
    CharIsScalar(c);
    var x := c as int;
    var q1 := x / 64;
    var q2 := q1 / 64;
    var q3 := q2 / 64;
    assert x == q1 * 64 + x % 64 && q1 == q2 * 64 + q1 % 64 && q2 == q3 * 64 + q2 % 64;
    var bs := Utf8Char(c) + rest;
    assert bs[0] == 0xF0 + q3 && bs[1] == 0x80 + q2 % 64 && bs[2] == 0x80 + q1 % 64
      && bs[3] == 0x80 + x % 64;
    assert q3 * 262144 + (q2 % 64) * 4096 + (q1 % 64) * 64 + x % 64 == x;
  }

  /** The decoder reads back exactly the bytes the encoder wrote for one character. */
  lemma Utf8CharDecodes(c: char, rest: seq<Byte>)
    ensures Utf8DecodeChar(Utf8Char(c) + rest) == Some((c, |Utf8Char(c)|))
  {
    var x := c as int;
    if x < 0x80 {
    } else if x < 0x800 {
      Utf8Char2Decodes(c, rest);
    } else if x < 0x1_0000 {
      Utf8Char3Decodes(c, rest);
    } else {
      Utf8Char4Decodes(c, rest);
    }
  }

  /** Decoding the UTF-8 form of a string gives the string back. */
  lemma {:induction false} Utf8RoundTrip(s: string)
    ensures Utf8Decode(Utf8(s)) == Some(s)
  {
    if s != [] {
      var bs := Utf8(s);
      assert bs == Utf8Char(s[0]) + Utf8(s[1..]);
      Utf8CharDecodes(s[0], Utf8(s[1..]));
      assert bs[|Utf8Char(s[0])|..] == Utf8(s[1..]);
      Utf8RoundTrip(s[1..]);
      assert [s[0]] + s[1..] == s;
    }
  }

  // ---------------------------------------------------------------------------
  // Percent-encoding
  // ---------------------------------------------------------------------------

  predicate IsAsciiAlphanumeric(b: Byte) {
    (0x30 <= b <= 0x39) || (0x41 <= b <= 0x5A) || (0x61 <= b <= 0x7A)
  }

  /** Bytes the application/x-www-form-urlencoded percent-encode set leaves alone:
      ASCII alphanumerics and `*`, `-`, `.`, `_`. */
  predicate FormKeeps(b: Byte) {
    IsAsciiAlphanumeric(b) || b == 0x2A || b == 0x2D || b == 0x2E || b == 0x5F
  }

  /** Bytes `encodeURIComponent` leaves alone: ASCII alphanumerics and
      `-`, `_`, `.`, `!`, `~`, `*`, `'`, `(`, `)`. */
  predicate UriComponentKeeps(b: Byte) {
    IsAsciiAlphanumeric(b) || b == 0x2D || b == 0x5F || b == 0x2E || b == 0x21 || b == 0x7E
    || b == 0x2A || b == 0x27 || b == 0x28 || b == 0x29
  }

  function UpperHex(d: nat): char
    requires d < 16
  {
    if d < 10 then ('0' as int + d) as char else ('A' as int + d - 10) as char
  }

  function PercentByte(b: Byte): string {
    ['%', UpperHex(b / 16), UpperHex(b % 16)]
  }

  /** One byte of the form-urlencoded serializer: a space becomes `+`. */
  function FormEncodeByte(b: Byte): string {
    if b == 0x20 then ['+'] else if FormKeeps(b) then [b as char] else PercentByte(b)
  }

  function FormEncodeBytes(bs: seq<Byte>): string {
    if bs == [] then [] else FormEncodeByte(bs[0]) + FormEncodeBytes(bs[1..])
  }

  /** The application/x-www-form-urlencoded byte serializer applied to the UTF-8
      encoding of `s`. */
  function FormEncode(s: string): string {
    FormEncodeBytes(Utf8(s))
  }

  function UriEncodeBytes(bs: seq<Byte>): string {
    if bs == [] then []
    else UriEncodeByte(bs[0]) + UriEncodeBytes(bs[1..])
  }

  /** One byte of `encodeURIComponent`: kept, or percent-encoded. */
  function UriEncodeByte(b: Byte): string {
    if UriComponentKeeps(b) then [b as char] else PercentByte(b)
  }

  /** `encodeURIComponent(s)`: a space becomes `%20`. */
  function EncodeUriComponent(s: string): string {
    UriEncodeBytes(Utf8(s))
  }

  function HexValue(c: char): Option<nat> {
    if '0' <= c <= '9' then Some(c as int - '0' as int)
    else if 'a' <= c <= 'f' then Some(c as int - 'a' as int + 10)
    else if 'A' <= c <= 'F' then Some(c as int - 'A' as int + 10)
    else None
  }

  /** Percent-decoding of a name or value after `+` has been read as a space; a `%`
      not followed by two hex digits stays a literal `%`. */
  function FormDecodeBytes(t: string): seq<Byte>
    decreases |t|
  {
    if t == [] then []
    else if t[0] == '+' then [0x20] + FormDecodeBytes(t[1..])
    else if t[0] == '%' && |t| >= 3 && HexValue(t[1]).Some? && HexValue(t[2]).Some? then
      [HexValue(t[1]).value * 16 + HexValue(t[2]).value] + FormDecodeBytes(t[3..])
    else Utf8Char(t[0]) + FormDecodeBytes(t[1..])
  }

  function FormDecode(t: string): Option<string> {
    Utf8Decode(FormDecodeBytes(t))
  }

  lemma UpperHexValue(d: nat)
    requires d < 16
    ensures HexValue(UpperHex(d)) == Some(d)
  {
  }

  lemma FormEncodeByteDecodes(b: Byte, rest: string)
    ensures FormDecodeBytes(FormEncodeByte(b) + rest) == [b] + FormDecodeBytes(rest)
  {
    var t := FormEncodeByte(b) + rest;
    if b == 0x20 {
      assert t[1..] == rest;
    } else if FormKeeps(b) {
      assert t[0] == b as char && t[1..] == rest;
    } else {
      UpperHexValue(b / 16);
      UpperHexValue(b % 16);
      assert t[3..] == rest;
    }
  }

  lemma Regroup<T>(s: seq<T>, t: seq<T>)
    requires s != []
    ensures [s[0]] + (s[1..] + t) == s + t
  {
    assert s == [s[0]] + s[1..];
  }

  lemma {:induction false} FormEncodeBytesDecode(bs: seq<Byte>, rest: string)
    ensures FormDecodeBytes(FormEncodeBytes(bs) + rest) == bs + FormDecodeBytes(rest)
  {
    if bs != [] {
      var tail := FormEncodeBytes(bs[1..]) + rest;
      assert FormEncodeBytes(bs) + rest == FormEncodeByte(bs[0]) + tail;
      FormEncodeByteDecodes(bs[0], tail);
      FormEncodeBytesDecode(bs[1..], rest);
      assert FormDecodeBytes(tail) == bs[1..] + FormDecodeBytes(rest);
      Regroup(bs, FormDecodeBytes(rest));
    } else {
      assert FormEncodeBytes(bs) + rest == rest;
    }
  }

  /** Decoding a form-urlencoded string gives back the original text. */
  lemma FormRoundTrip(s: string)
    ensures FormDecode(FormEncode(s)) == Some(s)
  {
    FormEncodeBytesDecode(Utf8(s), []);
    assert FormEncode(s) + [] == FormEncode(s);
    assert Utf8(s) + [] == Utf8(s);
    Utf8RoundTrip(s);
  }

  lemma UriEncodeByteDecodes(b: Byte, rest: string)
    ensures FormDecodeBytes(UriEncodeByte(b) + rest) == [b] + FormDecodeBytes(rest)
  {
    var t := UriEncodeByte(b) + rest;
    if UriComponentKeeps(b) {
      assert t[0] == b as char && t[1..] == rest;
    } else {
      UpperHexValue(b / 16);
      UpperHexValue(b % 16);
      assert t[3..] == rest;
    }
  }

  lemma {:induction false} UriEncodeBytesDecode(bs: seq<Byte>, rest: string)
    ensures FormDecodeBytes(UriEncodeBytes(bs) + rest) == bs + FormDecodeBytes(rest)
  {
    if bs != [] {
      var tail := UriEncodeBytes(bs[1..]) + rest;
      assert UriEncodeBytes(bs) + rest == UriEncodeByte(bs[0]) + tail;
      UriEncodeByteDecodes(bs[0], tail);
      UriEncodeBytesDecode(bs[1..], rest);
      Regroup(bs, FormDecodeBytes(rest));
    } else {
      assert UriEncodeBytes(bs) + rest == rest;
    }
  }

  /** A query parser reading a component written by `encodeURIComponent` gets the
      original text back: the encoder never writes a raw `+` or `%`. */
  lemma UriRoundTrip(s: string)
    ensures FormDecode(EncodeUriComponent(s)) == Some(s)
  {
    UriEncodeBytesDecode(Utf8(s), []);
    assert EncodeUriComponent(s) + [] == EncodeUriComponent(s);
    assert Utf8(s) + [] == Utf8(s);
    Utf8RoundTrip(s);
  }

  /** No character that would end or change a query component: no space, `&`, `=`,
      `#` or `+`. */
  predicate NoQueryDelimiters(t: string) {
    forall i :: 0 <= i < |t| ==> t[i] !in {' ', '&', '=', '#', '+'}
  }

  lemma {:induction false} UriEncodeBytesNoDelimiters(bs: seq<Byte>)
    ensures NoQueryDelimiters(UriEncodeBytes(bs))
  {
    if bs != [] {
      UriEncodeBytesNoDelimiters(bs[1..]);
      var h, t := UriEncodeByte(bs[0]), UriEncodeBytes(bs[1..]);
      assert NoQueryDelimiters(h) by {
        if !UriComponentKeeps(bs[0]) {
          assert h == ['%', UpperHex(bs[0] / 16), UpperHex(bs[0] % 16)];
        }
      }
      assert forall i :: 0 <= i < |h + t| ==> (h + t)[i] == if i < |h| then h[i] else t[i - |h|];
    }
  }

  /** `encodeURIComponent` output can sit in a query unescaped: it holds no space,
      `&`, `=`, `#` or `+`. */
  lemma EncodeUriComponentNoDelimiters(s: string)
    ensures NoQueryDelimiters(EncodeUriComponent(s))
  {
    UriEncodeBytesNoDelimiters(Utf8(s));
  }

  /** A character the serializer writes as itself. */
  predicate FormSafe(c: char) {
    c as int < 0x80 && c != ' ' && FormKeeps(c as int)
  }

  lemma {:induction false} Utf8Concat(a: string, b: string)
    ensures Utf8(a + b) == Utf8(a) + Utf8(b)
  {
    if a != [] {
      assert (a + b)[1..] == a[1..] + b;
      Utf8Concat(a[1..], b);
    } else {
      assert a + b == b;
    }
  }

  lemma {:induction false} FormEncodeBytesConcat(a: seq<Byte>, b: seq<Byte>)
    ensures FormEncodeBytes(a + b) == FormEncodeBytes(a) + FormEncodeBytes(b)
  {
    if a != [] {
      assert (a + b)[1..] == a[1..] + b;
      FormEncodeBytesConcat(a[1..], b);
    } else {
      assert a + b == b;
    }
  }

  /** The serializer works character by character: the encoding of a concatenation is
      the concatenation of the encodings. */
  lemma FormEncodeConcat(a: string, b: string)
    ensures FormEncode(a + b) == FormEncode(a) + FormEncode(b)
  {
    Utf8Concat(a, b);
    FormEncodeBytesConcat(Utf8(a), Utf8(b));
  }

  /** Text made of ASCII alphanumerics and `*-._` is serialized unchanged. */
  lemma {:induction false} FormEncodeSafe(s: string)
    requires forall i :: 0 <= i < |s| ==> FormSafe(s[i])
    ensures FormEncode(s) == s
  {
    if s != [] {
      FormEncodeSafe(s[1..]);
      Utf8Concat([s[0]], s[1..]);
      FormEncodeBytesConcat(Utf8([s[0]]), Utf8(s[1..]));
      assert [s[0]] + s[1..] == s;
      assert Utf8([s[0]]) == [s[0] as int];
    }
  }

  /** A space is serialized as `+`. */
  lemma FormEncodeSpace()
    ensures FormEncode(" ") == "+"
  {
    assert Utf8(" ") == [0x20];
  }

  /** No `&` or `=` in a text: it cannot be mistaken for a separator. */
  predicate NoSeparators(t: string) {
    forall i :: 0 <= i < |t| ==> t[i] != '&' && t[i] != '='
  }

  lemma FormEncodeByteNoSeparators(b: Byte)
    ensures NoSeparators(FormEncodeByte(b))
  {
    if b != 0x20 && !FormKeeps(b) {
      var t := FormEncodeByte(b);
      assert t == ['%', UpperHex(b / 16), UpperHex(b % 16)];
      assert t[1] != '&' && t[1] != '=' && t[2] != '&' && t[2] != '=';
    }
  }

  lemma NoSeparatorsConcat(a: string, b: string)
    requires NoSeparators(a) && NoSeparators(b)
    ensures NoSeparators(a + b)
  {
    forall i | 0 <= i < |a + b| ensures (a + b)[i] != '&' && (a + b)[i] != '=' {
      if i >= |a| { assert (a + b)[i] == b[i - |a|]; }
    }
  }

  lemma {:induction false} FormEncodeBytesNoSeparators(bs: seq<Byte>)
    ensures NoSeparators(FormEncodeBytes(bs))
  {
    if bs != [] {
      FormEncodeBytesNoSeparators(bs[1..]);
      FormEncodeByteNoSeparators(bs[0]);
      NoSeparatorsConcat(FormEncodeByte(bs[0]), FormEncodeBytes(bs[1..]));
    }
  }

  /** Form-urlencoded text never holds a raw `&` or `=`. */
  lemma FormEncodeNoSeparators(s: string)
    ensures NoSeparators(FormEncode(s))
  {
    FormEncodeBytesNoSeparators(Utf8(s));
  }

  // ---------------------------------------------------------------------------
  // Query strings: URLSearchParams.toString() and the parser behind
  // new URLSearchParams(query)
  // ---------------------------------------------------------------------------

  type Pair = (string, string)

  function PairText(p: Pair): string {
    FormEncode(p.0) + ['='] + FormEncode(p.1)
  }

  /** The application/x-www-form-urlencoded serializer: pairs joined by `&`. */
  function Serialize(ps: seq<Pair>): string {
    if |ps| == 0 then []
    else if |ps| == 1 then PairText(ps[0])
    else PairText(ps[0]) + ['&'] + Serialize(ps[1..])
  }

  /** Splitting a string on every occurrence of a separator character. */
  function Split(s: string, sep: char): (parts: seq<string>)
    ensures |parts| >= 1
    decreases |s|
  {
    if s == [] then [[]]
    else if s[0] == sep then [[]] + Split(s[1..], sep)
    else
      var r := Split(s[1..], sep);
      [[s[0]] + r[0]] + r[1..]
  }

  function IndexOf(s: string, c: char): (r: Option<nat>)
    ensures r.Some? ==> r.value < |s| && s[r.value] == c && c !in s[..r.value]
    ensures r.None? ==> c !in s
  {
    if s == [] then None
    else if s[0] == c then Some(0)
    else
      match IndexOf(s[1..], c)
      case None => None
      case Some(i) => Some(i + 1)
  }

  lemma {:induction false} IndexOfAfter(a: string, c: char, b: string)
    requires c !in a
    ensures IndexOf(a + [c] + b, c) == Some(|a|)
  {
    if a != [] {
      assert (a + [c] + b)[1..] == a[1..] + [c] + b;
      IndexOfAfter(a[1..], c, b);
    }
  }

  /** A non-empty sequence split at its first `=`; a sequence without `=` is a name
      with the empty value. */
  function ParsePair(seg: string): Option<Pair> {
    var (name, value) :=
      match IndexOf(seg, '=')
      case None => (seg, [])
      case Some(i) => (seg[..i], seg[i + 1..]);
    match (FormDecode(name), FormDecode(value))
    case (Some(n), Some(v)) => Some((n, v))
    case _ => None
  }

  function ParseSegments(segs: seq<string>): Option<seq<Pair>> {
    if segs == [] then Some([])
    else if segs[0] == [] then ParseSegments(segs[1..])
    else
      match (ParsePair(segs[0]), ParseSegments(segs[1..]))
      case (Some(p), Some(ps)) => Some([p] + ps)
      case _ => None
  }

  /** The application/x-www-form-urlencoded parser: empty sequences are skipped. */
  function ParseQuery(q: string): Option<seq<Pair>> {
    ParseSegments(Split(q, '&'))
  }

  lemma {:induction false} SplitWithout(a: string, sep: char)
    requires sep !in a
    ensures Split(a, sep) == [a]
  {
    if a != [] {
      SplitWithout(a[1..], sep);
      assert [a[0]] + a[1..] == a;
    }
  }

  lemma {:induction false} SplitAfter(a: string, sep: char, b: string)
    requires sep !in a
    ensures Split(a + [sep] + b, sep) == [a] + Split(b, sep)
  {
    if a == [] {
      assert a + [sep] + b == [sep] + b;
      assert ([sep] + b)[1..] == b;
    } else {
      var s := a + [sep] + b;
      assert s[1..] == a[1..] + [sep] + b;
      SplitAfter(a[1..], sep, b);
      assert [a[0]] + a[1..] == a;
    }
  }

  lemma PairTextParses(p: Pair)
    ensures PairText(p) != []
    ensures '&' !in PairText(p)
    ensures ParsePair(PairText(p)) == Some(p)
  {
    var k, v := FormEncode(p.0), FormEncode(p.1);
    var t := PairText(p);
    FormEncodeNoSeparators(p.0);
    FormEncodeNoSeparators(p.1);
    assert t[|k|] == '=';
    assert '=' !in k;
    assert '&' !in t by {
      forall i | 0 <= i < |t| ensures t[i] != '&' {
        if i < |k| { assert t[i] == k[i]; }
        else if i > |k| { assert t[i] == v[i - |k| - 1]; }
      }
    }
    assert t[..|k|] == k;
    IndexOfAfter(k, '=', v);
    assert t[|k| + 1..] == v;
    FormRoundTrip(p.0);
    FormRoundTrip(p.1);
  }

  lemma {:induction false} SerializeSplits(ps: seq<Pair>)
    requires |ps| >= 1
    ensures ParseSegments(Split(Serialize(ps), '&')) == Some(ps)
  {
    PairTextParses(ps[0]);
    if |ps| == 1 {
      SplitWithout(PairText(ps[0]), '&');
      assert [PairText(ps[0])][1..] == [];
      assert ParseSegments([]) == Some([]);
      assert [ps[0]] + [] == ps;
    } else {
      SplitAfter(PairText(ps[0]), '&', Serialize(ps[1..]));
      SerializeSplits(ps[1..]);
      var segs := Split(Serialize(ps), '&');
      assert segs == [PairText(ps[0])] + Split(Serialize(ps[1..]), '&');
      assert segs[1..] == Split(Serialize(ps[1..]), '&');
      assert [ps[0]] + ps[1..] == ps;
    }
  }

  /** `new URLSearchParams(params.toString())` holds the same pairs in the same order. */
  lemma QueryRoundTrip(ps: seq<Pair>)
    ensures ParseQuery(Serialize(ps)) == Some(ps)
  {
    if ps == [] {
      assert Serialize(ps) == [];
    } else {
      SerializeSplits(ps);
    }
  }

  /** A `URLSearchParams` object: an ordered list of name/value pairs that `append`
      extends and `toString()` serializes. */
  class SearchParams {
    var pairs: seq<Pair>

    constructor()
      ensures pairs == []
    {
      pairs := [];
    }

    method Append(name: string, value: string)
      modifies this
      ensures pairs == old(pairs) + [(name, value)]
    {
      pairs := pairs + [(name, value)];
    }

    function ToString(): string
      reads this
    {
      Serialize(pairs)
    }
  }
}
