/**
 * The part of JSON the front end writes and reads back: `JSON.stringify` of a flat
 * record whose fields hold `null`, booleans, integers or strings, and `JSON.parse`
 * of such a text (or of the text `null`).  Members keep their insertion order, as
 * JavaScript objects do for keys that are not array indices (an integer-like key such
 * as "0" or "42" would be enumerated first, in numeric order; the records here have
 * none).  The parser is exact for what `Stringify`
 * produces; JSON it does not cover (white space between tokens, fractions and
 * exponents, arrays, nested objects, surrogate escapes) is rejected.
 */
module Json {
  import opened Outcomes

  datatype Value = Null | Bool(b: bool) | Num(n: int) | Str(s: string)

  type Member = (string, Value)

  /** What `JSON.parse` yields on the texts this module understands. */
  datatype Document = NullDoc | ObjectDoc(members: seq<Member>)

  // ---------------------------------------------------------------------------
  // Writing: JSON.stringify
  // ---------------------------------------------------------------------------

  function HexDigit(d: nat): char
    requires d < 16
  {
    if d < 10 then ('0' as int + d) as char else ('a' as int + d - 10) as char
  }

  /** QuoteJSONString, one code unit: the two-character escapes, `\u00xx` for the
      remaining control characters, the character itself otherwise. */
  function EscapeChar(c: char): string {
    if c == '"' then ['\\', '"']
    else if c == '\\' then ['\\', '\\']
    else if c == '\U{8}' then ['\\', 'b']
    else if c == '\t' then ['\\', 't']
    else if c == '\n' then ['\\', 'n']
    else if c == '\U{C}' then ['\\', 'f']
    else if c == '\r' then ['\\', 'r']
    else if (c as int) < 0x20 then ['\\', 'u', '0', '0', HexDigit(c as int / 16), HexDigit(c as int % 16)]
    else [c]
  }

  function Escape(s: string): string {
    if s == [] then [] else EscapeChar(s[0]) + Escape(s[1..])
  }

  function Quote(s: string): string {
    ['"'] + Escape(s) + ['"']
  }

  function DigitChar(d: nat): char
    requires d < 10
  {
    ('0' as int + d) as char
  }

  /** Decimal text of a natural number, without leading zeros. */
  function NatText(n: nat): (r: string)
    ensures |r| >= 1
    ensures forall i :: 0 <= i < |r| ==> '0' <= r[i] <= '9'
  {
    if n < 10 then [DigitChar(n)] else NatText(n / 10) + [DigitChar(n % 10)]
  }

  /** `Number.prototype.toString` of an integer-valued number. */
  function IntText(n: int): (r: string)
    ensures |r| >= 1
  {
    if n < 0 then ['-'] + NatText(-n) else NatText(n)
  }

  function ValueText(v: Value): string {
    match v
    case Null => "null"
    case Bool(b) => if b then "true" else "false"
    case Num(n) => IntText(n)
    case Str(s) => Quote(s)
  }

  function MemberText(m: Member): string {
    Quote(m.0) + [':'] + ValueText(m.1)
  }

  function MembersText(ms: seq<Member>): string {
    if |ms| == 0 then []
    else if |ms| == 1 then MemberText(ms[0])
    else MemberText(ms[0]) + [','] + MembersText(ms[1..])
  }

  /** `JSON.stringify` of a flat object (no white space). */
  function Stringify(ms: seq<Member>): string {
    ['{'] + MembersText(ms) + ['}']
  }

  // ---------------------------------------------------------------------------
  // Reading: JSON.parse
  // ---------------------------------------------------------------------------

  function HexValue(c: char): Option<nat> {
    if '0' <= c <= '9' then Some(c as int - '0' as int)
    else if 'a' <= c <= 'f' then Some(c as int - 'a' as int + 10)
    else if 'A' <= c <= 'F' then Some(c as int - 'A' as int + 10)
    else None
  }

  /** One escape sequence, given the text after its backslash: the character it
      denotes and how many characters it takes. */
  function Unescape(s: string): (r: Option<(char, nat)>)
    ensures r.Some? ==> 1 <= r.value.1 <= |s|
  {
    if s == [] then None
    else if s[0] == '"' then Some(('"', 1))
    else if s[0] == '\\' then Some(('\\', 1))
    else if s[0] == '/' then Some(('/', 1))
    else if s[0] == 'b' then Some(('\U{8}', 1))
    else if s[0] == 'f' then Some(('\U{C}', 1))
    else if s[0] == 'n' then Some(('\n', 1))
    else if s[0] == 'r' then Some(('\r', 1))
    else if s[0] == 't' then Some(('\t', 1))
    else if s[0] == 'u' && |s| >= 5 then
      match (HexValue(s[1]), HexValue(s[2]), HexValue(s[3]), HexValue(s[4]))
      case (Some(a), Some(b), Some(c), Some(d)) =>
        var code := ((a * 16 + b) * 16 + c) * 16 + d;
        if 0xD800 <= code < 0xE000 || code >= 0x11_0000 then None
        else Some((code as char, 5))
      case _ => None
    else None
  }

  /** The body of a string literal after its opening quote: its characters and the
      text after the closing quote. */
  function ParseChars(s: string): (r: Option<(string, string)>)
    ensures r.Some? ==> |r.value.1| < |s|
    decreases |s|
  {
    if s == [] then None
    else if s[0] == '"' then Some(([], s[1..]))
    else if s[0] == '\\' then
      match Unescape(s[1..])
      case None => None
      case Some((c, k)) =>
        match ParseChars(s[1 + k..])
        case None => None
        case Some((t, rest)) => Some(([c] + t, rest))
    else if (s[0] as int) < 0x20 then None
    else
      match ParseChars(s[1..])
      case None => None
      case Some((t, rest)) => Some(([s[0]] + t, rest))
  }

  /** The longest prefix of `s` made of decimal digits. */
  function DigitSpan(s: string): (ds: string)
    ensures ds <= s
    ensures forall i :: 0 <= i < |ds| ==> '0' <= ds[i] <= '9'
  {
    if s != [] && '0' <= s[0] <= '9' then [s[0]] + DigitSpan(s[1..]) else []
  }

  function DigitsValue(ds: string): nat
    requires forall i :: 0 <= i < |ds| ==> '0' <= ds[i] <= '9'
  {
    if ds == [] then 0
    else DigitsValue(ds[..|ds| - 1]) * 10 + (ds[|ds| - 1] as int - '0' as int)
  }

  /** A JSON integer without sign: no leading zero unless it is `0` itself. */
  function ParseNat(s: string): (r: Option<(nat, string)>)
    ensures r.Some? ==> |r.value.1| < |s|
  {
    var ds := DigitSpan(s);
    if ds == [] || (|ds| > 1 && ds[0] == '0') then None
    else Some((DigitsValue(ds), s[|ds|..]))
  }

  function ParseNumber(s: string): (r: Option<(int, string)>)
    ensures r.Some? ==> |r.value.1| < |s|
  {
    if s != [] && s[0] == '-' then
      match ParseNat(s[1..])
      case None => None
      case Some((n, rest)) => Some((0 - n, rest))
    else
      match ParseNat(s)
      case None => None
      case Some((n, rest)) => Some((n as int, rest))
  }

  function ParseValue(s: string): (r: Option<(Value, string)>)
    ensures r.Some? ==> |r.value.1| < |s|
  {
    if "null" <= s then Some((Null, s[4..]))
    else if "true" <= s then Some((Bool(true), s[4..]))
    else if "false" <= s then Some((Bool(false), s[5..]))
    else if s != [] && s[0] == '"' then
      match ParseChars(s[1..])
      case None => None
      case Some((t, rest)) => Some((Str(t), rest))
    else
      match ParseNumber(s)
      case None => None
      case Some((n, rest)) => Some((Num(n), rest))
  }

  function ParseMember(s: string): (r: Option<(Member, string)>)
    ensures r.Some? ==> |r.value.1| < |s|
  {
    if s != [] && s[0] == '"' then
      match ParseChars(s[1..])
      case None => None
      case Some((k, r1)) =>
        if r1 != [] && r1[0] == ':' then
          match ParseValue(r1[1..])
          case None => None
          case Some((v, r2)) => Some(((k, v), r2))
        else None
    else None
  }

  /** Members separated by commas up to and including the closing brace. */
  function ParseMemberList(s: string): (r: Option<(seq<Member>, string)>)
    ensures r.Some? ==> |r.value.1| < |s|
    decreases |s|
  {
    match ParseMember(s)
    case None => None
    case Some((m, rest)) =>
      if rest != [] && rest[0] == ',' then
        match ParseMemberList(rest[1..])
        case None => None
        case Some((ms, rest')) => Some(([m] + ms, rest'))
      else if rest != [] && rest[0] == '}' then Some(([m], rest[1..]))
      else None
  }

  function ParseObject(s: string): Option<(seq<Member>, string)> {
    if s != [] && s[0] == '{' then
      if |s| >= 2 && s[1] == '}' then Some(([], s[2..])) else ParseMemberList(s[1..])
    else None
  }

  /** `JSON.parse`; `None` is a thrown SyntaxError. */
  function Parse(text: string): Option<Document> {
    if text == "null" then Some(NullDoc)
    else
      match ParseObject(text)
      case Some((ms, rest)) => if rest == [] then Some(ObjectDoc(ms)) else None
      case None => None
  }

  /** The value a property read `obj[key]` sees after `JSON.parse`: the last member
      with that key wins. */
  function Get(ms: seq<Member>, key: string): (r: Option<Value>)
    ensures r.Some? ==> (key, r.value) in ms
    ensures r.Some? ==> exists i :: LastWithKey(ms, key, i) && ms[i].1 == r.value
    ensures r.None? ==> forall i :: 0 <= i < |ms| ==> ms[i].0 != key
  {
    if ms == [] then None
    else if ms[|ms| - 1].0 == key then
      assert LastWithKey(ms, key, |ms| - 1);
      Some(ms[|ms| - 1].1)
    else
      var r := Get(ms[..|ms| - 1], key);
      if r.Some? then LastWithKeyExtend(ms, ms[..|ms| - 1], key, r.value); r else r
  }

  /** Member `i` is the last one named `key`: no later member repeats the key. */
  predicate LastWithKey(ms: seq<Member>, key: string, i: int) {
    0 <= i < |ms| && ms[i].0 == key && forall j :: i < j < |ms| ==> ms[j].0 != key
  }

  lemma LastWithKeyExtend(ms: seq<Member>, prefix: seq<Member>, key: string, v: Value)
    requires ms != [] && prefix == ms[..|ms| - 1] && ms[|ms| - 1].0 != key
    requires exists i :: LastWithKey(prefix, key, i) && prefix[i].1 == v
    ensures exists i :: LastWithKey(ms, key, i) && ms[i].1 == v
  {
    var i :| LastWithKey(prefix, key, i) && prefix[i].1 == v;
    assert LastWithKey(ms, key, i);
  }

  // ---------------------------------------------------------------------------
  // Round trip: JSON.parse(JSON.stringify(o)) gives back o
  // ---------------------------------------------------------------------------

  function Prepend(c: char, r: Option<(string, string)>): Option<(string, string)> {
    match r
    case None => None
    case Some((t, rest)) => Some(([c] + t, rest))
  }

  lemma HexDigitValue(d: nat)
    requires d < 16
    ensures HexValue(HexDigit(d)) == Some(d)
  {
  }

  /** A character with a two-character escape (`\"`, `\\`, `\b`, `\t`, `\n`, `\f`, `\r`). */
  predicate ShortEscaped(c: char) {
    c == '"' || c == '\\' || c == '\U{8}' || c == '\t' || c == '\n' || c == '\U{C}' || c == '\r'
  }

  lemma ShortEscapeRoundTrip(c: char, tail: string)
    requires ShortEscaped(c)
    ensures ParseChars(EscapeChar(c) + tail) == Prepend(c, ParseChars(tail))
  {
    var e := EscapeChar(c);
    assert |e| == 2 && e[0] == '\\';
    var s := e + tail;
    assert s[0] == '\\' && s[1] == e[1];
    assert Unescape(s[1..]) == Some((c, 1));
    assert s[1 + 1..] == tail;
  }

  lemma ControlEscapeRoundTrip(c: char, tail: string)
    requires !ShortEscaped(c) && (c as int) < 0x20
    ensures ParseChars(EscapeChar(c) + tail) == Prepend(c, ParseChars(tail))
  {
    var s := EscapeChar(c) + tail;
    var hi, lo := c as int / 16, c as int % 16;
    HexDigitValue(hi);
    HexDigitValue(lo);
    assert s[1..][1..5] == ['0', '0', HexDigit(hi), HexDigit(lo)];
    assert Unescape(s[1..]) == Some((c, 5));
    assert s[1 + 5..] == tail;
  }

  /** Reading one escaped character back. */
  lemma EscapeCharRoundTrip(c: char, tail: string)
    ensures ParseChars(EscapeChar(c) + tail) == Prepend(c, ParseChars(tail))
  {
    if ShortEscaped(c) {
      ShortEscapeRoundTrip(c, tail);
    } else if (c as int) < 0x20 {
      ControlEscapeRoundTrip(c, tail);
    } else {
      assert (EscapeChar(c) + tail)[1..] == tail;
    }
  }

  /** Reading a whole escaped string body back, up to its closing quote. */
  lemma {:induction false} EscapeRoundTrip(t: string, rest: string)
    ensures ParseChars(Escape(t) + ['"'] + rest) == Some((t, rest))
  {
    if t == [] {
      assert Escape(t) + ['"'] + rest == ['"'] + rest;
    } else {
      assert Escape(t) + ['"'] + rest == EscapeChar(t[0]) + (Escape(t[1..]) + ['"'] + rest);
      EscapeCharRoundTrip(t[0], Escape(t[1..]) + ['"'] + rest);
      EscapeRoundTrip(t[1..], rest);
      assert [t[0]] + t[1..] == t;
    }
  }

  lemma {:induction false} DigitSpanOfDigits(ds: string, rest: string)
    requires forall i :: 0 <= i < |ds| ==> '0' <= ds[i] <= '9'
    requires rest == [] || !('0' <= rest[0] <= '9')
    ensures DigitSpan(ds + rest) == ds
  {
    if ds != [] {
      assert (ds + rest)[1..] == ds[1..] + rest;
      DigitSpanOfDigits(ds[1..], rest);
      assert [ds[0]] + ds[1..] == ds;
    }
  }

  lemma {:induction false} NatTextValue(n: nat)
    ensures DigitsValue(NatText(n)) == n
  {
    if n >= 10 {
      NatTextValue(n / 10);
      var t := NatText(n);
      assert t[..|t| - 1] == NatText(n / 10);
    }
  }

  lemma {:induction false} NatTextNoLeadingZero(n: nat)
    ensures |NatText(n)| > 1 ==> NatText(n)[0] != '0'
  {
    if n >= 10 {
      NatTextNoLeadingZero(n / 10);
      assert NatText(n)[0] == NatText(n / 10)[0];
    }
  }

  lemma NatRoundTrip(n: nat, rest: string)
    requires rest == [] || !('0' <= rest[0] <= '9')
    ensures ParseNat(NatText(n) + rest) == Some((n, rest))
  {
    DigitSpanOfDigits(NatText(n), rest);
    NatTextValue(n);
    NatTextNoLeadingZero(n);
    assert (NatText(n) + rest)[|NatText(n)|..] == rest;
  }

  /** Follow-set of a value inside an object: a comma, a closing brace, or the end. */
  predicate AfterValue(rest: string) {
    rest == [] || rest[0] == ',' || rest[0] == '}'
  }

  lemma StrRoundTrip(t: string, rest: string)
    ensures ParseValue(Quote(t) + rest) == Some((Str(t), rest))
  {
    var s := Quote(t) + rest;
    assert s[0] == '"';
    assert s[1..] == Escape(t) + ['"'] + rest;
    EscapeRoundTrip(t, rest);
  }

  lemma NegativeRoundTrip(n: int, rest: string)
    requires n < 0
    requires rest == [] || !('0' <= rest[0] <= '9')
    ensures ParseNumber(IntText(n) + rest) == Some((n, rest))
  {
    var s := IntText(n) + rest;
    var m: nat := -n;
    assert s == ['-'] + (NatText(m) + rest);
    assert s[1..] == NatText(m) + rest;
    NatRoundTrip(m, rest);
  }

  lemma NumberRoundTrip(n: int, rest: string)
    requires rest == [] || !('0' <= rest[0] <= '9')
    ensures ParseNumber(IntText(n) + rest) == Some((n, rest))
  {
    if n < 0 {
      NegativeRoundTrip(n, rest);
    } else {
      NatRoundTrip(n, rest);
      assert (IntText(n) + rest)[0] != '-';
    }
  }

  lemma NumRoundTrip(n: int, rest: string)
    requires AfterValue(rest)
    ensures ParseValue(IntText(n) + rest) == Some((Num(n), rest))
  {
    var s := IntText(n) + rest;
    NumberRoundTrip(n, rest);
    assert '0' <= s[0] <= '9' || s[0] == '-';
    assert !("null" <= s) && !("true" <= s) && !("false" <= s);
  }

  lemma ValueRoundTrip(v: Value, rest: string)
    requires AfterValue(rest)
    ensures ParseValue(ValueText(v) + rest) == Some((v, rest))
  {
    var s := ValueText(v) + rest;
    match v
    case Null =>
      assert s[4..] == rest;
    case Bool(b) =>
      assert !("null" <= s) by { assert s[0] != 'n'; }
      if b {
        assert s[4..] == rest;
      } else {
        assert !("true" <= s) by { assert s[0] != 't'; }
        assert s[5..] == rest;
      }
    case Str(t) =>
      StrRoundTrip(t, rest);
    case Num(n) =>
      NumRoundTrip(n, rest);
  }

  lemma MemberTextShape(e: string, v: string, rest: string)
    ensures (['"'] + e + ['"'] + [':'] + v + rest)[0] == '"'
    ensures (['"'] + e + ['"'] + [':'] + v + rest)[1..] == e + ['"'] + ([':'] + v + rest)
  {
    var s := ['"'] + e + ['"'] + [':'] + v + rest;
    assert s == ['"'] + (e + ['"'] + ([':'] + v + rest));
  }

  lemma MemberRoundTrip(m: Member, rest: string)
    requires AfterValue(rest)
    ensures ParseMember(MemberText(m) + rest) == Some((m, rest))
  {
    var s := MemberText(m) + rest;
    var afterKey := [':'] + ValueText(m.1) + rest;
    MemberTextShape(Escape(m.0), ValueText(m.1), rest);
    assert s[1..] == Escape(m.0) + ['"'] + afterKey;
    EscapeRoundTrip(m.0, afterKey);
    assert afterKey[1..] == ValueText(m.1) + rest;
    ValueRoundTrip(m.1, rest);
  }

  /** The last member of a list, closed by its brace. */
  lemma MemberThenBrace(m: Member, rest: string)
    ensures ParseMemberList(MemberText(m) + (['}'] + rest)) == Some(([m], rest))
  {
    MemberRoundTrip(m, ['}'] + rest);
    assert (['}'] + rest)[1..] == rest;
  }

  /** A member followed by a comma and the rest of the list. */
  lemma MemberThenComma(m: Member, inner: string, ms: seq<Member>, rest: string)
    requires ParseMemberList(inner) == Some((ms, rest))
    ensures ParseMemberList(MemberText(m) + ([','] + inner)) == Some(([m] + ms, rest))
  {
    MemberRoundTrip(m, [','] + inner);
    assert ([','] + inner)[1..] == inner;
  }

  lemma HeadTail<T>(s: seq<T>)
    requires |s| > 0
    ensures [s[0]] + s[1..] == s
  {
  }

  lemma {:induction false} MembersTextCons(ms: seq<Member>)
    requires |ms| > 1
    ensures MembersText(ms) == MemberText(ms[0]) + [','] + MembersText(ms[1..])
  {
  }

  lemma {:induction false} RegroupAfterComma(a: string, b: string, rest: string)
    ensures a + [','] + b + ['}'] + rest == a + ([','] + (b + ['}'] + rest))
  {
  }

  lemma {:induction false} MembersRoundTrip(ms: seq<Member>, rest: string)
    requires |ms| >= 1
    ensures ParseMemberList(MembersText(ms) + ['}'] + rest) == Some((ms, rest))
  {
    if |ms| == 1 {
      assert MembersText(ms) + ['}'] + rest == MemberText(ms[0]) + (['}'] + rest);
      MemberThenBrace(ms[0], rest);
      assert [ms[0]] == ms;
    } else {
      var inner := MembersText(ms[1..]) + ['}'] + rest;
      MembersTextCons(ms);
      RegroupAfterComma(MemberText(ms[0]), MembersText(ms[1..]), rest);
      MembersRoundTrip(ms[1..], rest);
      MemberThenComma(ms[0], inner, ms[1..], rest);
      HeadTail(ms);
    }
  }

  /** `JSON.parse(JSON.stringify(o))` rebuilds `o`, member by member and in order. */
  lemma StringifyRoundTrip(ms: seq<Member>)
    ensures Parse(Stringify(ms)) == Some(ObjectDoc(ms))
  {
    var text := Stringify(ms);
    assert text[0] == '{';
    if ms == [] {
      assert text == ['{', '}'];
      assert text[2..] == [];
    } else {
      assert MembersText(ms)[0] == '"';
      assert text[1..] == MembersText(ms) + ['}'] + [];
      MembersRoundTrip(ms, []);
      assert ParseObject(text) == Some((ms, []));
    }
  }
}
