/**
 * The few JavaScript string primitives the front end relies on, stated over
 * `seq<char>`: the `\s` and `\d` regular-expression classes, `String.prototype.trim`,
 * `String.prototype.includes`, ASCII case mapping and the `replace(/\D/g, '')`
 * digit filter.  A char stands for one UTF-16 code unit of a JavaScript string.
 */
module JsText {

  /** The `\s` class of ECMAScript regular expressions (WhiteSpace and LineTerminator),
      which is also the set `String.prototype.trim` strips. */
  predicate IsSpace(c: char) {
    c == '\t' || c == '\n' || c == '\U{000B}' || c == '\U{000C}' || c == '\r' || c == ' ' ||
    c == '\U{00A0}' || c == '\U{1680}' || ('\U{2000}' <= c <= '\U{200A}') ||
    c == '\U{2028}' || c == '\U{2029}' || c == '\U{202F}' || c == '\U{205F}' ||
    c == '\U{3000}' || c == '\U{FEFF}'
  }

  /** The `\d` class: ASCII digits only. */
  predicate IsDigit(c: char) { '0' <= c <= '9' }

  predicate IsUpper(c: char) { 'A' <= c <= 'Z' }

  predicate IsLower(c: char) { 'a' <= c <= 'z' }

  /** JavaScript truthiness of a string: only the empty string is falsy. */
  predicate Truthy(s: string) { s != "" }

  predicate AllSpace(s: string) {
    forall i :: 0 <= i < |s| ==> IsSpace(s[i])
  }

  /** `s.trimStart()`. */
  function TrimStart(s: string): (r: string)
    ensures |r| <= |s| && r == s[|s| - |r|..]
    ensures r != [] ==> !IsSpace(r[0])
  {
    if s != [] && IsSpace(s[0]) then TrimStart(s[1..]) else s
  }

  /** `s.trimEnd()`. */
  function TrimEnd(s: string): (r: string)
    ensures |r| <= |s| && r == s[..|r|]
    ensures r != [] ==> !IsSpace(r[|r| - 1])
  {
    if s != [] && IsSpace(s[|s| - 1]) then TrimEnd(s[..|s| - 1]) else s
  }

  /** `s.trim()`. */
  function Trim(s: string): string {
    TrimEnd(TrimStart(s))
  }

  lemma {:induction false} TrimStartEmptyIffAllSpace(s: string)
    ensures TrimStart(s) == [] <==> AllSpace(s)
  {
    if s != [] && IsSpace(s[0]) {
      assert TrimStart(s) == TrimStart(s[1..]);
      TrimStartEmptyIffAllSpace(s[1..]);
      if AllSpace(s[1..]) {
        forall i | 0 <= i < |s| ensures IsSpace(s[i]) {
          if i > 0 { assert s[i] == s[1..][i - 1]; }
        }
      } else {
        var i :| 0 <= i < |s[1..]| && !IsSpace(s[1..][i]);
        assert s[i + 1] == s[1..][i];
      }
    } else if s != [] {
      assert TrimStart(s) == s;
      assert !IsSpace(s[0]);
    }
  }

  lemma {:induction false} TrimEndOfNonEmptyStart(s: string)
    requires s != [] && !IsSpace(s[0])
    ensures TrimEnd(s) != []
  {
    if IsSpace(s[|s| - 1]) {
      assert |s| > 1;
      TrimEndOfNonEmptyStart(s[..|s| - 1]);
    }
  }

  /** `!s.trim()` holds exactly when every character of `s` is white space. */
  lemma TrimEmptyIffAllSpace(s: string)
    ensures Trim(s) == [] <==> AllSpace(s)
  {
    TrimStartEmptyIffAllSpace(s);
    if TrimStart(s) != [] {
      TrimEndOfNonEmptyStart(TrimStart(s));
    }
  }

  /** `!s.trim()`: the text is empty or white space only. */
  function Blank(s: string): (b: bool)
    ensures b <==> AllSpace(s)
  {
    TrimEmptyIffAllSpace(s);
    Trim(s) == ""
  }

  /** `s.includes(sub)`, written as a scan from the left. */
  predicate Includes(s: string, sub: string)
    decreases |s|
  {
    sub <= s || (s != [] && Includes(s[1..], sub))
  }

  /** `sub` occurs in `s` starting at offset `i`. */
  predicate OccursAt(s: string, sub: string, i: int) {
    0 <= i && i + |sub| <= |s| && s[i..i + |sub|] == sub
  }

  /** A text that holds `sub` at a known offset includes it. */
  lemma {:induction false} IncludesAt(s: string, sub: string, i: nat)
    requires OccursAt(s, sub, i)
    ensures Includes(s, sub)
    decreases i
  {
    if i == 0 {
      assert s[..|sub|] == sub;
    } else if !(sub <= s) {
      assert OccursAt(s[1..], sub, i - 1) by {
        assert s[1..][i - 1..i - 1 + |sub|] == s[i..i + |sub|];
      }
      IncludesAt(s[1..], sub, i - 1);
    }
  }

  /** Where an included `sub` occurs. */
  lemma {:induction false} IncludesWitness(s: string, sub: string) returns (i: nat)
    requires Includes(s, sub)
    ensures OccursAt(s, sub, i)
    decreases |s|
  {
    if sub <= s {
      i := 0;
      assert s[..|sub|] == sub;
    } else {
      var j := IncludesWitness(s[1..], sub);
      i := j + 1;
      assert s[1..][j..j + |sub|] == s[j + 1..j + 1 + |sub|];
    }
  }

  /** The scan finds `sub` exactly when it occurs at some offset. */
  lemma IncludesIffOccurs(s: string, sub: string)
    ensures Includes(s, sub) <==> exists i :: OccursAt(s, sub, i)
  {
    if Includes(s, sub) {
      var i := IncludesWitness(s, sub);
    }
    if exists i :: OccursAt(s, sub, i) {
      var i :| OccursAt(s, sub, i);
      IncludesAt(s, sub, i);
    }
  }

  /** A text that lacks the first character of `sub` does not include `sub`. */
  lemma {:induction false} HeadAbsentNotIncluded(s: string, sub: string)
    requires sub != [] && sub[0] !in s
    ensures !Includes(s, sub)
    decreases |s|
  {
    if s != [] {
      assert s[0] != sub[0];
      assert sub[0] !in s[1..];
      HeadAbsentNotIncluded(s[1..], sub);
    }
  }

  /** `c.toLowerCase()` restricted to ASCII letters. */
  function LowerChar(c: char): (r: char)
    ensures IsUpper(c) ==> r == (c as int + 32) as char
    ensures !IsUpper(c) ==> r == c
  {
    if IsUpper(c) then (c as int + 32) as char else c
  }

  /** `c.toUpperCase()` restricted to ASCII letters. */
  function UpperChar(c: char): (r: char)
    ensures IsLower(c) ==> r == (c as int - 32) as char
    ensures !IsLower(c) ==> r == c
  {
    if IsLower(c) then (c as int - 32) as char else c
  }

  /** `s.toLowerCase()` restricted to ASCII letters. */
  function Lower(s: string): (r: string)
    ensures |r| == |s| && forall i :: 0 <= i < |s| ==> r[i] == LowerChar(s[i])
    ensures forall i :: 0 <= i < |r| ==> !IsUpper(r[i])
  {
    seq(|s|, i requires 0 <= i < |s| => LowerChar(s[i]))
  }

  /** Lower-casing leaves lower-cased text unchanged, so a lookup by `Lower(key)` sees
      the same key however often it is lower-cased. */
  lemma LowerIdempotent(s: string)
    ensures Lower(Lower(s)) == Lower(s)
  {
  }

  /** `s.replace(/\D/g, '')`: the digits of `s`, in order. */
  function DigitsOnly(s: string): (r: string)
    ensures |r| <= |s|
    ensures forall i :: 0 <= i < |r| ==> IsDigit(r[i])
  {
    if s == [] then []
    else if IsDigit(s[0]) then [s[0]] + DigitsOnly(s[1..])
    else DigitsOnly(s[1..])
  }

  /** Every digit of the input survives, and nothing but digits of the input appears. */
  lemma {:induction false} DigitsOnlyKeepsDigits(s: string, c: char)
    ensures c in DigitsOnly(s) <==> c in s && IsDigit(c)
  {
    if s != [] {
      DigitsOnlyKeepsDigits(s[1..], c);
      assert s == [s[0]] + s[1..];
    }
  }

  /** A single character is kept exactly when it is a digit. */
  lemma DigitsOnlyChar(c: char)
    ensures DigitsOnly([c]) == if IsDigit(c) then [c] else []
  {
    assert [c][1..] == [];
  }

  /** The filter works piece by piece: the digits of `a + b` are the digits of `a`
      followed by those of `b`.  With `DigitsOnlyChar` this pins the result down
      completely: every digit occurrence is kept, in its order, and nothing else. */
  lemma {:induction false} DigitsOnlyAppend(a: string, b: string)
    ensures DigitsOnly(a + b) == DigitsOnly(a) + DigitsOnly(b)
    decreases |a|
  {
    if a == [] {
      assert a + b == b;
    } else {
      assert (a + b)[0] == a[0];
      assert (a + b)[1..] == a[1..] + b;
      DigitsOnlyAppend(a[1..], b);
    }
  }

  /** Stripping non-digits twice strips nothing more. */
  lemma {:induction false} DigitsOnlyIdempotent(s: string)
    ensures DigitsOnly(DigitsOnly(s)) == DigitsOnly(s)
  {
    if s != [] {
      DigitsOnlyIdempotent(s[1..]);
      if IsDigit(s[0]) {
        assert ([s[0]] + DigitsOnly(s[1..]))[1..] == DigitsOnly(s[1..]);
      }
    }
  }
}
