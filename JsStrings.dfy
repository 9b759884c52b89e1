/** The JavaScript string built-ins the screens rely on: `trim`, `length`,
    `toLowerCase` and `includes`, stated over Dafny strings (sequences of
    Unicode scalar values). */
module JsStrings {

  /** The characters `String.prototype.trim` strips: ECMAScript's WhiteSpace
      (TAB, VT, FF, ZWNBSP and every space separator) and LineTerminator
      (LF, CR, LS, PS) productions. */
  predicate IsJsWhitespace(c: char) {
    || c == '\t' || c == '\n' || c == '\U{000B}' || c == '\U{000C}' || c == '\r'
    || c == ' ' || c == '\U{00A0}' || c == '\U{1680}'
    || ('\U{2000}' <= c <= '\U{200A}')
    || c == '\U{2028}' || c == '\U{2029}' || c == '\U{202F}' || c == '\U{205F}'
    || c == '\U{3000}' || c == '\U{FEFF}'
  }

  /** `!s.trim()`, the test for a missing required field: every character is
      whitespace. `Trim` proves this is "trimming leaves the empty string". */
  predicate IsBlank(s: string) {
    forall i :: 0 <= i < |s| ==> IsJsWhitespace(s[i])
  }

  /** Drops the leading whitespace: the result is the suffix of `s` that starts
      at its first non-whitespace character. */
  function TrimStart(s: string): (r: string)
    ensures |r| <= |s| && r == s[|s| - |r|..]
    ensures IsBlank(s[..|s| - |r|])
    ensures r != [] ==> !IsJsWhitespace(r[0])
  {
    if s != [] && IsJsWhitespace(s[0]) then
      var r := TrimStart(s[1..]);
      assert s[1..][..|s| - 1 - |r|] == s[1..|s| - |r|];
      r
    else
      s
  }

  /** Drops the trailing whitespace: the result is the prefix of `s` that ends
      at its last non-whitespace character. */
  function TrimEnd(s: string): (r: string)
    ensures |r| <= |s| && r == s[..|r|]
    ensures IsBlank(s[|r|..])
    ensures r != [] ==> !IsJsWhitespace(r[|r| - 1])
  {
    if s != [] && IsJsWhitespace(s[|s| - 1]) then
      var r := TrimEnd(s[..|s| - 1]);
      assert s[|r|..] == s[..|s| - 1][|r|..] + [s[|s| - 1]];
      r
    else
      s
  }

  /** Leading white space is invisible to trimming: `(p + s).trimStart()` is
      `s.trimStart()` for a blank `p`. */
  lemma {:induction false} TrimStartSkipsBlank(p: string, s: string)
    requires IsBlank(p)
    ensures TrimStart(p + s) == TrimStart(s)
  {
    if p == [] {
      assert p + s == s;
    } else {
      assert (p + s)[0] == p[0];
      assert (p + s)[1..] == p[1..] + s;
      TrimStartSkipsBlank(p[1..], s);
    }
  }

  /** `s.trim()`: the result is empty exactly when `s` is all whitespace, and
      otherwise neither starts nor ends with whitespace. */
  function Trim(s: string): (r: string)
    ensures r == [] <==> IsBlank(s)
    ensures r != [] ==> !IsJsWhitespace(r[0]) && !IsJsWhitespace(r[|r| - 1])
  {
    var t := TrimStart(s);
    var r := TrimEnd(t);
    TrimFacts(s, t, r);
    r
  }

  lemma TrimFacts(s: string, t: string, r: string)
    requires |t| <= |s| && t == s[|s| - |t|..] && IsBlank(s[..|s| - |t|])
    requires t != [] ==> !IsJsWhitespace(t[0])
    requires |r| <= |t| && r == t[..|r|] && IsBlank(t[|r|..])
    requires r != [] ==> !IsJsWhitespace(r[|r| - 1])
    ensures r == [] <==> IsBlank(s)
    ensures r != [] ==> !IsJsWhitespace(r[0])
  {
    var p := s[..|s| - |t|];
    assert s == p + t;
    BlankConcat(p, t);
    var u := t[|r|..];
    assert t == r + u;
    BlankConcat(r, u);
    if r != [] {
      assert r[0] == t[0];
    }
  }

  lemma BlankConcat(a: string, b: string)
    ensures IsBlank(a + b) <==> IsBlank(a) && IsBlank(b)
  {
    if IsBlank(a) && IsBlank(b) {
      forall i | 0 <= i < |a + b|
        ensures IsJsWhitespace((a + b)[i])
      {
        if i >= |a| { assert (a + b)[i] == b[i - |a|]; }
      }
    }
    if IsBlank(a + b) {
      forall i | 0 <= i < |a|
        ensures IsJsWhitespace(a[i])
      {
        assert (a + b)[i] == a[i];
      }
      forall i | 0 <= i < |b|
        ensures IsJsWhitespace(b[i])
      {
        assert (a + b)[|a| + i] == b[i];
      }
    }
  }

  /** `s.length`: JavaScript counts UTF-16 code units, so a character outside
      the Basic Multilingual Plane counts twice. */
  function JsLength(s: string): (n: nat)
    ensures |s| <= n <= 2 * |s|
    ensures (forall i :: 0 <= i < |s| ==> s[i] as int < 0x1_0000) ==> n == |s|
    ensures |s| == 1 ==> (n == 2 <==> s[0] as int >= 0x1_0000)
  {
    if s == [] then 0
    else (if s[0] as int < 0x1_0000 then 1 else 2) + JsLength(s[1..])
  }

  /** The code-unit count of a concatenation is the sum of the counts, so the
      length of a string is the sum of its characters' one or two units. */
  lemma {:induction false} JsLengthConcat(a: string, b: string)
    ensures JsLength(a + b) == JsLength(a) + JsLength(b)
  {
    if a == [] {
      assert a + b == b;
    } else {
      JsLengthConcat(a[1..], b);
      assert (a + b)[1..] == a[1..] + b;
    }
  }

  /** `toLowerCase` on one character, for ASCII and Latin-1 capitals (the
      accented capitals of Spanish included); every other character is kept. */
  function LowerChar(c: char): (d: char)
    ensures !IsUpper(d)
    ensures !IsUpper(c) ==> d == c
    ensures IsUpper(c) ==> d as int == c as int + 0x20
  {
    if IsUpper(c) then (c as int + 0x20) as char else c
  }

  /** The capitals `LowerChar` maps: A-Z and the Latin-1 capitals other than
      the multiplication sign. */
  predicate IsUpper(c: char) {
    'A' <= c <= 'Z' || ('\U{00C0}' <= c <= '\U{00DE}' && c != '\U{00D7}')
  }

  /** `s.toLowerCase()`, character by character. */
  function Lower(s: string): (r: string)
    ensures |r| == |s|
    ensures forall i :: 0 <= i < |s| ==> r[i] == LowerChar(s[i])
  {
    seq(|s|, i requires 0 <= i < |s| => LowerChar(s[i]))
  }

  /** Lowercasing twice is lowercasing once. */
  lemma LowerIdempotent(s: string)
    ensures Lower(Lower(s)) == Lower(s)
  {
    var l := Lower(s);
    forall i | 0 <= i < |s|
      ensures Lower(l)[i] == l[i]
    {
      assert l[i] == LowerChar(s[i]);
    }
  }

  /** `s.includes(q)`: does `q` occur in `s` at some offset. */
  predicate Includes(s: string, q: string)
    ensures q == "" ==> Includes(s, q)
    ensures Includes(s, q) ==> |q| <= |s|
    decreases |s|
  {
    q <= s || (s != [] && Includes(s[1..], q))
  }

  /** `q` occurs in `s` starting at offset `i`. */
  ghost predicate OccursAt(s: string, q: string, i: int) {
    0 <= i <= |s| - |q| && s[i..i + |q|] == q
  }

  /** `Includes` is the search for an occurrence of `q` as a contiguous slice of `s`. */
  lemma {:induction false} IncludesIffOccurs(s: string, q: string)
    ensures Includes(s, q) <==> exists i :: OccursAt(s, q, i)
    decreases |s|
  {
    if q <= s {
      assert OccursAt(s, q, 0);
    } else if s == [] {
    } else {
      IncludesIffOccurs(s[1..], q);
      if Includes(s, q) {
        var i :| OccursAt(s[1..], q, i);
        assert s[i + 1..i + 1 + |q|] == s[1..][i..i + |q|];
        assert OccursAt(s, q, i + 1);
      } else {
        forall i | 0 <= i <= |s| - |q|
          ensures !OccursAt(s, q, i)
        {
          if i > 0 {
            assert s[i..i + |q|] == s[1..][i - 1..i - 1 + |q|];
            assert !OccursAt(s[1..], q, i - 1);
          }
        }
      }
    }
  }
}
