/** The three JavaScript string operations the submit handler applies to its
    input and output: String.prototype.trim, String.prototype.toLowerCase and
    String.prototype.replaceAll("_", " "). Strings are sequences of code points. */
module Text {

  /** White space and line terminators as `trim` removes them: the WhiteSpace
      and LineTerminator code points of ECMAScript (sections 12.2 and 12.3 of
      ECMA-262), the space separators of Unicode included. */
  predicate IsSpace(c: char) {
    c == '\t' || c == '\n' || c == '\U{000B}' || c == '\U{000C}' || c == '\r' || c == ' '
    || c == '\U{00A0}' || c == '\U{1680}' || '\U{2000}' <= c <= '\U{200A}'
    || c == '\U{2028}' || c == '\U{2029}' || c == '\U{202F}' || c == '\U{205F}'
    || c == '\U{3000}' || c == '\U{FEFF}'
  }

  predicate AllSpace(s: string) {
    forall i :: 0 <= i < |s| ==> IsSpace(s[i])
  }

  /** A string with no white space at either end: what `trim` returns. */
  predicate Clean(s: string) {
    s == [] || (!IsSpace(s[0]) && !IsSpace(s[|s| - 1]))
  }

  /** Drops the leading white space (TrimStartShape says what is left). */
  function TrimStart(s: string): string {
    if s != [] && IsSpace(s[0]) then TrimStart(s[1..]) else s
  }

  /** Drops the trailing white space (TrimEndShape says what is left). */
  function TrimEnd(s: string): string {
    if s != [] && IsSpace(s[|s| - 1]) then TrimEnd(s[..|s| - 1]) else s
  }

  /** `s.trim()` (TrimShape says what it returns). */
  function Trim(s: string): string {
    TrimEnd(TrimStart(s))
  }

  lemma AllSpaceConcat(a: string, b: string)
    ensures AllSpace(a + b) <==> AllSpace(a) && AllSpace(b)
  {
    if AllSpace(a) && AllSpace(b) {
      forall i | 0 <= i < |a + b| ensures IsSpace((a + b)[i]) {
        if i >= |a| {
          assert (a + b)[i] == b[i - |a|];
        }
      }
    }
    if AllSpace(a + b) {
      forall i | 0 <= i < |a| ensures IsSpace(a[i]) {
        assert (a + b)[i] == a[i];
      }
      forall i | 0 <= i < |b| ensures IsSpace(b[i]) {
        assert (a + b)[|a| + i] == b[i];
      }
    }
  }

  /** What TrimStart leaves is a suffix of `s`, not starting with white
      space, and what it drops is white space. */
  lemma {:induction false} TrimStartShape(s: string)
    ensures |TrimStart(s)| <= |s| && TrimStart(s) == s[|s| - |TrimStart(s)|..]
    ensures AllSpace(s[..|s| - |TrimStart(s)|])
    ensures TrimStart(s) == [] || !IsSpace(TrimStart(s)[0])
    decreases |s|
  {
    if s != [] && IsSpace(s[0]) {
      TrimStartShape(s[1..]);
      var k := |s| - |TrimStart(s)|;
      assert s[..k] == [s[0]] + s[1..][..k - 1];
    }
  }

  /** What TrimEnd leaves is a prefix of `s`, not ending with white space,
      and what it drops is white space. */
  lemma {:induction false} TrimEndShape(s: string)
    ensures |TrimEnd(s)| <= |s| && TrimEnd(s) == s[..|TrimEnd(s)|]
    ensures AllSpace(s[|TrimEnd(s)|..])
    ensures TrimEnd(s) == [] || !IsSpace(TrimEnd(s)[|TrimEnd(s)| - 1])
    decreases |s|
  {
    if s != [] && IsSpace(s[|s| - 1]) {
      TrimEndShape(s[..|s| - 1]);
      var k := |TrimEnd(s)|;
      assert s[k..] == s[..|s| - 1][k..] + [s[|s| - 1]];
    }
  }

  lemma TrimStartBlank(s: string)
    ensures AllSpace(TrimStart(s)) <==> AllSpace(s)
  {
    TrimStartShape(s);
    var t := TrimStart(s);
    assert s == s[..|s| - |t|] + t;
    AllSpaceConcat(s[..|s| - |t|], t);
  }

  lemma TrimEndBlank(t: string)
    ensures TrimEnd(t) == [] <==> AllSpace(t)
  {
    TrimEndShape(t);
    var r := TrimEnd(t);
    assert t == r + t[|r|..];
    AllSpaceConcat(r, t[|r|..]);
    if r != [] {
      assert !IsSpace(r[|r| - 1]);
    }
  }

  /** `trim` returns a string no longer than its input and never padded,
      and it returns the empty string exactly for a blank input. */
  lemma TrimShape(s: string)
    ensures |Trim(s)| <= |s|
    ensures Trim(s) == [] <==> AllSpace(s)
    ensures Clean(Trim(s))
  {
    TrimStartBlank(s);
    TrimEndBlank(TrimStart(s));
    TrimStartShape(s);
    TrimEndShape(TrimStart(s));
    var t := TrimStart(s);
    var r := TrimEnd(t);
    assert |r| <= |s|;
    if r != [] {
      assert r[0] == t[0];
    }
  }

  /** `toLowerCase` on one code point, for the capitals of Basic Latin,
      Latin-1 and Cyrillic; every other code point is left as it is. */
  function LowerChar(c: char): char {
    if 'A' <= c <= 'Z' || ('\U{00C0}' <= c <= '\U{00DE}' && c != '\U{00D7}') || '\U{0410}' <= c <= '\U{042F}' then
      (c as int + 32) as char
    else if '\U{0400}' <= c <= '\U{040F}' then
      (c as int + 80) as char
    else
      c
  }

  /** `s.toLowerCase()`, code point by code point (LowerPointwise). */
  function Lower(s: string): string {
    if s == [] then [] else [LowerChar(s[0])] + Lower(s[1..])
  }

  /** `s.replaceAll("_", " ")` (UnderscoresReplaced says what it returns). */
  function UnderscoresToSpaces(s: string): string {
    if s == [] then [] else [if s[0] == '_' then ' ' else s[0]] + UnderscoresToSpaces(s[1..])
  }

  // ---------------------------------------------------------------- lemmas

  /** `replaceAll("_", " ")` keeps the length, leaves no underscore, turns
      each underscore into a space and keeps every other code point. */
  lemma {:induction false} UnderscoresReplaced(s: string)
    ensures |UnderscoresToSpaces(s)| == |s|
    ensures forall i :: 0 <= i < |s| ==>
      UnderscoresToSpaces(s)[i] == if s[i] == '_' then ' ' else s[i]
    ensures '_' !in UnderscoresToSpaces(s)
    decreases |s|
  {
    if s != [] {
      UnderscoresReplaced(s[1..]);
      var r := UnderscoresToSpaces(s);
      forall i | 0 <= i < |s| ensures r[i] == if s[i] == '_' then ' ' else s[i] {
        if i > 0 {
          assert r[i] == UnderscoresToSpaces(s[1..])[i - 1];
        }
      }
    }
  }

  /** `toLowerCase` maps each code point on its own and keeps the length. */
  lemma {:induction false} LowerPointwise(s: string)
    ensures |Lower(s)| == |s|
    ensures forall i :: 0 <= i < |s| ==> Lower(s)[i] == LowerChar(s[i])
    decreases |s|
  {
    if s != [] {
      LowerPointwise(s[1..]);
      forall i | 0 <= i < |s| ensures Lower(s)[i] == LowerChar(s[i]) {
        if i > 0 {
          assert Lower(s)[i] == Lower(s[1..])[i - 1];
        }
      }
    }
  }

  lemma LowerCharFacts(c: char)
    ensures LowerChar(LowerChar(c)) == LowerChar(c)
    ensures IsSpace(LowerChar(c)) == IsSpace(c)
  {
  }

  /** Lower-casing twice is lower-casing once. */
  lemma LowerIdempotent(s: string)
    ensures Lower(Lower(s)) == Lower(s)
  {
    LowerPointwise(s);
    LowerPointwise(Lower(s));
    forall i | 0 <= i < |s| ensures Lower(Lower(s))[i] == Lower(s)[i] {
      LowerCharFacts(s[i]);
    }
  }

  lemma {:induction false} TrimStartSkipsSpace(p: string, x: string)
    requires AllSpace(p)
    ensures TrimStart(p + x) == TrimStart(x)
    decreases |p|
  {
    if p != [] {
      assert (p + x)[0] == p[0] && IsSpace(p[0]);
      assert AllSpace(p[1..]);
      assert (p + x)[1..] == p[1..] + x;
      TrimStartSkipsSpace(p[1..], x);
    } else {
      assert p + x == x;
    }
  }

  lemma {:induction false} TrimStartKeepsTail(x: string, q: string)
    requires !AllSpace(x)
    ensures TrimStart(x + q) == TrimStart(x) + q
    decreases |x|
  {
    assert (x + q)[0] == x[0];
    if IsSpace(x[0]) {
      assert (x + q)[1..] == x[1..] + q;
      TrimStartKeepsTail(x[1..], q);
    }
  }

  lemma {:induction false} TrimEndSkipsSpace(x: string, q: string)
    requires AllSpace(q)
    ensures TrimEnd(x + q) == TrimEnd(x)
    decreases |q|
  {
    if q != [] {
      assert (x + q)[|x + q| - 1] == q[|q| - 1];
      assert (x + q)[..|x + q| - 1] == x + q[..|q| - 1];
      TrimEndSkipsSpace(x, q[..|q| - 1]);
    } else {
      assert x + q == x;
    }
  }

  /** White space around a string does not change what `trim` returns. */
  lemma TrimIgnoresPadding(p: string, s: string, q: string)
    requires AllSpace(p) && AllSpace(q)
    ensures Trim(p + s + q) == Trim(s)
  {
    assert p + s + q == p + (s + q);
    TrimStartSkipsSpace(p, s + q);
    if AllSpace(s) {
      AllSpaceConcat(s, q);
      TrimShape(s + q);
      TrimShape(s);
    } else {
      TrimStartKeepsTail(s, q);
      TrimEndSkipsSpace(TrimStart(s), q);
    }
  }

  /** `trim` returns a clean string as it is; with TrimIgnoresPadding this
      pins `trim` down: it strips exactly the white space at both ends. */
  lemma TrimOfClean(s: string)
    requires Clean(s)
    ensures Trim(s) == s
  {
  }

  lemma {:induction false} LowerTrimStart(s: string)
    ensures Lower(TrimStart(s)) == TrimStart(Lower(s))
    decreases |s|
  {
    if s != [] {
      LowerCharFacts(s[0]);
      assert Lower(s)[1..] == Lower(s[1..]);
      LowerTrimStart(s[1..]);
    }
  }

  lemma {:induction false} LowerTrimEnd(s: string)
    ensures Lower(TrimEnd(s)) == TrimEnd(Lower(s))
    decreases |s|
  {
    if s != [] {
      LowerCharFacts(s[|s| - 1]);
      LowerPointwise(s);
      LowerPointwise(s[..|s| - 1]);
      assert Lower(s)[..|s| - 1] == Lower(s[..|s| - 1]);
      LowerTrimEnd(s[..|s| - 1]);
    }
  }

  /** Lower-casing and trimming commute: lower-casing never turns a code
      point into white space or white space into something else. */
  lemma LowerTrim(s: string)
    ensures Lower(Trim(s)) == Trim(Lower(s))
  {
    LowerTrimStart(s);
    LowerTrimEnd(TrimStart(s));
  }
}
