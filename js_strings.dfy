/**
  The few JavaScript string operations the chat code relies on.

  A JavaScript string is a sequence of UTF-16 code units; here it is a Dafny
  `string` with one `char` per code unit, so comparing two chars by their
  ordinal is exactly how `Array.prototype.sort()` (with no comparator)
  compares two strings.
*/
module JsStrings {
  import opened Wrappers

  /** A string used as a condition (`if (s)`, `!s`): truthy when present and non-empty. */
  predicate Truthy(s: Option<string>) {
    s.Some? && s.value != ""
  }

  // ----- Default sort order -----

  /** `a < b` in the code-unit order of the default `sort()`. */
  predicate Less(a: string, b: string)
    decreases |a|
  {
    if b == [] then false
    else if a == [] then true
    else if a[0] != b[0] then a[0] < b[0]
    else Less(a[1..], b[1..])
  }

  lemma {:induction false} LessAsymmetric(a: string, b: string)
    requires Less(a, b)
    ensures !Less(b, a)
    decreases |a|
  {
    if a != [] && b != [] && a[0] == b[0] {
      LessAsymmetric(a[1..], b[1..]);
    }
  }

  lemma {:induction false} LessTotal(a: string, b: string)
    requires a != b
    ensures Less(a, b) || Less(b, a)
    decreases |a|
  {
    if a != [] && b != [] && a[0] == b[0] {
      assert a == [a[0]] + a[1..] && b == [b[0]] + b[1..];
      LessTotal(a[1..], b[1..]);
    }
  }

  /** `[a, b].sort()`: the same two strings, in ascending order. */
  function SortPair(a: string, b: string): (r: (string, string))
    ensures r == (a, b) || r == (b, a)
    ensures !Less(r.1, r.0)
  {
    if Less(b, a) then
      LessAsymmetric(b, a);
      (b, a)
    else
      (a, b)
  }

  /** Sorting does not depend on the order the two strings were given in. */
  lemma SortPairSymmetric(a: string, b: string)
    ensures SortPair(a, b) == SortPair(b, a)
  {
    if a != b {
      LessTotal(a, b);
      if Less(a, b) {
        LessAsymmetric(a, b);
      }
    }
  }

  // ----- split -----

  /** `s.split(d)[0]`: the part of `s` before its first `d`, or all of `s`. */
  function SplitHead(s: string, d: char): (r: string)
    ensures r <= s
    ensures d !in r
    ensures |r| < |s| ==> s[|r|] == d
    decreases |s|
  {
    if s == [] then []
    else if s[0] == d then []
    else [s[0]] + SplitHead(s[1..], d)
  }

  /** Splitting `u + d + x` at `d` gives back `u` exactly when `u` itself holds no `d`. */
  lemma SplitHeadOfJoined(u: string, d: char, x: string)
    ensures SplitHead(u + [d] + x, d) == u <==> d !in u
  {
    var s := u + [d] + x;
    var r := SplitHead(s, d);
    if d !in u {
      assert forall i :: 0 <= i < |u| ==> s[i] == u[i];
      assert forall i :: 0 <= i < |r| ==> r[i] == s[i];
      assert s[|u|] == d;
      assert r == s[..|r|] == u;
    }
  }

  // ----- trim -----

  /** The characters `String.prototype.trim()` removes: white space and line terminators. */
  predicate IsWhiteSpace(c: char) {
    || c == '\t' || c == '\n' || c == '\U{000B}' || c == '\U{000C}' || c == '\r'
    || c == ' ' || c == '\U{00A0}' || c == '\U{1680}'
    || ('\U{2000}' <= c <= '\U{200A}')
    || c == '\U{2028}' || c == '\U{2029}' || c == '\U{202F}' || c == '\U{205F}'
    || c == '\U{3000}' || c == '\U{FEFF}'
  }

  predicate AllWhiteSpace(s: string) {
    forall i :: 0 <= i < |s| ==> IsWhiteSpace(s[i])
  }

  /** `s` without its leading white space. */
  function TrimStart(s: string): (r: string)
    ensures |r| <= |s| && r == s[|s| - |r|..]
    ensures AllWhiteSpace(s[..|s| - |r|])
    ensures r != [] ==> !IsWhiteSpace(r[0])
    decreases |s|
  {
    if s != [] && IsWhiteSpace(s[0]) then TrimStart(s[1..]) else s
  }

  /** `s` without its trailing white space. */
  function TrimEnd(s: string): (r: string)
    ensures |r| <= |s| && r == s[..|r|]
    ensures AllWhiteSpace(s[|r|..])
    ensures r != [] ==> !IsWhiteSpace(r[|r| - 1])
    decreases |s|
  {
    if s != [] && IsWhiteSpace(s[|s| - 1]) then
      var r := TrimEnd(s[..|s| - 1]);
      assert s[|r|..] == s[..|s| - 1][|r|..] + [s[|s| - 1]];
      r
    else
      s
  }

  /** `s.trim()`. */
  function Trim(s: string): (r: string)
    ensures r == [] || (!IsWhiteSpace(r[0]) && !IsWhiteSpace(r[|r| - 1]))
    ensures exists k :: 0 <= k <= |s| - |r| && AllWhiteSpace(s[..k]) && r == s[k..k + |r|]
                        && AllWhiteSpace(s[k + |r|..])
  {
    var t := TrimStart(s);
    var r := TrimEnd(t);
    var k := |s| - |t|;
    assert t == s[k..];
    assert r == s[k..k + |r|];
    assert s[k + |r|..] == t[|r|..];
    r
  }

  /** `s.trim()` is the empty (falsy) string exactly when `s` is all white space. */
  lemma TrimEmptyIff(s: string)
    ensures Trim(s) == [] <==> AllWhiteSpace(s)
  {
    var t := TrimStart(s);
    assert t != [] ==> t[0] == s[|s| - |t|];
    assert TrimEnd(t) == [] ==> t == [] by {
      assert t[0..] == t;
    }
    assert t == [] ==> s[..|s| - |t|] == s;
  }
}
