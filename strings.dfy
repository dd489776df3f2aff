/**
 * The Python string primitives the core relies on: `str.isspace` (which is
 * also the class `\s` of the `re` module for str patterns), `str.strip`,
 * `sep.join(...)` and `str.replace`.
 */
module Strings {

  /** Python's whitespace test (Py_UNICODE_ISSPACE), written out code point by code point. */
  predicate IsSpace(c: char) {
    var n := c as int;
    (0x09 <= n <= 0x0D) || (0x1C <= n <= 0x20) || n == 0x85 || n == 0xA0 ||
    n == 0x1680 || (0x2000 <= n <= 0x200A) || n == 0x2028 || n == 0x2029 ||
    n == 0x202F || n == 0x205F || n == 0x3000
  }

  predicate AllSpace(s: string) {
    forall i :: 0 <= i < |s| ==> IsSpace(s[i])
  }

  /** `s.lstrip()`: drops the leading whitespace. */
  function TrimStart(s: string): (r: string)
    ensures |r| <= |s|
    decreases |s|
  {
    if s != [] && IsSpace(s[0]) then TrimStart(s[1..]) else s
  }

  /** `s.rstrip()`: drops the trailing whitespace. */
  function TrimEnd(s: string): (r: string)
    ensures |r| <= |s|
    decreases |s|
  {
    if s != [] && IsSpace(s[|s| - 1]) then TrimEnd(s[..|s| - 1]) else s
  }

  /** `s.lstrip()` removes exactly the maximal whitespace prefix. */
  lemma {:induction false} TrimStartSpec(s: string)
    ensures var r := TrimStart(s);
      && r == s[|s| - |r|..]
      && AllSpace(s[..|s| - |r|])
      && (r == [] || !IsSpace(r[0]))
    decreases |s|
  {
    if s != [] && IsSpace(s[0]) {
      var r := TrimStart(s[1..]);
      TrimStartSpec(s[1..]);
      assert s[1..][|s| - 1 - |r|..] == s[|s| - |r|..];
      assert s[..|s| - |r|] == [s[0]] + s[1..][..|s| - 1 - |r|];
    }
  }

  /** `s.rstrip()` removes exactly the maximal whitespace suffix. */
  lemma {:induction false} TrimEndSpec(s: string)
    ensures var r := TrimEnd(s);
      && r == s[..|r|]
      && AllSpace(s[|r|..])
      && (r == [] || !IsSpace(r[|r| - 1]))
    decreases |s|
  {
    if s != [] && IsSpace(s[|s| - 1]) {
      var r := TrimEnd(s[..|s| - 1]);
      TrimEndSpec(s[..|s| - 1]);
      assert s[..|s| - 1][..|r|] == s[..|r|];
      assert s[|r|..] == s[..|s| - 1][|r|..] + [s[|s| - 1]];
    }
  }

  /** `s.strip()`. */
  function Strip(s: string): (r: string)
    ensures |r| <= |s|
  {
    TrimEnd(TrimStart(s))
  }

  /** A string strips to the empty string exactly when it is all whitespace. */
  lemma StripEmptyIffBlank(s: string)
    ensures Strip(s) == [] <==> AllSpace(s)
  {
    var t := TrimStart(s);
    TrimStartSpec(s);
    TrimEndSpec(t);
    if t == [] {
      assert s[..|s|] == s;
    } else {
      assert t[0] == s[|s| - |t|];
      assert t[0..] == t;
    }
  }

  /** The result of `s.strip()` neither starts nor ends with whitespace. */
  lemma StripEnds(s: string)
    ensures var r := Strip(s); r == [] || (!IsSpace(r[0]) && !IsSpace(r[|r| - 1]))
  {
    var t := TrimStart(s);
    var r := TrimEnd(t);
    TrimStartSpec(s);
    TrimEndSpec(t);
    if r != [] {
      assert r[0] == t[0];
    }
  }

  /**
   * `s.strip()` cuts `s` into a whitespace prefix, the result and a whitespace
   * suffix, and the result neither starts nor ends with whitespace.
   */
  lemma StripShape(s: string)
    ensures var r := Strip(s);
      var k := |s| - |TrimStart(s)|;
      && k + |r| <= |s|
      && s == s[..k] + r + s[k + |r|..]
      && AllSpace(s[..k]) && AllSpace(s[k + |r|..])
      && (r == [] || (!IsSpace(r[0]) && !IsSpace(r[|r| - 1])))
  {
    StripSlices(s);
    StripEnds(s);
    TrimStartSpec(s);
    TrimEndSpec(TrimStart(s));
  }

  lemma StripSlices(s: string)
    ensures var t := TrimStart(s);
      var r := TrimEnd(t);
      var k := |s| - |t|;
      && r == s[k..k + |r|] && t[|r|..] == s[k + |r|..]
      && s == s[..k] + r + s[k + |r|..]
  {
    var t := TrimStart(s);
    var r := TrimEnd(t);
    var k := |s| - |t|;
    TrimStartSpec(s);
    TrimEndSpec(t);
    assert r == t[..|r|];
    assert r == s[k..k + |r|] && t[|r|..] == s[k + |r|..] by {
      assert t == s[k..];
    }
    SplitAt3(s, k, k + |r|);
  }

  /** Associativity of sequence concatenation, stated for explicit use. */
  lemma AppendAssoc<T>(a: seq<T>, b: seq<T>, c: seq<T>)
    ensures a + (b + c) == a + b + c
  {
  }

  lemma SplitAt3(s: string, k: int, m: int)
    requires 0 <= k <= m <= |s|
    ensures s == s[..k] + s[k..m] + s[m..]
  {
  }

  /** The non-whitespace characters of `s`, in order. */
  function NonSpace(s: string): string
    decreases |s|
  {
    if s == [] then [] else (if IsSpace(s[0]) then [] else [s[0]]) + NonSpace(s[1..])
  }

  lemma {:induction false} NonSpaceAppend(a: string, b: string)
    ensures NonSpace(a + b) == NonSpace(a) + NonSpace(b)
    decreases |a|
  {
    if a == [] {
      assert a + b == b;
    } else {
      assert (a + b)[0] == a[0] && (a + b)[1..] == a[1..] + b;
      NonSpaceAppend(a[1..], b);
    }
  }

  /** `s.lstrip()` loses no non-whitespace character. */
  lemma {:induction false} NonSpaceTrimStart(s: string)
    ensures NonSpace(TrimStart(s)) == NonSpace(s)
    decreases |s|
  {
    if s != [] && IsSpace(s[0]) {
      NonSpaceTrimStart(s[1..]);
    }
  }

  /** `sep.join(xs)`. */
  function Join(sep: string, xs: seq<string>): string
    decreases |xs|
  {
    if xs == [] then []
    else if |xs| == 1 then xs[0]
    else xs[0] + sep + Join(sep, xs[1..])
  }

  /** The concatenation of all strings in `xs`, without separators. */
  function Concat(xs: seq<string>): string
    decreases |xs|
  {
    if xs == [] then [] else xs[0] + Concat(xs[1..])
  }

  function SumLengths(xs: seq<string>): nat
    decreases |xs|
  {
    if xs == [] then 0 else |xs[0]| + SumLengths(xs[1..])
  }

  /** Joining k >= 1 strings inserts exactly k - 1 separators and nothing else. */
  lemma {:induction false} JoinLength(sep: string, xs: seq<string>)
    requires xs != []
    ensures |Join(sep, xs)| == SumLengths(xs) + (|xs| - 1) * |sep|
    decreases |xs|
  {
    if |xs| > 1 {
      JoinLength(sep, xs[1..]);
      assert SumLengths(xs) == |xs[0]| + SumLengths(xs[1..]);
      assert (|xs| - 1) * |sep| == (|xs| - 2) * |sep| + |sep|;
    } else {
      assert SumLengths(xs[1..]) == 0;
    }
  }

  /** `s[i:i+len(p)] == p`. */
  predicate OccursAt(s: string, p: string, i: int) {
    0 <= i && i + |p| <= |s| && s[i..i + |p|] == p
  }

  /** `p in s`. */
  predicate Contains(s: string, p: string) {
    exists i :: 0 <= i <= |s| && OccursAt(s, p, i)
  }

  /**
   * `s.replace(p, q)` for a non-empty `p`: scanning left to right, every
   * non-overlapping occurrence of `p` becomes `q`.
   */
  function Replace(s: string, p: string, q: string): string
    requires p != []
    decreases |s|
  {
    if |s| < |p| then s
    else if s[..|p|] == p then q + Replace(s[|p|..], p, q)
    else [s[0]] + Replace(s[1..], p, q)
  }

  /** Replacing a pattern by itself changes nothing. */
  lemma {:induction false} ReplaceBySelf(s: string, p: string)
    requires p != []
    ensures Replace(s, p, p) == s
    decreases |s|
  {
    if |s| < |p| {
    } else if s[..|p|] == p {
      ReplaceBySelf(s[|p|..], p);
      assert s == s[..|p|] + s[|p|..];
    } else {
      ReplaceBySelf(s[1..], p);
      assert s == [s[0]] + s[1..];
    }
  }

  /** An occurrence in `s[m..]` is an occurrence in `s`, `m` positions later. */
  lemma OccursAtSuffix(s: string, p: string, m: int, j: int)
    requires 0 <= m <= |s| && j >= 0
    ensures OccursAt(s[m..], p, j) <==> OccursAt(s, p, m + j)
  {
    if j + |p| <= |s| - m {
      assert s[m..][j..j + |p|] == s[m + j..m + j + |p|];
    }
  }

  lemma OccursAtTail(s: string, p: string, j: int)
    requires s != [] && j >= 0
    ensures OccursAt(s[1..], p, j) <==> OccursAt(s, p, j + 1)
  {
    OccursAtSuffix(s, p, 1, j);
  }

  /** Where no occurrence starts at position 0, the first character is copied. */
  lemma ReplaceCopiesHead(s: string, p: string, q: string)
    requires p != [] && s != [] && !OccursAt(s, p, 0)
    ensures Replace(s, p, q) == [s[0]] + Replace(s[1..], p, q)
  {
    if |s| < |p| {
      assert !Contains(s[1..], p);
      ReplaceAbsent(s[1..], p, q);
      assert s == [s[0]] + s[1..];
    }
  }

  /** A text without the pattern is returned unchanged. */
  lemma {:induction false} ReplaceAbsent(s: string, p: string, q: string)
    requires p != [] && !Contains(s, p)
    ensures Replace(s, p, q) == s
    decreases |s|
  {
    if |s| >= |p| {
      assert !OccursAt(s, p, 0);
      if Contains(s[1..], p) {
        var i :| 0 <= i <= |s[1..]| && OccursAt(s[1..], p, i);
        OccursAtTail(s, p, i);
        assert OccursAt(s, p, i + 1);
      }
      ReplaceAbsent(s[1..], p, q);
      assert s == [s[0]] + s[1..];
    }
  }

  /** A prefix in which no occurrence starts is copied verbatim. */
  lemma {:induction false} ReplaceCopiesPrefix(x: string, y: string, p: string, q: string)
    requires p != []
    requires forall j :: 0 <= j < |x| ==> !OccursAt(x + y, p, j)
    ensures Replace(x + y, p, q) == x + Replace(y, p, q)
    decreases |x|
  {
    if x == [] {
      assert x + y == y;
    } else {
      var s := x + y;
      assert s[1..] == x[1..] + y;
      assert !OccursAt(s, p, 0);
      ReplaceCopiesHead(s, p, q);
      forall j | 0 <= j < |x| - 1 ensures !OccursAt(x[1..] + y, p, j) {
        OccursAtTail(s, p, j);
      }
      ReplaceCopiesPrefix(x[1..], y, p, q);
      assert x == [x[0]] + x[1..];
    }
  }

  /**
   * Left-to-right, non-overlapping: the first occurrence of `p` is replaced,
   * the text before it is kept verbatim, and the scan resumes right after it.
   */
  lemma ReplaceAtFirst(s: string, p: string, q: string, i: nat)
    requires p != [] && OccursAt(s, p, i)
    requires forall j :: 0 <= j < i ==> !OccursAt(s, p, j)
    ensures Replace(s, p, q) == s[..i] + q + Replace(s[i + |p|..], p, q)
  {
    var x, y := s[..i], s[i..];
    var rest := Replace(s[i + |p|..], p, q);
    assert s == x + y;
    assert Replace(s, p, q) == x + Replace(y, p, q) by {
      forall j | 0 <= j < |x| ensures !OccursAt(x + y, p, j) {
        assert !OccursAt(s, p, j);
      }
      ReplaceCopiesPrefix(x, y, p, q);
    }
    assert Replace(y, p, q) == q + rest by {
      assert y[..|p|] == p && y[|p|..] == s[i + |p|..];
    }
    AppendAssoc(x, q, rest);
  }
}
