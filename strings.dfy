/** The JavaScript string operations the application relies on: `trim`, `split(",")`,
    `join`, `includes` and the `s || fallback` idiom for empty strings. Characters are
    Unicode scalar values; the source's strings are UTF-16, which only matters for
    characters outside the Basic Multilingual Plane (see README). */
module JsStrings {

  /** ECMAScript WhiteSpace and LineTerminator code points, the set `trim` removes. */
  predicate IsWhitespace(c: char) {
    var n := c as int;
    n == 0x09 || n == 0x0A || n == 0x0B || n == 0x0C || n == 0x0D || n == 0x20
    || n == 0xA0 || n == 0x1680 || (0x2000 <= n <= 0x200A) || n == 0x2028 || n == 0x2029
    || n == 0x202F || n == 0x205F || n == 0x3000 || n == 0xFEFF
  }

  /** No whitespace at either end: what `trim` returns. */
  predicate IsTrimmed(s: string) {
    s == [] || (!IsWhitespace(s[0]) && !IsWhitespace(s[|s| - 1]))
  }

  predicate AllWhitespace(s: string) {
    forall k :: 0 <= k < |s| ==> IsWhitespace(s[k])
  }

  /** `s.trimStart()`: the suffix left after dropping leading whitespace. */
  function TrimStart(s: string): (r: string)
    ensures |r| <= |s|
    ensures r == [] || !IsWhitespace(r[0])
  {
    if s != [] && IsWhitespace(s[0]) then TrimStart(s[1..]) else s
  }

  /** What `trimStart` drops is a whitespace prefix. */
  lemma {:induction false} TrimStartDrops(s: string)
    ensures TrimStart(s) == s[|s| - |TrimStart(s)|..]
    ensures AllWhitespace(s[..|s| - |TrimStart(s)|])
  {
    if s != [] && IsWhitespace(s[0]) {
      TrimStartDrops(s[1..]);
      var k := |s| - |TrimStart(s)|;
      assert s[1..][k - 1..] == s[k..];
      forall i | 0 <= i < k
        ensures IsWhitespace(s[..k][i])
      {
        if i > 0 {
          assert s[..k][i] == s[1..][..k - 1][i - 1];
        }
      }
    }
  }

  /** `s.trimEnd()`: the prefix left after dropping trailing whitespace. */
  function TrimEnd(s: string): (r: string)
    ensures |r| <= |s|
    ensures r != [] ==> r[0] == s[0]
    ensures r == [] || !IsWhitespace(r[|r| - 1])
  {
    if s != [] && IsWhitespace(s[|s| - 1]) then TrimEnd(s[..|s| - 1]) else s
  }

  /** What `trimEnd` drops is a whitespace suffix. */
  lemma {:induction false} TrimEndDrops(s: string)
    ensures TrimEnd(s) == s[..|TrimEnd(s)|]
    ensures AllWhitespace(s[|TrimEnd(s)|..])
  {
    if s != [] && IsWhitespace(s[|s| - 1]) {
      var p := s[..|s| - 1];
      TrimEndDrops(p);
      var k := |TrimEnd(s)|;
      assert p[..k] == s[..k];
      forall i | 0 <= i < |s| - k
        ensures IsWhitespace(s[k..][i])
      {
        if k + i < |s| - 1 {
          assert s[k..][i] == p[k..][i];
        }
      }
    }
  }

  /** `s.trim()`. */
  function Trim(s: string): (r: string)
    ensures |r| <= |s|
    ensures IsTrimmed(r)
  {
    TrimEnd(TrimStart(s))
  }

  /** Trimming a string that is already trimmed changes nothing. */
  lemma TrimOfTrimmed(s: string)
    requires IsTrimmed(s)
    ensures Trim(s) == s
  {
  }

  /** `trim` is idempotent. */
  lemma TrimIdempotent(s: string)
    ensures Trim(Trim(s)) == Trim(s)
  {
    TrimOfTrimmed(Trim(s));
  }

  /** `trim` removes exactly the whitespace padding around a trimmed core. */
  lemma {:induction false} TrimPadded(pre: string, core: string, post: string)
    requires AllWhitespace(pre) && AllWhitespace(post) && IsTrimmed(core)
    ensures Trim(pre + core + post) == core
  {
    if core == [] {
      assert pre + core + post == pre + post;
      assert AllWhitespace(pre + post);
      TrimEmptyIff(pre + post);
    } else {
      assert pre + core + post == pre + (core + post);
      TrimStartPadded(pre, core + post);
      TrimEndPadded(core, post);
    }
  }

  lemma {:induction false} TrimStartPadded(pre: string, rest: string)
    requires AllWhitespace(pre)
    requires rest == [] || !IsWhitespace(rest[0])
    ensures TrimStart(pre + rest) == rest
  {
    if pre != [] {
      assert (pre + rest)[1..] == pre[1..] + rest;
      TrimStartPadded(pre[1..], rest);
    }
  }

  lemma {:induction false} TrimEndPadded(core: string, post: string)
    requires AllWhitespace(post)
    requires core == [] || !IsWhitespace(core[|core| - 1])
    ensures TrimEnd(core + post) == core
  {
    if post != [] {
      assert (core + post)[..|core + post| - 1] == core + post[..|post| - 1];
      TrimEndPadded(core, post[..|post| - 1]);
    }
  }

  /** A string trims to "" exactly when it is all whitespace. */
  lemma TrimEmptyIff(s: string)
    ensures Trim(s) == [] <==> AllWhitespace(s)
  {
    var t := TrimStart(s);
    var k := |s| - |t|;
    TrimStartDrops(s);
    TrimEndDrops(t);
    if AllWhitespace(s) {
      AllWhitespaceSuffix(s, k);
    }
    if Trim(s) == [] {
      assert t[0..] == t;
      AllWhitespaceAppend(s[..k], t);
      assert s[..k] + t == s;
    }
  }

  lemma AllWhitespaceSuffix(s: string, k: nat)
    requires k <= |s| && AllWhitespace(s)
    ensures AllWhitespace(s[k..])
  {
    forall i | 0 <= i < |s[k..]|
      ensures IsWhitespace(s[k..][i])
    {
      assert s[k..][i] == s[k + i];
    }
  }

  lemma AllWhitespaceAppend(a: string, b: string)
    requires AllWhitespace(a) && AllWhitespace(b)
    ensures AllWhitespace(a + b)
  {
    forall i | 0 <= i < |a + b|
      ensures IsWhitespace((a + b)[i])
    {
      if i < |a| {
        assert (a + b)[i] == a[i];
      } else {
        assert (a + b)[i] == b[i - |a|];
      }
    }
  }

  /** `s || fallback` for a string: the fallback replaces only the empty string. */
  function OrElse(s: string, fallback: string): string {
    if s != [] then s else fallback
  }

  /** `Boolean` as a filter over strings: only the empty string is falsy. */
  function IsNonEmpty(s: string): bool {
    s != ""
  }

  /** How many commas `s` contains. */
  function Commas(s: string): nat {
    if s == [] then 0 else (if s[0] == ',' then 1 else 0) + Commas(s[1..])
  }

  /** `s.split(",")`: the pieces between commas, empty pieces included; never empty. */
  function Split(s: string): (r: seq<string>)
    ensures |r| == Commas(s) + 1
    ensures forall i :: 0 <= i < |r| ==> ',' !in r[i]
  {
    if s == [] then [[]]
    else
      var rest := Split(s[1..]);
      if s[0] == ',' then [[]] + rest else [[s[0]] + rest[0]] + rest[1..]
  }

  /** `xs.join(sep)`. */
  function Join(xs: seq<string>, sep: string): string {
    if |xs| == 0 then []
    else if |xs| == 1 then xs[0]
    else xs[0] + sep + Join(xs[1..], sep)
  }

  /** Joining the pieces with "," rebuilds the string that was split. */
  lemma {:induction false} JoinSplit(s: string)
    ensures Join(Split(s), ",") == s
  {
    if s != [] {
      JoinSplit(s[1..]);
      var rest := Split(s[1..]);
      if s[0] != ',' && |rest| > 1 {
        assert Join(rest, ",") == rest[0] + "," + Join(rest[1..], ",");
        assert ([[s[0]] + rest[0]] + rest[1..])[1..] == rest[1..];
      }
    }
  }

  /** Splitting a comma-free piece followed by a comma peels that piece off. */
  lemma {:induction false} SplitPiece(a: string, t: string)
    requires ',' !in a
    ensures Split(a + "," + t) == [a] + Split(t)
  {
    if a != [] {
      assert (a + "," + t)[1..] == a[1..] + "," + t;
      assert (a + "," + t)[0] == a[0];
      SplitPiece(a[1..], t);
      assert [a[0]] + a[1..] == a;
    } else {
      assert a + "," + t == [','] + t;
    }
  }

  lemma {:induction false} SplitCommaFree(a: string)
    requires ',' !in a
    ensures Split(a) == [a]
  {
    if a != [] {
      SplitCommaFree(a[1..]);
      assert [a[0]] + a[1..] == a;
    }
  }

  /** A string ending in a comma splits into at least two pieces, the last one empty. */
  lemma {:induction false} SplitTrailingComma(s: string)
    ensures |Split(s + ",")| >= 2
    ensures Split(s + ",")[|Split(s + ",")| - 1] == ""
  {
    if s == [] {
      assert s + "," == [','];
      assert [','][1..] == [];
    } else {
      assert (s + ",")[1..] == s[1..] + ",";
      assert (s + ",")[0] == s[0];
      SplitTrailingComma(s[1..]);
    }
  }

  /** Splitting on "," undoes joining comma-free pieces with ",". */
  lemma {:induction false} SplitJoin(xs: seq<string>)
    requires |xs| >= 1
    requires forall i :: 0 <= i < |xs| ==> ',' !in xs[i]
    ensures Split(Join(xs, ",")) == xs
  {
    if |xs| == 1 {
      SplitCommaFree(xs[0]);
    } else {
      SplitJoin(xs[1..]);
      SplitPiece(xs[0], Join(xs[1..], ","));
    }
  }

  /** `s.startsWith(t)`. */
  predicate IsPrefix(t: string, s: string) {
    |t| <= |s| && s[..|t|] == t
  }

  /** `s.includes(t)`: `t` occurs in `s` as a contiguous piece. */
  predicate Includes(s: string, t: string) {
    IsPrefix(t, s) || (s != [] && Includes(s[1..], t))
  }

  lemma {:induction false} IncludesInRight(a: string, b: string, t: string)
    requires Includes(b, t)
    ensures Includes(a + b, t)
  {
    if a != [] {
      assert (a + b)[1..] == a[1..] + b;
      IncludesInRight(a[1..], b, t);
    } else {
      assert a + b == b;
    }
  }

  lemma {:induction false} IncludesInLeft(a: string, b: string, t: string)
    requires Includes(a, t)
    ensures Includes(a + b, t)
  {
    if IsPrefix(t, a) {
      assert (a + b)[..|t|] == a[..|t|];
    } else {
      assert (a + b)[1..] == a[1..] + b;
      IncludesInLeft(a[1..], b, t);
    }
  }

  /** An occurrence of an occurrence is an occurrence. */
  lemma {:induction false} IncludesTransitive(s: string, t: string, u: string)
    requires Includes(s, t) && Includes(t, u)
    ensures Includes(s, u)
  {
    if IsPrefix(t, s) {
      assert s == t + s[|t|..];
      IncludesInLeft(t, s[|t|..], u);
    } else {
      IncludesTransitive(s[1..], t, u);
    }
  }

  /** A string occurs in any concatenation that contains it as a part. */
  lemma IncludesInMiddle(a: string, t: string, b: string)
    ensures Includes(a + t + b, t)
  {
    assert IsPrefix(t, t + b);
    IncludesInRight(a, t + b, t);
    assert a + t + b == a + (t + b);
  }

  /** Every element of a joined list occurs in the joined string. */
  lemma {:induction false} JoinIncludes(xs: seq<string>, sep: string, i: nat)
    requires i < |xs|
    ensures Includes(Join(xs, sep), xs[i])
  {
    if |xs| == 1 {
      IncludesInMiddle([], xs[0], []);
      assert [] + xs[0] + [] == xs[0];
    } else if i == 0 {
      IncludesInMiddle([], xs[0], sep + Join(xs[1..], sep));
      assert [] + xs[0] + (sep + Join(xs[1..], sep)) == Join(xs, sep);
    } else {
      JoinIncludes(xs[1..], sep, i - 1);
      IncludesInRight(xs[0] + sep, Join(xs[1..], sep), xs[i]);
    }
  }
}
