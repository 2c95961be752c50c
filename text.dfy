/** String helpers shared by the parser, the analyzers and the agents: Python's whitespace
    class, lower-casing, substring tests, strip and split. */
module Text {

  /** Python's str.isspace (also what `\s` matches in a str regex): the Unicode characters of
      bidirectional class WS, B or S, or of category Zs. */
  predicate IsSpace(c: char)
  {
    ('\t' <= c <= '\r') || ('\U{1C}' <= c <= '\U{1F}') || c == ' ' || c == '\U{85}'
    || c == '\U{A0}' || c == '\U{1680}' || ('\U{2000}' <= c <= '\U{200A}') || c == '\U{2028}'
    || c == '\U{2029}' || c == '\U{202F}' || c == '\U{205F}' || c == '\U{3000}'
  }

  /** Lower-casing, restricted to ASCII letters. */
  function LowerChar(c: char): char
  {
    if 'A' <= c <= 'Z' then (c as int + 32) as char else c
  }

  function Lower(s: string): (r: string)
    ensures |r| == |s|
    ensures forall i :: 0 <= i < |s| ==> r[i] == LowerChar(s[i])
  {
    seq(|s|, i requires 0 <= i < |s| => LowerChar(s[i]))
  }

  predicate StartsWith(s: string, p: string)
  {
    |p| <= |s| && s[..|p|] == p
  }

  /** Python's `p in s` for strings. */
  predicate Contains(s: string, p: string)
    decreases |s|
  {
    StartsWith(s, p) || (|s| > 0 && Contains(s[1..], p))
  }

  lemma {:induction false} ContainsAppendRight(s: string, t: string, p: string)
    requires Contains(s, p)
    ensures Contains(s + t, p)
    decreases |s|
  {
    if StartsWith(s, p) {
      assert (s + t)[..|p|] == s[..|p|];
    } else {
      assert (s + t)[1..] == s[1..] + t;
      ContainsAppendRight(s[1..], t, p);
    }
  }

  lemma {:induction false} ContainsAppendLeft(s: string, t: string, p: string)
    requires Contains(t, p)
    ensures Contains(s + t, p)
    decreases |s|
  {
    if s == [] {
      assert s + t == t;
    } else {
      assert (s + t)[1..] == s[1..] + t;
      ContainsAppendLeft(s[1..], t, p);
    }
  }

  /** A phrase found in a text is still found once text is added on either side. */
  lemma ContainsAnyInContext(pre: string, t: string, post: string, ks: seq<string>)
    requires ContainsAny(t, ks)
    ensures ContainsAny(pre + t + post, ks)
  {
    var k :| k in ks && Contains(t, k);
    ContainsAppendLeft(pre, t, k);
    ContainsAppendRight(pre + t, post, k);
  }

  /** A substring test that holds of a slice holds of the whole string. */
  lemma ContainsSlice(s: string, a: nat, b: nat, p: string)
    requires a <= b <= |s| && Contains(s[a..b], p)
    ensures Contains(s, p)
  {
    ContainsAppendRight(s[a..b], s[b..], p);
    assert s[a..b] + s[b..] == s[a..];
    ContainsAppendLeft(s[..a], s[a..], p);
    assert s[..a] + s[a..] == s;
  }

  /** Python's `any(k in t for k in ks)`. */
  predicate ContainsAny(t: string, ks: seq<string>)
  {
    exists k :: k in ks && Contains(t, k)
  }

  /** Python's `sum(1 for k in ks if k in t)`: the number of list entries that occur in t. */
  function CountPresent(t: string, ks: seq<string>): (n: nat)
    ensures n <= |ks|
  {
    if ks == [] then 0 else (if Contains(t, ks[0]) then 1 else 0) + CountPresent(t, ks[1..])
  }

  predicate Distinct<T(==)>(xs: seq<T>)
  {
    forall i, j :: 0 <= i < j < |xs| ==> xs[i] != xs[j]
  }

  lemma DistinctCons<T>(x: T, rest: seq<T>)
    requires Distinct(rest) && x !in rest
    ensures Distinct([x] + rest)
  {
    var r := [x] + rest;
    forall a, b | 0 <= a < b < |r| ensures r[a] != r[b] {
      assert r[b] == rest[b - 1];
      if a > 0 {
        assert r[a] == rest[a - 1];
      }
    }
  }

  /** The count is positive exactly when some entry occurs. */
  lemma {:induction false} CountPresentPositive(t: string, ks: seq<string>)
    ensures CountPresent(t, ks) > 0 <==> ContainsAny(t, ks)
  {
    if ks != [] {
      CountPresentPositive(t, ks[1..]);
      if ContainsAny(t, ks[1..]) {
        var k :| k in ks[1..] && Contains(t, k);
        assert k in ks;
      }
      if ContainsAny(t, ks) && !Contains(t, ks[0]) {
        var k :| k in ks && Contains(t, k);
        assert k in ks[1..];
      }
    }
  }

  /** The distinct phrases of ks that occur in t. */
  function PresentSet(t: string, ks: seq<string>): set<string>
  {
    set k | k in ks && Contains(t, k)
  }

  /** For a list without repetitions the count is the number of distinct phrases present. */
  lemma {:induction false} CountPresentIsDistinctCount(t: string, ks: seq<string>)
    requires Distinct(ks)
    ensures CountPresent(t, ks) == |PresentSet(t, ks)|
  {
    if ks == [] {
      assert PresentSet(t, ks) == {};
    } else {
      var tail := ks[1..];
      assert Distinct(tail) by {
        forall i, j | 0 <= i < j < |tail| ensures tail[i] != tail[j] {
          assert tail[i] == ks[i + 1] && tail[j] == ks[j + 1];
        }
      }
      CountPresentIsDistinctCount(t, tail);
      assert ks[0] !in tail by {
        forall j | 0 <= j < |tail| ensures tail[j] != ks[0] {
          assert tail[j] == ks[j + 1];
        }
      }
      assert forall k :: k in ks <==> k == ks[0] || k in tail;
      if Contains(t, ks[0]) {
        assert PresentSet(t, ks) == PresentSet(t, tail) + {ks[0]};
      } else {
        assert PresentSet(t, ks) == PresentSet(t, tail);
      }
    }
  }

  /** Python's str.lstrip(). */
  function TrimStart(s: string): (r: string)
    ensures |r| <= |s| && r == s[|s| - |r|..]
    ensures r == [] || !IsSpace(r[0])
    ensures forall i :: 0 <= i < |s| - |r| ==> IsSpace(s[i])
    decreases |s|
  {
    if |s| > 0 && IsSpace(s[0]) then TrimStart(s[1..]) else s
  }

  /** Python's str.rstrip(). */
  function TrimEnd(s: string): (r: string)
    ensures |r| <= |s| && r == s[..|r|]
    ensures r == [] || !IsSpace(r[|r| - 1])
    ensures forall i :: |r| <= i < |s| ==> IsSpace(s[i])
    decreases |s|
  {
    if |s| > 0 && IsSpace(s[|s| - 1]) then TrimEnd(s[..|s| - 1]) else s
  }

  /** Python's str.strip(): the substring left after dropping leading and trailing whitespace. */
  function Strip(s: string): (r: string)
    ensures r == [] || (!IsSpace(r[0]) && !IsSpace(r[|r| - 1]))
    ensures |s| - |TrimStart(s)| + |r| <= |s|
    ensures r == s[|s| - |TrimStart(s)|..|s| - |TrimStart(s)| + |r|]
  {
    TrimEnd(TrimStart(s))
  }

  /** A string without leading or trailing whitespace is its own strip. */
  lemma StripIdentity(s: string)
    requires s == [] || (!IsSpace(s[0]) && !IsSpace(s[|s| - 1]))
    ensures Strip(s) == s
  {
  }

  /** The length of the leading run of non-whitespace characters. */
  function WordLength(t: string): (n: nat)
    ensures n <= |t|
    ensures forall i :: 0 <= i < n ==> !IsSpace(t[i])
    ensures n < |t| ==> IsSpace(t[n])
    decreases |t|
  {
    if t == [] || IsSpace(t[0]) then 0 else 1 + WordLength(t[1..])
  }

  /** Python's str.split() with no separator: the maximal runs of non-whitespace characters. */
  function Split(s: string): (words: seq<string>)
    ensures forall w :: w in words ==> w != [] && forall c :: c in w ==> !IsSpace(c)
    decreases |s|
  {
    var t := TrimStart(s);
    if t == [] then []
    else
      var n := WordLength(t);
      [t[..n]] + Split(t[n..])
  }

  /** Leading whitespace does not change the words. */
  lemma SplitTrim(s: string)
    ensures Split(s) == Split(TrimStart(s))
  {
    var t := TrimStart(s);
    assert TrimStart(t) == t;
  }

  /** The words of a string that starts with a non-whitespace character `a`: `a` is a word of
      its own when whitespace (or nothing) follows, and otherwise starts the first word. */
  lemma SplitCons(a: char, y: string)
    requires !IsSpace(a)
    ensures y == [] || IsSpace(y[0]) ==> Split([a] + y) == [[a]] + Split(y)
    ensures y != [] && !IsSpace(y[0]) ==>
              Split(y) != [] && Split([a] + y) == [[a] + Split(y)[0]] + Split(y)[1..]
  {
    var s := [a] + y;
    assert s[1..] == y;
    assert TrimStart(s) == s;
    assert WordLength(s) == 1 + WordLength(y);
    var n := WordLength(y);
    assert s[..1 + n] == [a] + y[..n];
    assert s[1 + n..] == y[n..];
    if y != [] && !IsSpace(y[0]) {
      assert TrimStart(y) == y;
    } else {
      assert n == 0 && y[0..] == y;
    }
  }

  /** Reference count of word starts: positions holding a non-whitespace character that is
      first in the string or follows whitespace. */
  function RunStarts(s: string, afterSpace: bool): nat
    decreases |s|
  {
    if s == [] then 0
    else (if afterSpace && !IsSpace(s[0]) then 1 else 0) + RunStarts(s[1..], IsSpace(s[0]))
  }

  function RunCount(s: string): nat
  {
    RunStarts(s, true)
  }

  lemma {:induction false} RunStartsSkipsSpace(s: string)
    ensures RunStarts(s, true) == RunStarts(TrimStart(s), true)
    decreases |s|
  {
    if |s| > 0 && IsSpace(s[0]) {
      RunStartsSkipsSpace(s[1..]);
    }
  }

  lemma {:induction false} RunStartsInWord(t: string)
    ensures RunStarts(t, false) == RunStarts(t[WordLength(t)..], true)
    decreases |t|
  {
    if t != [] && !IsSpace(t[0]) {
      RunStartsInWord(t[1..]);
      assert t[WordLength(t)..] == t[1..][WordLength(t[1..])..];
    }
  }

  /** The number of words str.split() yields is the number of maximal non-whitespace runs. */
  lemma {:induction false} SplitCountsRuns(s: string)
    ensures |Split(s)| == RunCount(s)
    decreases |s|
  {
    RunStartsSkipsSpace(s);
    var t := TrimStart(s);
    if t != [] {
      var n := WordLength(t);
      assert n == 1 + WordLength(t[1..]);
      RunStartsInWord(t[1..]);
      assert t[n..] == t[1..][WordLength(t[1..])..];
      assert RunStarts(t, true) == 1 + RunStarts(t[1..], false);
      SplitCountsRuns(t[n..]);
      assert Split(s) == [t[..n]] + Split(t[n..]);
    }
  }

  /** Python's `s.split(c)[0]`: everything before the first c, or all of s. */
  function BeforeFirst(s: string, c: char): (r: string)
    ensures c !in r
    ensures StartsWith(s, r)
    ensures c in s ==> |r| < |s| && s[|r|] == c
    ensures c !in s ==> r == s
  {
    if s == [] then []
    else if s[0] == c then []
    else [s[0]] + BeforeFirst(s[1..], c)
  }

  function DigitChar(d: nat): char
    requires d < 10
  {
    "0123456789"[d]
  }

  /** Python's str() of a non-negative int. */
  function NatToString(n: nat): (s: string)
    ensures |s| >= 1
  {
    if n < 10 then [DigitChar(n)] else NatToString(n / 10) + [DigitChar(n % 10)]
  }
}
