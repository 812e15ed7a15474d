/** Text helpers shared by the SQL builders: joining with a separator, plain
    concatenation, searching for a character and splitting on it. */
module Strings {

  /** Joins `parts` with `sep` between neighbours, growing from the left as a
      `StringBuilder` loop does (first part, then separator and next part). */
  function Join(sep: string, parts: seq<string>): string
    decreases |parts|
  {
    if |parts| == 0 then ""
    else if |parts| == 1 then parts[0]
    else Join(sep, parts[..|parts| - 1]) + sep + parts[|parts| - 1]
  }

  /** Concatenation of all parts, left to right. */
  function Concat(parts: seq<string>): string
    decreases |parts|
  {
    if |parts| == 0 then "" else Concat(parts[..|parts| - 1]) + parts[|parts| - 1]
  }

  /** Every part with `p` put in front of it. */
  function Prefixed(p: string, parts: seq<string>): (r: seq<string>)
    ensures |r| == |parts|
    ensures forall k :: 0 <= k < |parts| ==> r[k] == p + parts[k]
  {
    seq(|parts|, k requires 0 <= k < |parts| => p + parts[k])
  }

  /** A slice of the second half of `a + b`, in terms of `b`. */
  lemma SliceOfAppend(a: string, b: string, i: nat, j: nat)
    requires i <= j <= |b|
    ensures (a + b)[..|a|] == a
    ensures (a + b)[|a| + i..|a| + j] == b[i..j]
  {
  }

  /** A prefix of `b` reappears right after `a` in `a + b`. */
  lemma PrefixAfter(a: string, b: string, p: string)
    requires |p| <= |b| && b[..|p|] == p
    ensures |a| + |p| <= |a + b| && (a + b)[|a|..|a| + |p|] == p
  {
    assert forall k :: 0 <= k < |p| ==> (a + b)[|a| + k] == b[k];
  }

  lemma AfterPrefix(a: string, b: string)
    ensures (a + b)[|a|..] == b
  {
  }

  /** A prefix of `s` stays a prefix when more text is appended. */
  lemma PrefixExtends(p: string, s: string, t: string)
    requires |p| <= |s| && s[..|p|] == p
    ensures |p| <= |s + t| && (s + t)[..|p|] == p
  {
    assert forall k :: 0 <= k < |p| ==> (s + t)[k] == s[k];
  }

  /** A prefix of a prefix is a prefix. */
  lemma PrefixTransitive(p: string, q: string, s: string)
    requires |p| <= |q| <= |s| && q[..|p|] == p && s[..|q|] == q
    ensures s[..|p|] == p
  {
    assert forall k :: 0 <= k < |p| ==> s[k] == q[k];
  }

  lemma DropFromPrefix(s: string, p: string, rest: string, k: nat)
    requires s == p + rest && k <= |p|
    ensures |s| >= k && s[k..] == p[k..] + rest
  {
  }

  lemma JoinSnoc(sep: string, parts: seq<string>, last: string)
    requires |parts| >= 1
    ensures Join(sep, parts + [last]) == Join(sep, parts) + sep + last
  {
    assert (parts + [last])[..|parts|] == parts;
  }

  /** Appending the separator and one more part to a builder that holds
      `prefix` and the join so far. */
  lemma AppendAfterJoin(prefix: string, sep: string, parts: seq<string>, last: string)
    requires |parts| >= 1
    ensures prefix + Join(sep, parts) + sep + last == prefix + Join(sep, parts + [last])
  {
    JoinSnoc(sep, parts, last);
  }

  lemma ConcatSnoc(parts: seq<string>, last: string)
    ensures Concat(parts + [last]) == Concat(parts) + last
  {
    assert (parts + [last])[..|parts|] == parts;
  }

  /** Appending one more part to a builder that holds `prefix` and the
      concatenation so far. */
  lemma AppendAfterConcat(prefix: string, parts: seq<string>, last: string)
    ensures prefix + Concat(parts) + last == prefix + Concat(parts + [last])
  {
    ConcatSnoc(parts, last);
  }

  lemma {:induction false} ConcatAppend(a: seq<string>, b: seq<string>)
    ensures Concat(a + b) == Concat(a) + Concat(b)
    decreases |b|
  {
    if |b| == 0 {
      assert a + b == a;
    } else {
      var init, last := b[..|b| - 1], b[|b| - 1];
      assert b == init + [last];
      assert a + b == (a + init) + [last];
      ConcatSnoc(a + init, last);
      ConcatAppend(a, init);
      ConcatSnoc(init, last);
    }
  }

  /** Joining viewed from the right end: the first part, the separator, the rest. */
  lemma {:induction false} JoinCons(sep: string, first: string, rest: seq<string>)
    requires |rest| >= 1
    ensures Join(sep, [first] + rest) == first + sep + Join(sep, rest)
    decreases |rest|
  {
    if |rest| == 1 {
      assert [first] + rest == [first] + [rest[0]];
      JoinSnoc(sep, [first], rest[0]);
    } else {
      var init, last := rest[..|rest| - 1], rest[|rest| - 1];
      assert rest == init + [last];
      assert [first] + rest == ([first] + init) + [last];
      JoinSnoc(sep, [first] + init, last);
      JoinCons(sep, first, init);
      JoinSnoc(sep, init, last);
    }
  }

  /** Concatenating parts that all start with `p` is `p` followed by the parts
      joined with `p`. */
  lemma {:induction false} ConcatPrefixedIsJoin(p: string, parts: seq<string>)
    requires |parts| >= 1
    ensures Concat(Prefixed(p, parts)) == p + Join(p, parts)
    decreases |parts|
  {
    if |parts| == 1 {
      assert Prefixed(p, parts) == [] + [p + parts[0]];
      ConcatSnoc([], p + parts[0]);
    } else {
      var init, last := parts[..|parts| - 1], parts[|parts| - 1];
      assert Prefixed(p, parts) == Prefixed(p, init) + [p + last];
      ConcatSnoc(Prefixed(p, init), p + last);
      ConcatPrefixedIsJoin(p, init);
    }
  }

  /** Number of occurrences of `c` in a join, when `c` is not in the separator
      and occurs `k` times in every part. */
  lemma {:induction false} CountInJoin(sep: string, parts: seq<string>, c: char, k: nat)
    requires c !in sep
    requires forall i :: 0 <= i < |parts| ==> multiset(parts[i])[c] == k
    ensures multiset(Join(sep, parts))[c] == k * |parts|
    decreases |parts|
  {
    if |parts| == 1 {
      assert Join(sep, parts) == parts[0];
    } else if |parts| > 1 {
      var init, last := parts[..|parts| - 1], parts[|parts| - 1];
      var left := Join(sep, init);
      assert Join(sep, parts) == left + sep + last;
      assert forall i :: 0 <= i < |init| ==> init[i] == parts[i];
      CountInJoin(sep, init, c, k);
      assert multiset(left + sep + last) == multiset(left) + multiset(sep) + multiset(last);
      assert multiset(sep)[c] == 0;
      MulSucc(k, |init|);
    }
  }

  lemma MulSucc(k: nat, n: nat)
    ensures k * (n + 1) == k * n + k
  {
  }

  /** Number of occurrences of `c` in a concatenation whose parts each hold it once. */
  lemma {:induction false} CountInConcat(parts: seq<string>, c: char)
    requires forall i :: 0 <= i < |parts| ==> multiset(parts[i])[c] == 1
    ensures multiset(Concat(parts))[c] == |parts|
    decreases |parts|
  {
    if |parts| > 0 {
      CountInConcat(parts[..|parts| - 1], c);
    }
  }

  /** Index of the first `c` in `s`, or -1 when there is none. */
  function IndexOf(s: string, c: char): (k: int)
    ensures -1 <= k < |s|
    ensures k >= 0 ==> s[k] == c
    ensures forall j :: 0 <= j < |s| && (k < 0 || j < k) ==> s[j] != c
    decreases |s|
  {
    if |s| == 0 then -1
    else if s[0] == c then 0
    else
      var k := IndexOf(s[1..], c);
      if k < 0 then -1 else k + 1
  }

  /** The first `c` of `a + b` is the first character of `b` when `a` holds none. */
  lemma IndexOfAfter(a: string, b: string, c: char)
    requires c !in a && |b| > 0 && b[0] == c
    ensures IndexOf(a + b, c) == |a|
    ensures (a + b)[..|a|] == a && (a + b)[|a|..] == b
  {
    var s := a + b;
    assert s[|a|] == c;
    assert forall j :: 0 <= j < |a| ==> s[j] == a[j];
    assert s[..|a|] == a;
  }

  /** Splits `s` at every `c`, the pieces keeping their order. */
  function SplitOn(s: string, c: char): (pieces: seq<string>)
    ensures |pieces| >= 1
    decreases |s|
  {
    var k := IndexOf(s, c);
    if k < 0 then [s] else [s[..k]] + SplitOn(s[k + 1..], c)
  }

  /** Splitting on `c` undoes joining with `c` when no part holds `c`. */
  lemma {:induction false} SplitJoin(parts: seq<string>, c: char)
    requires |parts| >= 1
    requires forall i :: 0 <= i < |parts| ==> c !in parts[i]
    ensures SplitOn(Join([c], parts), c) == parts
    decreases |parts|
  {
    if |parts| == 1 {
      assert IndexOf(parts[0], c) < 0;
    } else {
      var first, rest := parts[0], parts[1..];
      assert parts == [first] + rest;
      JoinCons([c], first, rest);
      var tail := [c] + Join([c], rest);
      assert Join([c], parts) == first + tail;
      IndexOfAfter(first, tail, c);
      assert (first + tail)[|first| + 1..] == Join([c], rest);
      SplitJoin(rest, c);
    }
  }
}
