/** Subsequences and filters. */
module Sequences {
  /** a can be obtained from b by leaving elements out. */
  ghost predicate IsSubsequence<T>(a: seq<T>, b: seq<T>)
    decreases |b|
  {
    if a == [] then true
    else if b == [] then false
    else
      || (a[|a| - 1] == b[|b| - 1] && IsSubsequence(a[..|a| - 1], b[..|b| - 1]))
      || IsSubsequence(a, b[..|b| - 1])
  }

  lemma SubsequenceSkip<T>(a: seq<T>, b: seq<T>, x: T)
    requires IsSubsequence(a, b)
    ensures IsSubsequence(a, b + [x])
  {
    assert (b + [x])[..|b|] == b;
  }

  lemma SubsequenceSnoc<T>(a: seq<T>, b: seq<T>, x: T)
    requires IsSubsequence(a, b)
    ensures IsSubsequence(a + [x], b + [x])
  {
    assert (a + [x])[..|a|] == a && (b + [x])[..|b|] == b;
  }

  lemma {:induction false} SubsequenceRemove<T>(p: seq<T>, x: T, q: seq<T>, b: seq<T>)
    requires IsSubsequence(p + [x] + q, b)
    ensures IsSubsequence(p + q, b)
    decreases |b|
  {
    var a, b' := p + [x] + q, b[..|b| - 1];
    if a[|a| - 1] == b[|b| - 1] && IsSubsequence(a[..|a| - 1], b') {
      if q == [] {
        assert a[..|a| - 1] == p == p + q;
        SubsequenceSkip(p, b', x);
      } else {
        var q', y := q[..|q| - 1], q[|q| - 1];
        assert a[..|a| - 1] == p + [x] + q';
        SubsequenceRemove(p, x, q', b');
        SubsequenceSnoc(p + q', b', y);
        assert p + q' + [y] == p + q;
      }
    } else {
      SubsequenceRemove(p, x, q, b');
      SubsequenceSkip(p + q, b', b[|b| - 1]);
    }
    assert b' + [b[|b| - 1]] == b;
  }

  // -------- filtering

  function Filter<T>(s: seq<T>, keep: T -> bool): seq<T> {
    if s == [] then []
    else (if keep(s[0]) then [s[0]] else []) + Filter(s[1..], keep)
  }

  lemma {:induction false} FilterConcat<T>(a: seq<T>, b: seq<T>, keep: T -> bool)
    ensures Filter(a + b, keep) == Filter(a, keep) + Filter(b, keep)
  {
    if a == [] {
      assert a + b == b;
    } else {
      var first := if keep(a[0]) then [a[0]] else [];
      FilterConcat(a[1..], b, keep);
      assert (a + b)[1..] == a[1..] + b;
      assert (first + Filter(a[1..], keep)) + Filter(b, keep) == first + (Filter(a[1..], keep) + Filter(b, keep));
    }
  }

  lemma {:induction false} FilterAll<T>(s: seq<T>, keep: T -> bool)
    requires forall i :: 0 <= i < |s| ==> keep(s[i])
    ensures Filter(s, keep) == s
  {
    if s != [] {
      FilterAll(s[1..], keep);
    }
  }

  lemma {:induction false} FilterNone<T>(s: seq<T>, keep: T -> bool)
    requires forall i :: 0 <= i < |s| ==> !keep(s[i])
    ensures Filter(s, keep) == []
  {
    if s != [] {
      FilterNone(s[1..], keep);
    }
  }

  lemma {:induction false} FilterMembers<T>(s: seq<T>, keep: T -> bool)
    ensures forall x :: x in Filter(s, keep) <==> x in s && keep(x)
  {
    if s != [] {
      FilterMembers(s[1..], keep);
      assert s == [s[0]] + s[1..];
    }
  }
}
