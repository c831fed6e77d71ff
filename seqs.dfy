/** Sequence operations the pages and the backend lean on: `Array.prototype.filter`,
    counting by a predicate, the "skip the rows that fail" loop, and the laws that
    tie them to independent definitions (sets of matching positions, subsequences). */
module Seqs {
  import opened Wrappers

  /** The elements of `s` that satisfy `p`, in their original order. */
  function Filter<T>(s: seq<T>, p: T -> bool): (r: seq<T>)
    ensures |r| <= |s|
    ensures forall k :: 0 <= k < |r| ==> p(r[k])
    decreases |s|
  {
    if s == [] then []
    else Filter(s[..|s| - 1], p) + (if p(s[|s| - 1]) then [s[|s| - 1]] else [])
  }

  /** An element is kept exactly when it occurs in `s` and matches. */
  lemma {:induction false} FilterMembership<T>(s: seq<T>, p: T -> bool, x: T)
    ensures x in Filter(s, p) <==> x in s && p(x)
    decreases |s|
  {
    if s != [] {
      var s' := s[..|s| - 1];
      assert s == s' + [s[|s| - 1]];
      FilterMembership(s', p, x);
    }
  }

  /** The positions of `s` whose element satisfies `p`. */
  ghost function MatchSet<T>(s: seq<T>, p: T -> bool): set<nat> {
    set i: nat | i < |s| && p(s[i])
  }

  /** How many elements of `s` satisfy `p`, counted by position. */
  ghost function CountWhere<T>(s: seq<T>, p: T -> bool): nat {
    |MatchSet(s, p)|
  }

  /** `r` is obtained from `s` by deleting elements, keeping the order of the rest. */
  ghost predicate IsSubsequence<T>(r: seq<T>, s: seq<T>)
    decreases |s|
  {
    if r == [] then true
    else if s == [] then false
    else (r[|r| - 1] == s[|s| - 1] && IsSubsequence(r[..|r| - 1], s[..|s| - 1]))
         || IsSubsequence(r, s[..|s| - 1])
  }

  /** Keeps `y` for every element `x` with `f(x) == Some(y)`, in order, and drops
      the elements for which `f` gives `None`. */
  function KeepSome<T, U>(s: seq<T>, f: T -> Option<U>): (r: seq<U>)
    ensures |r| <= |s|
    decreases |s|
  {
    if s == [] then []
    else KeepSome(s[..|s| - 1], f) + (match f(s[|s| - 1]) case Some(y) => [y] case None => [])
  }

  lemma MatchSetSnoc<T>(s: seq<T>, x: T, p: T -> bool)
    ensures |s| !in MatchSet(s, p)
    ensures MatchSet(s + [x], p) == MatchSet(s, p) + (if p(x) then {|s|} else {})
  {
    var t := s + [x];
    assert forall i :: 0 <= i < |s| ==> t[i] == s[i];
    assert t[|s|] == x;
  }

  /** Appending one element adds one to the count exactly when it matches. */
  lemma CountWhereSnoc<T>(s: seq<T>, x: T, p: T -> bool)
    ensures CountWhere(s + [x], p) == CountWhere(s, p) + (if p(x) then 1 else 0)
  {
    MatchSetSnoc(s, x, p);
  }

  lemma {:induction false} CountWhereBound<T>(s: seq<T>, p: T -> bool)
    ensures CountWhere(s, p) <= |s|
    decreases |s|
  {
    if s != [] {
      var s', x := s[..|s| - 1], s[|s| - 1];
      assert s == s' + [x];
      CountWhereBound(s', p);
      CountWhereSnoc(s', x, p);
    }
  }

  /** Counting is additive over two predicates that split a third one. */
  lemma {:induction false} CountWherePartition<T>(s: seq<T>, p: T -> bool, q: T -> bool, u: T -> bool)
    requires forall x :: u(x) <==> p(x) || q(x)
    requires forall x :: !(p(x) && q(x))
    ensures CountWhere(s, p) + CountWhere(s, q) == CountWhere(s, u)
    decreases |s|
  {
    if s == [] {
      assert MatchSet(s, u) == {};
    } else {
      var s', x := s[..|s| - 1], s[|s| - 1];
      assert s == s' + [x];
      CountWherePartition(s', p, q, u);
      CountWhereSnoc(s', x, p);
      CountWhereSnoc(s', x, q);
      CountWhereSnoc(s', x, u);
    }
  }

  /** The length of a filter is the number of matching positions. */
  lemma {:induction false} FilterCount<T>(s: seq<T>, p: T -> bool)
    ensures |Filter(s, p)| == CountWhere(s, p)
    decreases |s|
  {
    if s == [] {
      assert MatchSet(s, p) == {};
    } else {
      var s', x := s[..|s| - 1], s[|s| - 1];
      assert s == s' + [x];
      FilterCount(s', p);
      CountWhereSnoc(s', x, p);
    }
  }

  /** A filter keeps the relative order of what it keeps. */
  lemma {:induction false} FilterIsSubsequence<T>(s: seq<T>, p: T -> bool)
    ensures IsSubsequence(Filter(s, p), s)
    decreases |s|
  {
    if s != [] {
      var s', x := s[..|s| - 1], s[|s| - 1];
      var r' := Filter(s', p);
      FilterIsSubsequence(s', p);
      if p(x) {
        var r := r' + [x];
        assert Filter(s, p) == r && r[..|r| - 1] == r';
      } else {
        assert Filter(s, p) == r';
      }
    }
  }

  /** A subsequence made of matching elements is no longer than the number of matches. */
  lemma {:induction false} SubsequenceCount<T>(r: seq<T>, s: seq<T>, p: T -> bool)
    requires IsSubsequence(r, s)
    requires forall k :: 0 <= k < |r| ==> p(r[k])
    ensures |r| <= CountWhere(s, p)
    decreases |s|
  {
    if r != [] {
      var s', x := s[..|s| - 1], s[|s| - 1];
      assert s == s' + [x];
      CountWhereSnoc(s', x, p);
      if r[|r| - 1] == x && IsSubsequence(r[..|r| - 1], s') {
        SubsequenceCount(r[..|r| - 1], s', p);
      } else {
        SubsequenceCount(r, s', p);
      }
    }
  }

  /** The filter is the only subsequence of `s` that consists of matching elements
      and has as many of them as `s` has: it drops no match and keeps no miss. */
  lemma {:induction false} FilterUnique<T>(s: seq<T>, p: T -> bool, r: seq<T>)
    requires IsSubsequence(r, s)
    requires forall k :: 0 <= k < |r| ==> p(r[k])
    requires |r| == CountWhere(s, p)
    ensures r == Filter(s, p)
    decreases |s|
  {
    if s == [] {
      assert MatchSet(s, p) == {};
    } else {
      var s', x := s[..|s| - 1], s[|s| - 1];
      assert s == s' + [x];
      CountWhereSnoc(s', x, p);
      if r == [] {
        FilterCount(s, p);
      } else if p(x) {
        if r[|r| - 1] == x && IsSubsequence(r[..|r| - 1], s') {
          FilterUnique(s', p, r[..|r| - 1]);
          assert r == r[..|r| - 1] + [x];
        } else {
          SubsequenceCount(r, s', p);
        }
      } else {
        assert IsSubsequence(r, s');
        FilterUnique(s', p, r);
      }
    }
  }

  /** Keeping the successes of a concatenation keeps those of each part, in order:
      an element that fails affects nothing but itself. */
  lemma {:induction false} KeepSomeAppend<T, U>(a: seq<T>, b: seq<T>, f: T -> Option<U>)
    ensures KeepSome(a + b, f) == KeepSome(a, f) + KeepSome(b, f)
    decreases |b|
  {
    if b == [] {
      assert a + b == a;
    } else {
      var b', y := b[..|b| - 1], b[|b| - 1];
      assert (a + b)[..|a + b| - 1] == a + b';
      assert (a + b)[|a + b| - 1] == y;
      KeepSomeAppend(a, b', f);
    }
  }

  /** An element on which `f` fails contributes nothing, wherever it stands. */
  lemma {:induction false} KeepSomeSkip<T, U>(a: seq<T>, x: T, b: seq<T>, f: T -> Option<U>)
    requires f(x).None?
    ensures KeepSome(a + [x] + b, f) == KeepSome(a, f) + KeepSome(b, f)
  {
    assert KeepSome([x], f) == [] by {
      assert [x][..0] == [];
    }
    KeepSomeAppend(a, [x], f);
    KeepSomeAppend(a + [x], b, f);
  }

  /** As many results as elements on which `f` succeeds. */
  lemma {:induction false} KeepSomeCount<T, U>(s: seq<T>, f: T -> Option<U>, p: T -> bool)
    requires forall x :: p(x) <==> f(x).Some?
    ensures |KeepSome(s, f)| == CountWhere(s, p)
    decreases |s|
  {
    if s == [] {
      assert MatchSet(s, p) == {};
    } else {
      var s', x := s[..|s| - 1], s[|s| - 1];
      assert s == s' + [x];
      KeepSomeCount(s', f, p);
      CountWhereSnoc(s', x, p);
    }
  }

  /** Every result comes from some element of the input. */
  lemma {:induction false} KeepSomeOrigin<T, U>(s: seq<T>, f: T -> Option<U>, k: nat)
    requires k < |KeepSome(s, f)|
    ensures exists i :: 0 <= i < |s| && f(s[i]) == Some(KeepSome(s, f)[k])
    decreases |s|
  {
    var s', x := s[..|s| - 1], s[|s| - 1];
    if k < |KeepSome(s', f)| {
      KeepSomeOrigin(s', f, k);
      var i :| 0 <= i < |s'| && f(s'[i]) == Some(KeepSome(s', f)[k]);
      assert s[i] == s'[i];
    } else {
      assert f(s[|s| - 1]) == Some(KeepSome(s, f)[k]);
    }
  }
}
