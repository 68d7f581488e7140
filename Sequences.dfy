/**
 * Order-preserving selection over sequences and the subsequence relation;
 * the event filters and the registry removals are all selections.
 */
module Sequences {

  /** The elements of `s` that satisfy `p`, in their original order. */
  function Select<T>(s: seq<T>, p: T -> bool): (r: seq<T>)
    ensures |r| <= |s|
  {
    if s == [] then [] else Select(s[..|s| - 1], p) + (if p(s[|s| - 1]) then [s[|s| - 1]] else [])
  }

  /** `a` is obtained from `b` by deleting elements. */
  predicate Subseq<T(==)>(a: seq<T>, b: seq<T>)
    decreases |b|
  {
    if b == [] then a == []
    else (a != [] && a[|a| - 1] == b[|b| - 1] && Subseq(a[..|a| - 1], b[..|b| - 1]))
         || Subseq(a, b[..|b| - 1])
  }

  predicate NoDup<T(==)>(s: seq<T>) {
    forall i, j :: 0 <= i < j < |s| ==> s[i] != s[j]
  }

  lemma {:induction false} SelectMembership<T>(s: seq<T>, p: T -> bool, x: T)
    ensures x in Select(s, p) <==> x in s && p(x)
  {
    if s != [] {
      var init, last := s[..|s| - 1], s[|s| - 1];
      assert s == init + [last];
      SelectMembership(init, p, x);
    }
  }

  lemma {:induction false} SelectIsSubseq<T>(s: seq<T>, p: T -> bool)
    ensures Subseq(Select(s, p), s)
  {
    if s != [] {
      var init := s[..|s| - 1];
      SelectIsSubseq(init, p);
      if p(s[|s| - 1]) {
        var r := Select(s, p);
        assert r == Select(init, p) + [s[|s| - 1]];
        assert r[|r| - 1] == s[|s| - 1];
        assert r[..|r| - 1] == Select(init, p);
      } else {
        assert Select(s, p) == Select(init, p);
        assert Subseq(Select(init, p), s[..|s| - 1]);
      }
    }
  }

  /** Selecting with a predicate that holds of every element changes nothing. */
  lemma {:induction false} SelectKeepsAll<T>(s: seq<T>, p: T -> bool)
    requires forall x :: x in s ==> p(x)
    ensures Select(s, p) == s
  {
    if s != [] {
      var init := s[..|s| - 1];
      SelectKeepsAll(init, p);
      assert s == init + [s[|s| - 1]];
    }
  }

  /** Selecting with a predicate that fails on some element shortens the sequence. */
  lemma {:induction false} SelectDrops<T>(s: seq<T>, p: T -> bool, x: T)
    requires x in s && !p(x)
    ensures |Select(s, p)| < |s|
  {
    var init, last := s[..|s| - 1], s[|s| - 1];
    assert s == init + [last];
    if last != x {
      SelectDrops(init, p, x);
    }
  }

  /** Two predicates that agree on `s` select the same elements. */
  lemma {:induction false} SelectAgree<T>(s: seq<T>, p: T -> bool, q: T -> bool)
    requires forall x :: x in s ==> p(x) == q(x)
    ensures Select(s, p) == Select(s, q)
  {
    if s != [] {
      var init := s[..|s| - 1];
      assert forall x :: x in init ==> x in s;
      SelectAgree(init, p, q);
    }
  }

  lemma {:induction false} SelectNoDup<T>(s: seq<T>, p: T -> bool)
    requires NoDup(s)
    ensures NoDup(Select(s, p))
  {
    if s != [] {
      var init, last := s[..|s| - 1], s[|s| - 1];
      assert s == init + [last];
      assert NoDup(init);
      SelectNoDup(init, p);
      SelectMembership(init, p, last);
    }
  }

  lemma {:induction false} SubseqRefl<T>(s: seq<T>)
    ensures Subseq(s, s)
  {
    if s != [] {
      SubseqRefl(s[..|s| - 1]);
    }
  }

  lemma {:induction false} SubseqTrans<T>(a: seq<T>, b: seq<T>, c: seq<T>)
    requires Subseq(a, b) && Subseq(b, c)
    ensures Subseq(a, c)
    decreases |c|
  {
    if c != [] {
      var cInit := c[..|c| - 1];
      if Subseq(b, cInit) {
        SubseqTrans(a, b, cInit);
      } else {
        var bInit := b[..|b| - 1];
        if a != [] && a[|a| - 1] == b[|b| - 1] && Subseq(a[..|a| - 1], bInit) {
          SubseqTrans(a[..|a| - 1], bInit, cInit);
        } else {
          SubseqTrans(a, bInit, cInit);
        }
      }
    }
  }

  /** Every element of a subsequence is an element of the sequence. */
  lemma {:induction false} SubseqMembers<T>(a: seq<T>, b: seq<T>, x: T)
    requires Subseq(a, b) && x in a
    ensures x in b
    decreases |b|
  {
    var bInit := b[..|b| - 1];
    assert b == bInit + [b[|b| - 1]];
    if a != [] && a[|a| - 1] == b[|b| - 1] && Subseq(a[..|a| - 1], bInit) {
      var aInit := a[..|a| - 1];
      assert a == aInit + [a[|a| - 1]];
      if x != a[|a| - 1] {
        SubseqMembers(aInit, bInit, x);
      }
    } else {
      SubseqMembers(a, bInit, x);
    }
  }
}
