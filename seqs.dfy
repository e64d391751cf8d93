/** Sequence helpers shared by the models of queries, plans and file lists:
    order-keeping filters, first occurrences and concatenation. */
module Seqs {

  /** The elements of `s` that satisfy `p`, in their order. */
  function Where<T(!new)>(s: seq<T>, p: T -> bool): seq<T> {
    if s == [] then []
    else var rest := Where(s[..|s| - 1], p);
      if p(s[|s| - 1]) then rest + [s[|s| - 1]] else rest
  }

  /** What a filter keeps: the elements that satisfy the condition, and all
      of them when every element does. */
  lemma {:induction false} WhereSpec<T(!new)>(s: seq<T>, p: T -> bool)
    ensures |Where(s, p)| <= |s|
    ensures forall x :: x in Where(s, p) <==> x in s && p(x)
    ensures forall i :: 0 <= i < |Where(s, p)| ==> p(Where(s, p)[i])
    ensures (forall x :: x in s ==> p(x)) ==> Where(s, p) == s
    decreases |s|
  {
    if s != [] {
      var init := s[..|s| - 1];
      WhereSpec(init, p);
      assert s == init + [s[|s| - 1]];
    }
  }

  lemma {:induction false} WhereAppend<T(!new)>(a: seq<T>, b: seq<T>, p: T -> bool)
    ensures Where(a + b, p) == Where(a, p) + Where(b, p)
    decreases |b|
  {
    if b == [] {
      assert a + b == a;
    } else {
      assert (a + b)[..|a + b| - 1] == a + b[..|b| - 1];
      WhereAppend(a, b[..|b| - 1], p);
    }
  }

  /** Filtering twice is filtering once by both conditions. */
  lemma {:induction false} WhereWhere<T(!new)>(s: seq<T>, p: T -> bool, q: T -> bool, both: T -> bool)
    requires forall x :: both(x) == (p(x) && q(x))
    ensures Where(Where(s, p), q) == Where(s, both)
    decreases |s|
  {
    if s != [] {
      var init := s[..|s| - 1];
      WhereWhere(init, p, q, both);
      if p(s[|s| - 1]) {
        WhereAppend(Where(init, p), [s[|s| - 1]], q);
      }
    }
  }

  predicate NoDuplicates<T(==)>(s: seq<T>) {
    forall i, j :: 0 <= i < j < |s| ==> s[i] != s[j]
  }

  /** A filter never brings in a duplicate. */
  lemma {:induction false} WhereNoDuplicates<T(!new)>(s: seq<T>, p: T -> bool)
    requires NoDuplicates(s)
    ensures NoDuplicates(Where(s, p))
    decreases |s|
  {
    if s != [] {
      WhereNoDuplicates(s[..|s| - 1], p);
      WhereSpec(s[..|s| - 1], p);
    }
  }

  /** The index at which `x` first occurs in `s`. */
  function FirstIndex<T(==)>(s: seq<T>, x: T): (i: nat)
    requires x in s
    ensures i < |s| && s[i] == x && x !in s[..i]
  {
    if s[0] == x then 0 else 1 + FirstIndex(s[1..], x)
  }

  /** Each element of `s` once, at the place where it first occurs. */
  function FirstOccurrences<T(==,!new)>(s: seq<T>): (r: seq<T>)
    ensures NoDuplicates(r)
    ensures forall x :: x in r <==> x in s
    ensures |r| <= |s|
  {
    if s == [] then []
    else
      var rest := FirstOccurrences(s[..|s| - 1]);
      if s[|s| - 1] in s[..|s| - 1] then rest else rest + [s[|s| - 1]]
  }

  /** First occurrences keep the order of first appearance. */
  lemma {:induction false} FirstOccurrencesOrder<T(!new)>(s: seq<T>, i: nat, j: nat)
    requires i < j < |FirstOccurrences(s)|
    ensures FirstIndex(s, FirstOccurrences(s)[i]) < FirstIndex(s, FirstOccurrences(s)[j])
    decreases |s|
  {
    var init := s[..|s| - 1];
    var rest := FirstOccurrences(init);
    var r := FirstOccurrences(s);
    FirstIndexPrefix(s, init, r[i]);
    if j < |rest| {
      assert r[i] == rest[i] && r[j] == rest[j];
      FirstOccurrencesOrder(init, i, j);
      FirstIndexPrefix(s, init, r[j]);
    } else {
      assert r[j] == s[|s| - 1] && r[j] !in init;
      assert FirstIndex(s, r[j]) == |s| - 1 by {
        FirstIndexAt(s, |s| - 1);
      }
    }
  }

  lemma FirstIndexPrefix<T>(s: seq<T>, init: seq<T>, x: T)
    requires |init| <= |s| && init == s[..|init|] && x in init
    ensures FirstIndex(s, x) == FirstIndex(init, x)
  {
    var k := FirstIndex(init, x);
    assert s[k] == x && x !in s[..k] by {
      assert s[..k] == init[..k];
    }
    FirstIndexAt(s, k);
  }

  lemma {:induction false} FirstIndexAt<T>(s: seq<T>, k: nat)
    requires k < |s| && s[k] !in s[..k]
    ensures FirstIndex(s, s[k]) == k
    decreases k
  {
    if k > 0 {
      assert s[0] != s[k] by { assert s[0] in s[..k]; }
      assert s[1..][k - 1] == s[k] && s[1..][..k - 1] == s[1..k];
      assert s[k] !in s[1..k] by {
        forall x | x in s[1..k] ensures x in s[..k] {
          var m :| 0 <= m < k - 1 && s[1..k][m] == x;
          assert s[..k][m + 1] == x;
        }
      }
      FirstIndexAt(s[1..], k - 1);
    }
  }

  /** The concatenation of a sequence of sequences, in order. */
  function Flatten<T>(ss: seq<seq<T>>): seq<T> {
    if ss == [] then [] else Flatten(ss[..|ss| - 1]) + ss[|ss| - 1]
  }

  lemma {:induction false} InFlatten<T>(ss: seq<seq<T>>, x: T)
    ensures x in Flatten(ss) <==> exists i :: 0 <= i < |ss| && x in ss[i]
    decreases |ss|
  {
    if ss != [] {
      var init := ss[..|ss| - 1];
      InFlatten(init, x);
      if x in Flatten(ss) && x !in ss[|ss| - 1] {
        var i :| 0 <= i < |init| && x in init[i];
        assert x in ss[i];
      }
      if exists i :: 0 <= i < |ss| && x in ss[i] {
        var i :| 0 <= i < |ss| && x in ss[i];
        if i < |init| {
          assert x in init[i];
        }
      }
    }
  }
}
