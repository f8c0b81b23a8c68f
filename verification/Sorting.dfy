/** Sorted copies by a key, and why a copy without ties does not depend on the order it came from. */
module Sorting {

  predicate SortedBy<T>(s: seq<T>, key: T -> int) {
    forall i, j :: 0 <= i < j < |s| ==> key(s[i]) <= key(s[j])
  }

  predicate NoTies<T>(s: seq<T>, key: T -> int) {
    forall i, j :: 0 <= i < j < |s| ==> key(s[i]) != key(s[j])
  }

  method Insert<T>(s: seq<T>, x: T, key: T -> int) returns (r: seq<T>)
    requires SortedBy(s, key)
    ensures SortedBy(r, key) && multiset(r) == multiset(s) + multiset{x}
  {
    var i := |s|;
    while i > 0 && key(s[i - 1]) > key(x)
      invariant 0 <= i <= |s|
      invariant forall k :: i <= k < |s| ==> key(s[k]) > key(x)
    {
      i := i - 1;
    }
    r := s[..i] + [x] + s[i..];
    InsertedSorted(s, i, x, key);
    InsertedOnce(s, i, x);
  }

  lemma InsertedSorted<T>(s: seq<T>, i: nat, x: T, key: T -> int)
    requires SortedBy(s, key) && i <= |s| && (i > 0 ==> key(s[i - 1]) <= key(x)) && forall k :: i <= k < |s| ==> key(s[k]) > key(x)
    ensures SortedBy(s[..i] + [x] + s[i..], key)
  {
    var r := s[..i] + [x] + s[i..];
    forall j, k | 0 <= j < k < |r| ensures key(r[j]) <= key(r[k]) {
      if k == i && i > 0 { assert key(s[j]) <= key(s[i - 1]); }
    }
  }

  lemma InsertedOnce<T>(s: seq<T>, i: nat, x: T)
    requires i <= |s|
    ensures multiset(s[..i] + [x] + s[i..]) == multiset(s) + multiset{x}
  {
    assert s == s[..i] + s[i..];
  }

  /** A sorted copy; among equal keys any order may come out. */
  method SortCopy<T>(s: seq<T>, key: T -> int) returns (r: seq<T>)
    ensures SortedBy(r, key) && multiset(r) == multiset(s)
  {
    r := [];
    var i := 0;
    while i < |s|
      invariant 0 <= i <= |s| && SortedBy(r, key) && multiset(r) == multiset(s[..i])
    {
      assert s[..i + 1] == s[..i] + [s[i]];
      r := Insert(r, s[i], key);
      i := i + 1;
    }
    assert s[..i] == s;
  }

  lemma Later<T>(s: seq<T>, key: T -> int, i: nat, j: nat)
    requires SortedBy(s, key) && i < |s| && j < |s|
    ensures key(s[i]) < key(s[j]) ==> i < j
  {
    if j < i { assert key(s[j]) <= key(s[i]); }
  }

  /** Every sequence has a sorted permutation, for any key. */
  lemma SortedExists<T>(s: seq<T>, key: T -> int) returns (r: seq<T>)
    ensures SortedBy(r, key) && multiset(r) == multiset(s)
    decreases |s|
  {
    if s == [] {
      r := [];
    } else {
      var t := SortedExists(s[1..], key);
      var i: nat := |t|;
      while i > 0 && key(t[i - 1]) > key(s[0])
        invariant 0 <= i <= |t|
        invariant forall k :: i <= k < |t| ==> key(t[k]) > key(s[0])
      {
        i := i - 1;
      }
      r := t[..i] + [s[0]] + t[i..];
      InsertedSorted(t, i, s[0], key);
      InsertedOnce(t, i, s[0]);
      SplitHead(s);
    }
  }

  lemma MembersAgree<T>(a: seq<T>, b: seq<T>, x: T)
    requires multiset(a) == multiset(b)
    ensures x in a <==> x in b
  {
    assert x in a <==> x in multiset(a);
    assert x in b <==> x in multiset(b);
  }

  lemma SameLength<T>(a: seq<T>, b: seq<T>)
    requires multiset(a) == multiset(b)
    ensures |a| == |b|
  {
    assert |multiset(a)| == |a| && |multiset(b)| == |b|;
  }

  lemma SplitHead<T>(s: seq<T>)
    requires s != []
    ensures multiset(s) == multiset{s[0]} + multiset(s[1..])
  {
    assert s == [s[0]] + s[1..];
  }

  lemma SplitAt<T>(s: seq<T>, k: nat)
    requires k < |s|
    ensures multiset(s) == multiset(s[..k] + s[k + 1..]) + multiset{s[k]}
  {
    assert s == s[..k] + ([s[k]] + s[k + 1..]);
    assert multiset(s) == multiset(s[..k]) + multiset([s[k]] + s[k + 1..]);
  }

  lemma TiesPermute<T>(a: seq<T>, b: seq<T>, key: T -> int)
    requires multiset(a) == multiset(b) && NoTies(a, key)
    ensures NoTies(b, key)
  {
    forall i, j | 0 <= i < j < |b| ensures key(b[i]) != key(b[j]) {
      MembersAgree(a, b, b[i]);
      MembersAgree(a, b, b[j]);
      var k :| 0 <= k < |a| && a[k] == b[i];
      var l :| 0 <= l < |a| && a[l] == b[j];
      if k == l {
        TwoOccurrences(b, i, j);
        OneOccurrence(a, k, key);
      }
    }
  }

  lemma TwoOccurrences<T>(b: seq<T>, i: nat, j: nat)
    requires i < j < |b| && b[i] == b[j]
    ensures multiset(b)[b[i]] >= 2
  {
    assert b == b[..i] + [b[i]] + b[i + 1..j] + [b[j]] + b[j + 1..];
  }

  lemma OneOccurrence<T>(a: seq<T>, k: nat, key: T -> int)
    requires k < |a| && NoTies(a, key)
    ensures multiset(a)[a[k]] == 1
  {
    assert a == a[..k] + [a[k]] + a[k + 1..];
    assert a[k] !in a[..k] && a[k] !in a[k + 1..];
  }

  lemma FirstAgree<T>(a: seq<T>, b: seq<T>, key: T -> int)
    requires SortedBy(a, key) && SortedBy(b, key) && a != [] && b != [] && a[0] in b && b[0] in a && NoTies(a, key)
    ensures a[0] == b[0]
  {
    var k :| 0 <= k < |a| && a[k] == b[0];
    var l :| 0 <= l < |b| && b[l] == a[0];
    assert key(a[0]) <= key(a[k]);
    assert key(b[0]) <= key(b[l]);
  }

  /** Without ties there is one sorted permutation only. */
  lemma {:induction false} SortedIsUnique<T>(a: seq<T>, b: seq<T>, key: T -> int)
    requires SortedBy(a, key) && SortedBy(b, key) && multiset(a) == multiset(b) && NoTies(a, key)
    ensures a == b
    decreases |a|
  {
    TiesPermute(a, b, key);
    if a == [] {
      assert |multiset(b)| == 0;
    } else {
      MembersAgree(a, b, a[0]);
      MembersAgree(a, b, b[0]);
      FirstAgree(a, b, key);
      SplitHead(a);
      SplitHead(b);
      assert multiset(a[1..]) == multiset(a) - multiset{a[0]};
      assert multiset(b[1..]) == multiset(b) - multiset{b[0]};
      SortedIsUnique(a[1..], b[1..], key);
    }
  }
}
