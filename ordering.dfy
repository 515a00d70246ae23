/** The `.sort({ postedDate: -1 })` step of the property listing: newest
    documents first. */
module Ordering {
  import opened Documents

  /** No document is followed by a newer one. */
  predicate NewestFirst(s: seq<Property>)
  {
    forall i, j :: 0 <= i < j < |s| ==> s[i].postedDate >= s[j].postedDate
  }

  /** A document no older than the head of a newest-first sequence may be
      put in front of it. */
  lemma ConsNewestFirst(x: Property, t: seq<Property>)
    requires NewestFirst(t)
    requires t != [] ==> x.postedDate >= t[0].postedDate
    ensures NewestFirst([x] + t)
  {
    var r := [x] + t;
    forall i, j | 0 <= i < j < |r|
      ensures r[i].postedDate >= r[j].postedDate
    {
      if i == 0 {
        assert r[j] == t[j - 1];
      } else {
        assert r[i] == t[i - 1] && r[j] == t[j - 1];
      }
    }
  }

  /** Inserts a document into a newest-first sequence, ahead of every
      document that is not newer than it. */
  function InsertNewestFirst(p: Property, s: seq<Property>): (r: seq<Property>)
    requires NewestFirst(s)
    ensures NewestFirst(r)
    ensures multiset(r) == multiset(s) + multiset{p}
    ensures r[0] == p || (s != [] && r[0] == s[0])
  {
    if s == [] || p.postedDate >= s[0].postedDate then
      [p] + s
    else
      var t := InsertNewestFirst(p, s[1..]);
      assert s == [s[0]] + s[1..];
      ConsNewestFirst(s[0], t);
      [s[0]] + t
  }

  /** The collection ordered newest first. */
  function SortNewestFirst(s: seq<Property>): (r: seq<Property>)
    ensures NewestFirst(r)
    ensures multiset(r) == multiset(s)
    ensures |r| == |s|
  {
    if s == [] then []
    else
      assert s == [s[0]] + s[1..];
      InsertNewestFirst(s[0], SortNewestFirst(s[1..]))
  }

  /** A contiguous piece of a newest-first sequence is newest first. */
  lemma SliceNewestFirst(s: seq<Property>, lo: int, hi: int)
    requires NewestFirst(s) && 0 <= lo <= hi <= |s|
    ensures NewestFirst(s[lo..hi])
  {
    var t := s[lo..hi];
    forall i, j | 0 <= i < j < |t|
      ensures t[i].postedDate >= t[j].postedDate
    {
      assert t[i] == s[lo + i] && t[j] == s[lo + j];
    }
  }

  /** No two documents of the sequence share a posting date. */
  predicate DistinctDates(s: seq<Property>)
  {
    forall i, j :: 0 <= i < j < |s| ==> s[i].postedDate != s[j].postedDate
  }

  /** Two non-empty newest-first permutations of one collection with
      distinct dates start with the same document, its newest. */
  lemma SameNewest(a: seq<Property>, b: seq<Property>)
    requires NewestFirst(a) && NewestFirst(b) && DistinctDates(a)
    requires multiset(a) == multiset(b) && a != []
    ensures b != [] && a[0] == b[0]
  {
    assert a[0] in multiset(b);
    var k :| 0 <= k < |b| && b[k] == a[0];
    assert b[0] in multiset(a);
    var m :| 0 <= m < |a| && a[m] == b[0];
    assert b[0].postedDate >= b[k].postedDate;
    assert m == 0;
  }

  /** Removing the same first document leaves equal multisets. */
  lemma TailsPermuted(a: seq<Property>, b: seq<Property>)
    requires a != [] && b != [] && a[0] == b[0] && multiset(a) == multiset(b)
    ensures multiset(a[1..]) == multiset(b[1..])
  {
    assert a == [a[0]] + a[1..];
    assert b == [b[0]] + b[1..];
    assert multiset(a) == multiset{a[0]} + multiset(a[1..]);
    assert multiset(b) == multiset{b[0]} + multiset(b[1..]);
    forall p
      ensures multiset(a[1..])[p] == multiset(b[1..])[p]
    {
      assert multiset(a)[p] == multiset{a[0]}[p] + multiset(a[1..])[p];
      assert multiset(b)[p] == multiset{b[0]}[p] + multiset(b[1..])[p];
    }
  }

  /** With pairwise distinct dates there is only one newest-first order of a
      collection: any two newest-first permutations of it are equal. */
  lemma {:induction false} NewestFirstUnique(a: seq<Property>, b: seq<Property>)
    requires NewestFirst(a) && NewestFirst(b) && DistinctDates(a)
    requires multiset(a) == multiset(b)
    ensures a == b
  {
    if a == [] {
      assert |b| == |multiset(b)| == 0;
    } else {
      SameNewest(a, b);
      TailsPermuted(a, b);
      SliceNewestFirst(a, 1, |a|);
      SliceNewestFirst(b, 1, |b|);
      assert DistinctDates(a[1..]) by {
        forall i, j | 0 <= i < j < |a| - 1
          ensures a[1..][i].postedDate != a[1..][j].postedDate
        {
          assert a[1..][i] == a[i + 1] && a[1..][j] == a[j + 1];
        }
      }
      NewestFirstUnique(a[1..], b[1..]);
      assert a == [a[0]] + a[1..] && b == [b[0]] + b[1..];
    }
  }

  /** With pairwise distinct dates, every newest-first ordering of a
      collection is the one SortNewestFirst gives, so any ordering the
      database picks for `.sort({ postedDate: -1 })` agrees with it. */
  lemma SortNewestFirstIsTheOrder(s: seq<Property>, t: seq<Property>)
    requires NewestFirst(t) && DistinctDates(t) && multiset(t) == multiset(s)
    ensures t == SortNewestFirst(s)
  {
    NewestFirstUnique(t, SortNewestFirst(s));
  }
}
