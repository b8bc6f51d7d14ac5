/**
 * The `Array.prototype.sort` calls of the charts, with a comparator of the form
 * `(a, b) => rank(a) - rank(b)`: a stable sort by a numeric rank, smallest
 * first (a descending order is a sort by the negated score).
 */
module Sorting {

  predicate SortedBy<T>(s: seq<T>, rank: T -> real)
  {
    forall i, j :: 0 <= i < j < |s| ==> rank(s[i]) <= rank(s[j])
  }

  /** Insert `x` before the first element ranked at least as high. */
  function Insert<T>(x: T, s: seq<T>, rank: T -> real): seq<T>
  {
    if s == [] then [x]
    else if rank(x) <= rank(s[0]) then [x] + s
    else [s[0]] + Insert(x, s[1..], rank)
  }

  /** Insertion sort; an element goes before the later elements of equal rank, so equal ranks keep their order. */
  function SortBy<T>(s: seq<T>, rank: T -> real): seq<T>
  {
    if s == [] then [] else Insert(s[0], SortBy(s[1..], rank), rank)
  }

  /** Putting an element no higher than every element in front of a sorted sequence keeps it sorted. */
  lemma ConsSorted<T>(h: T, s: seq<T>, rank: T -> real)
    requires SortedBy(s, rank)
    requires forall y :: y in s ==> rank(h) <= rank(y)
    ensures SortedBy([h] + s, rank)
  {
    var r := [h] + s;
    forall i, j | 0 <= i < j < |r| ensures rank(r[i]) <= rank(r[j]) {
      assert r[j] == s[j - 1];
      if i > 0 {
        assert r[i] == s[i - 1];
      }
    }
  }

  /** Inserting adds exactly the one element. */
  lemma {:induction false} InsertCount<T>(x: T, s: seq<T>, rank: T -> real)
    ensures multiset(Insert(x, s, rank)) == multiset(s) + multiset{x}
    decreases |s|
  {
    if s != [] && rank(x) > rank(s[0]) {
      InsertCount(x, s[1..], rank);
      assert s == [s[0]] + s[1..];
    }
  }

  /** Every element of a sorted sequence ranks at least as high as its first. */
  lemma HeadIsLeast<T>(s: seq<T>, rank: T -> real, y: T)
    requires SortedBy(s, rank) && y in s
    ensures rank(s[0]) <= rank(y)
  {
    var k :| 0 <= k < |s| && s[k] == y;
    assert k == 0 || rank(s[0]) <= rank(s[k]);
  }

  lemma {:induction false} InsertFacts<T>(x: T, s: seq<T>, rank: T -> real)
    requires SortedBy(s, rank)
    ensures multiset(Insert(x, s, rank)) == multiset(s) + multiset{x}
    ensures SortedBy(Insert(x, s, rank), rank)
    decreases |s|
  {
    InsertCount(x, s, rank);
    if s == [] {
    } else if rank(x) <= rank(s[0]) {
      forall y | y in s ensures rank(x) <= rank(y) {
        HeadIsLeast(s, rank, y);
      }
      ConsSorted(x, s, rank);
    } else {
      var tail := s[1..];
      var rest := Insert(x, tail, rank);
      assert SortedBy(tail, rank) by {
        forall i, j | 0 <= i < j < |tail| ensures rank(tail[i]) <= rank(tail[j]) {
          assert tail[i] == s[i + 1] && tail[j] == s[j + 1];
        }
      }
      InsertFacts(x, tail, rank);
      forall y | y in rest ensures rank(s[0]) <= rank(y) {
        assert y in multiset(rest);
        if y != x {
          assert y in multiset(tail);
          assert y in s;
          HeadIsLeast(s, rank, y);
        }
      }
      ConsSorted(s[0], rest, rank);
    }
  }

  /** The sort puts the elements in rank order and neither loses nor adds any. */
  lemma {:induction false} SortByFacts<T>(s: seq<T>, rank: T -> real)
    ensures SortedBy(SortBy(s, rank), rank)
    ensures multiset(SortBy(s, rank)) == multiset(s)
    ensures |SortBy(s, rank)| == |s|
    decreases |s|
  {
    if s != [] {
      var t := SortBy(s[1..], rank);
      SortByFacts(s[1..], rank);
      InsertFacts(s[0], t, rank);
      assert s == [s[0]] + s[1..];
      assert multiset(SortBy(s, rank)) == multiset(t) + multiset{s[0]} == multiset(s[1..]) + multiset{s[0]};
    }
    var r := SortBy(s, rank);
    assert |r| == |multiset(r)| && |s| == |multiset(s)|;
  }

  /** No two elements share a name. */
  predicate DistinctBy<T>(s: seq<T>, name: T -> string)
  {
    forall i, j :: 0 <= i < j < |s| ==> name(s[i]) != name(s[j])
  }

  /** Where `Insert` puts `x`: between a prefix and the rest of `s`. */
  lemma {:induction false} InsertSplits<T>(x: T, s: seq<T>, rank: T -> real) returns (k: nat)
    ensures k <= |s| && Insert(x, s, rank) == s[..k] + [x] + s[k..]
    decreases |s|
  {
    if s == [] || rank(x) <= rank(s[0]) {
      k := 0;
    } else {
      var k' := InsertSplits(x, s[1..], rank);
      k := k' + 1;
      assert s[..k] == [s[0]] + s[1..][..k'];
      assert s[k..] == s[1..][k'..];
    }
  }

  /** Inserting an element whose name none of a distinct sequence has keeps the names distinct. */
  lemma InsertKeepsDistinct<T>(x: T, t: seq<T>, rank: T -> real, name: T -> string)
    requires DistinctBy(t, name)
    requires forall y :: y in t ==> name(y) != name(x)
    ensures DistinctBy(Insert(x, t, rank), name)
  {
    var k := InsertSplits(x, t, rank);
    var r := Insert(x, t, rank);
    assert forall i :: 0 <= i < k ==> r[i] == t[i];
    assert r[k] == x;
    assert forall i :: k < i < |r| ==> r[i] == t[i - 1];
    forall i, j | 0 <= i < j < |r| ensures name(r[i]) != name(r[j]) {
      if i == k {
        assert r[j] in t;
      } else if j == k {
        assert r[i] in t;
      }
    }
  }

  /** Sorting rows whose names are distinct keeps them distinct. */
  lemma {:induction false} SortByKeepsDistinct<T>(s: seq<T>, rank: T -> real, name: T -> string)
    requires DistinctBy(s, name)
    ensures DistinctBy(SortBy(s, rank), name)
    decreases |s|
  {
    if s != [] {
      var tail := s[1..];
      assert DistinctBy(tail, name) by {
        forall i, j | 0 <= i < j < |tail| ensures name(tail[i]) != name(tail[j]) {
          assert tail[i] == s[i + 1] && tail[j] == s[j + 1];
        }
      }
      var t := SortBy(tail, rank);
      SortByKeepsDistinct(tail, rank, name);
      SortByFacts(tail, rank);
      forall y | y in t ensures name(y) != name(s[0]) {
        assert y in multiset(tail);
        var j :| 0 <= j < |tail| && tail[j] == y;
        assert s[j + 1] == y;
      }
      InsertKeepsDistinct(s[0], t, rank, name);
    }
  }
}
