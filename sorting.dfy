/**
 * Ordered listings of a keyed store: the entries of a map in key order, and a
 * stable insertion sort by a caller-supplied order. The database's ORDER BY
 * clauses are modelled with these.
 */
module Sorting {

  ghost predicate Total<T(!new)>(le: (T, T) -> bool) {
    forall a, b :: le(a, b) || le(b, a)
  }

  ghost predicate Transitive<T(!new)>(le: (T, T) -> bool) {
    forall a, b, c :: le(a, b) && le(b, c) ==> le(a, c)
  }

  ghost predicate SortedBy<T>(s: seq<T>, le: (T, T) -> bool) {
    forall i, j :: 0 <= i < j < |s| ==> le(s[i], s[j])
  }

  /** `m` is the least element of `s`. */
  predicate IsMin(m: int, s: set<int>) { m in s && forall k :: k in s ==> m <= k }
  lemma NonEmptyHasElement(s: set<int>)
    requires s != {}
    ensures exists y :: y in s
  {
    if forall y :: y !in s {
      assert false;
    }
  }

  lemma SubsetCardinality(a: set<int>, b: set<int>)
    requires a <= b
    ensures |a| <= |b|
  {
    assert b == a + (b - a);
  }

  lemma {:induction false} MinExists(s: set<int>)
    requires s != {}
    ensures exists m :: IsMin(m, s)
    decreases |s|
  {
    NonEmptyHasElement(s);
    var x :| x in s;
    var rest := s - {x};
    if rest == {} {
      forall k | k in s ensures x <= k {
        assert k !in rest;
      }
      assert IsMin(x, s);
    } else {
      MinExists(rest);
      var m :| IsMin(m, rest);
      var least := if x < m then x else m;
      forall k | k in s ensures least <= k {
        if k != x {
          assert k in rest;
        }
      }
      assert IsMin(least, s);
    }
  }


  /** Putting the least element of `s` before an ascending listing of the rest lists `s` ascending. */
  lemma ConsMin(m: int, s: set<int>, t: seq<int>)
    requires IsMin(m, s)
    requires |t| == |s - {m}| && (forall k :: k in t <==> k in s - {m})
    requires forall i, j :: 0 <= i < j < |t| ==> t[i] < t[j]
    ensures |[m] + t| == |s|
    ensures forall k :: k in [m] + t <==> k in s
    ensures forall i, j :: 0 <= i < j < |[m] + t| ==> ([m] + t)[i] < ([m] + t)[j]
  {
    var r := [m] + t;
    forall i, j | 0 <= i < j < |r| ensures r[i] < r[j] {
      if i == 0 {
        assert r[j] == t[j - 1] && r[j] in t;
      } else {
        assert r[i] == t[i - 1] && r[j] == t[j - 1];
      }
    }
  }

  /** The keys of a finite set of ids, smallest first. */
  function SortedKeys(s: set<int>): (r: seq<int>)
    ensures |r| == |s|
    ensures forall k :: k in r <==> k in s
    ensures forall i, j :: 0 <= i < j < |r| ==> r[i] < r[j]
    decreases |s|
  {
    if s == {} then []
    else
      MinExists(s);
      var m :| IsMin(m, s);
      var t := SortedKeys(s - {m});
      ConsMin(m, s, t);
      [m] + t
  }

  /** The entries of `m` for the keys `ks`, in the order of `ks`. */
  function EntriesAt<V>(m: map<int, V>, ks: seq<int>): (r: seq<(int, V)>)
    requires forall i :: 0 <= i < |ks| ==> ks[i] in m
    ensures |r| == |ks|
    ensures forall i :: 0 <= i < |r| ==> r[i].0 == ks[i] && r[i].1 == m[ks[i]]
  {
    if ks == [] then [] else [(ks[0], m[ks[0]])] + EntriesAt(m, ks[1..])
  }

  /** Every entry of a map once, in ascending key order. */
  function Listing<V>(m: map<int, V>): seq<(int, V)> {
    EntriesAt(m, SortedKeys(m.Keys))
  }

  lemma ListingContents<V>(m: map<int, V>)
    ensures |Listing(m)| == |m|
    ensures forall e :: e in Listing(m) <==> e.0 in m && e.1 == m[e.0]
  {
    var ks := SortedKeys(m.Keys);
    var r := Listing(m);
    assert |m.Keys| == |m|;
    forall e: (int, V) | e.0 in m && e.1 == m[e.0] ensures e in r {
      var i :| 0 <= i < |ks| && ks[i] == e.0;
      assert r[i] == e;
    }
  }

  /** Inserts `x` before the first element it sorts at or before. */
  function Insert<T>(x: T, s: seq<T>, le: (T, T) -> bool): (r: seq<T>)
    ensures multiset(r) == multiset(s) + multiset{x}
  {
    if s == [] || le(x, s[0]) then [x] + s
    else
      assert s == [s[0]] + s[1..];
      [s[0]] + Insert(x, s[1..], le)
  }

  /** Insertion sort of `s` by `le`. */
  function SortBy<T>(s: seq<T>, le: (T, T) -> bool): (r: seq<T>)
    ensures multiset(r) == multiset(s)
  {
    if s == [] then []
    else
      assert s == [s[0]] + s[1..];
      Insert(s[0], SortBy(s[1..], le), le)
  }

  lemma {:induction false} InsertSorted<T(!new)>(x: T, s: seq<T>, le: (T, T) -> bool)
    requires Total(le) && Transitive(le) && SortedBy(s, le)
    ensures SortedBy(Insert(x, s, le), le)
  {
    if s != [] && !le(x, s[0]) {
      assert le(s[0], x);
      var tail := Insert(x, s[1..], le);
      InsertSorted(x, s[1..], le);
      forall y | y in tail ensures le(s[0], y) {
        assert y in multiset(tail);
        if y != x {
          assert y in multiset(s[1..]);
          var j :| 0 <= j < |s[1..]| && s[1..][j] == y;
          assert s[j + 1] == y;
        }
      }
      var r := [s[0]] + tail;
      forall i, j | 0 <= i < j < |r| ensures le(r[i], r[j]) {
        if i == 0 {
          assert r[j] == tail[j - 1];
          assert r[j] in tail;
        } else {
          assert r[i] == tail[i - 1] && r[j] == tail[j - 1];
        }
      }
    }
  }

  lemma {:induction false} SortBySorted<T(!new)>(s: seq<T>, le: (T, T) -> bool)
    requires Total(le) && Transitive(le)
    ensures SortedBy(SortBy(s, le), le)
  {
    if s != [] {
      SortBySorted(s[1..], le);
      InsertSorted(s[0], SortBy(s[1..], le), le);
    }
  }

  /**
   * A sorted listing holds every entry of the map exactly once (no two
   * entries share a key and none is missing) and is in order.
   */
  lemma {:induction false} SortedListingContents<V(!new)>(m: map<int, V>, le: ((int, V), (int, V)) -> bool)
    requires Total(le) && Transitive(le)
    ensures var r := SortBy(Listing(m), le);
      && |r| == |m|
      && (forall e :: e in r <==> e.0 in m && e.1 == m[e.0])
      && SortedBy(r, le)
  {
    var l := Listing(m);
    var r := SortBy(l, le);
    ListingContents(m);
    SortBySorted(l, le);
    assert |r| == |multiset(r)| == |multiset(l)| == |l|;
    forall e: (int, V) ensures e in r <==> e in l {
      assert e in r <==> e in multiset(r);
      assert e in l <==> e in multiset(l);
    }
  }
}
