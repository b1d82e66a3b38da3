/** The parts of SQL the database adapter relies on, over in-memory rows:
    a stable ORDER BY on a two-column integer key and a WHERE filter. */
module Sql {

  /** (a1, a2) sorts no later than (b1, b2) in ORDER BY k1 ASC, k2 ASC. */
  predicate KeyLe(a: (int, int), b: (int, int)) {
    a.0 < b.0 || (a.0 == b.0 && a.1 <= b.1)
  }

  predicate SortedBy<T>(s: seq<T>, key: T -> (int, int)) {
    forall i, j :: 0 <= i < j < |s| ==> KeyLe(key(s[i]), key(s[j]))
  }

  /** x placed after every element of the sorted s whose key is not
      greater than x's. */
  function InsertBy<T>(x: T, s: seq<T>, key: T -> (int, int)): (r: seq<T>)
    ensures |r| == |s| + 1
    ensures multiset(r) == multiset(s) + multiset{x}
  {
    if s == [] then [x]
    else if KeyLe(key(s[0]), key(x)) then
      assert s == [s[0]] + s[1..];
      [s[0]] + InsertBy(x, s[1..], key)
    else [x] + s
  }

  lemma {:induction false} InsertBySorted<T>(x: T, s: seq<T>, key: T -> (int, int))
    requires SortedBy(s, key)
    ensures SortedBy(InsertBy(x, s, key), key)
  {
    if s != [] && KeyLe(key(s[0]), key(x)) {
      InsertBySorted(x, s[1..], key);
      var r := InsertBy(x, s, key);
      var t := InsertBy(x, s[1..], key);
      assert r == [s[0]] + t;
      forall j | 0 < j < |r| ensures KeyLe(key(r[0]), key(r[j])) {
        assert r[j] == t[j - 1];
        assert t[j - 1] in multiset(t);
      }
    }
  }

  /** ORDER BY key: an insertion sort, stable on equal keys. */
  function SortBy<T>(s: seq<T>, key: T -> (int, int)): (r: seq<T>)
    ensures |r| == |s|
    ensures multiset(r) == multiset(s)
    decreases |s|
  {
    if s == [] then []
    else
      assert s == [s[0]] + s[1..];
      InsertBy(s[0], SortBy(s[1..], key), key)
  }

  /** The sort orders the rows and keeps exactly the rows it was given. */
  lemma {:induction false} SortBySorted<T>(s: seq<T>, key: T -> (int, int))
    ensures SortedBy(SortBy(s, key), key)
    decreases |s|
  {
    if s != [] {
      SortBySorted(s[1..], key);
      InsertBySorted(s[0], SortBy(s[1..], key), key);
    }
  }

  /** The first row of a sorted result has the least key. */
  lemma SortByFirstLeast<T>(s: seq<T>, key: T -> (int, int), y: T)
    requires y in s
    ensures SortBy(s, key) != [] && KeyLe(key(SortBy(s, key)[0]), key(y))
  {
    var r := SortBy(s, key);
    assert y in multiset(s);
    assert y in multiset(r);
    var j :| 0 <= j < |r| && r[j] == y;
    SortBySorted(s, key);
    if j > 0 {
      assert KeyLe(key(r[0]), key(r[j]));
    }
  }

  /** WHERE p: the rows satisfying p, in their order. */
  function Filter<T>(s: seq<T>, p: T -> bool): (r: seq<T>)
    ensures |r| <= |s|
    ensures forall i :: 0 <= i < |r| ==> r[i] in s && p(r[i])
    ensures forall i :: 0 <= i < |s| && p(s[i]) ==> s[i] in r
    decreases |s|
  {
    if s == [] then []
    else
      assert s == [s[0]] + s[1..];
      if p(s[0]) then [s[0]] + Filter(s[1..], p) else Filter(s[1..], p)
  }

  /** The first row satisfying p, if any. */
  function First<T>(s: seq<T>, p: T -> bool): (r: seq<T>)
    ensures |r| <= 1
    ensures r == [] <==> forall i :: 0 <= i < |s| ==> !p(s[i])
    ensures r != [] ==> exists i :: 0 <= i < |s| && s[i] == r[0] && p(s[i])
                          && forall j :: 0 <= j < i ==> !p(s[j])
    decreases |s|
  {
    if s == [] then []
    else if p(s[0]) then [s[0]]
    else
      var r := First(s[1..], p);
      assert r != [] ==> exists i :: 1 <= i < |s| && s[i] == r[0] && p(s[i])
                          && forall j :: 0 <= j < i ==> !p(s[j]) by {
        if r != [] {
          var i :| 0 <= i < |s[1..]| && s[1..][i] == r[0] && p(s[1..][i]) && forall j :: 0 <= j < i ==> !p(s[1..][j]);
          assert s[i + 1] == s[1..][i];
          forall j | 0 <= j < i + 1 ensures !p(s[j]) {
            if j > 0 { assert s[j] == s[1..][j - 1]; }
          }
        }
      }
      r
  }

  /** LIMIT n OFFSET k */
  function Window<T>(s: seq<T>, offset: nat, n: nat): (r: seq<T>)
    ensures |r| == if offset >= |s| then 0 else if |s| - offset < n then |s| - offset else n
    ensures forall i :: 0 <= i < |r| ==> r[i] == s[offset + i]
  {
    if offset >= |s| then []
    else if |s| - offset < n then s[offset..]
    else s[offset..offset + n]
  }
}
