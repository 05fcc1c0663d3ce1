/**
 * The document-store queries the route handlers use, over an in-memory collection:
 * `find(filter)`, `.sort({ key: -1 })` and `findOne(filter).sort({ key: -1 })`.
 */
module Query {
  import opened Wrappers

  /** `find(filter)`: the documents that satisfy `p`, each as often as it is stored. */
  function Filter<T(!new)>(s: seq<T>, p: T -> bool): (r: seq<T>)
    ensures forall x :: x in r ==> p(x)
    ensures forall x :: multiset(r)[x] == if p(x) then multiset(s)[x] else 0
  {
    if s == [] then []
    else
      assert s == [s[0]] + s[1..];
      var rest := Filter(s[1..], p);
      if p(s[0]) then [s[0]] + rest else rest
  }

  /** Keeps the relative order of the documents it keeps. */
  lemma {:induction false} FilterAppend<T(!new)>(a: seq<T>, b: seq<T>, p: T -> bool)
    ensures Filter(a + b, p) == Filter(a, p) + Filter(b, p)
  {
    if a == [] {
      assert a + b == b;
    } else {
      assert (a + b)[0] == a[0] && (a + b)[1..] == a[1..] + b;
      FilterAppend(a[1..], b, p);
    }
  }

  /** Filtering by `p` and then by `q` is filtering by both. */
  lemma {:induction false} FilterTwice<T(!new)>(s: seq<T>, p: T -> bool, q: T -> bool)
    requires forall x :: q(x) ==> p(x)
    ensures Filter(Filter(s, p), q) == Filter(s, q)
  {
    if s != [] {
      FilterTwice(s[1..], p, q);
    }
  }

  /** Nothing is kept when nothing matches. */
  lemma FilterNone<T(!new)>(s: seq<T>, p: T -> bool)
    requires forall x :: x in s ==> !p(x)
    ensures Filter(s, p) == []
  {
  }

  /** Largest key first. */
  ghost predicate SortedDesc<T>(s: seq<T>, key: T -> int) {
    forall i, j :: 0 <= i < j < |s| ==> key(s[i]) >= key(s[j])
  }

  /** A head no smaller than the first element keeps a descending sequence descending. */
  lemma ConsSorted<T>(h: T, t: seq<T>, key: T -> int)
    requires SortedDesc(t, key)
    requires t != [] ==> key(h) >= key(t[0])
    ensures SortedDesc([h] + t, key)
  {
    var r := [h] + t;
    forall i, j | 0 <= i < j < |r| ensures key(r[i]) >= key(r[j]) {
      if i == 0 && j > 1 {
        assert key(t[0]) >= key(t[j - 1]);
      }
    }
  }

  /** Places `x` in front of the first element whose key does not exceed its own. */
  function Insert<T>(x: T, s: seq<T>, key: T -> int): (r: seq<T>)
    ensures multiset(r) == multiset(s) + multiset{x}
    ensures r[0] == x || (s != [] && r[0] == s[0])
    ensures SortedDesc(s, key) ==> SortedDesc(r, key)
  {
    if s == [] || key(x) >= key(s[0]) then
      assert SortedDesc(s, key) ==> SortedDesc([x] + s, key) by {
        if SortedDesc(s, key) { ConsSorted(x, s, key); }
      }
      [x] + s
    else
      assert s == [s[0]] + s[1..];
      var rest := Insert(x, s[1..], key);
      assert SortedDesc(s, key) ==> SortedDesc([s[0]] + rest, key) by {
        if SortedDesc(s, key) {
          assert SortedDesc(s[1..], key);
          assert s[1..] != [] ==> key(s[0]) >= key(s[1..][0]);
          ConsSorted(s[0], rest, key);
        }
      }
      [s[0]] + rest
  }

  /** `.sort({ key: -1 })`: a permutation of `s` in descending key order (ties keep stored order). */
  function SortDesc<T>(s: seq<T>, key: T -> int): (r: seq<T>)
    ensures multiset(r) == multiset(s)
    ensures SortedDesc(r, key)
  {
    if s == [] then []
    else
      assert s == [s[0]] + s[1..];
      Insert(s[0], SortDesc(s[1..], key), key)
  }

  /** `find(p).sort({ key: -1 })`. */
  function FindSorted<T(!new)>(s: seq<T>, p: T -> bool, key: T -> int): seq<T> {
    SortDesc(Filter(s, p), key)
  }

  /** The documents of a sorted query are exactly the matching ones, largest key first. */
  lemma FindSortedSpec<T(!new)>(s: seq<T>, p: T -> bool, key: T -> int)
    ensures SortedDesc(FindSorted(s, p, key), key)
    ensures forall x :: x in FindSorted(s, p, key) <==> x in s && p(x)
    ensures forall x :: multiset(FindSorted(s, p, key))[x] == if p(x) then multiset(s)[x] else 0
  {
    var f := Filter(s, p);
    var r := FindSorted(s, p, key);
    forall x ensures x in r <==> x in s && p(x) {
      assert x in r <==> multiset(r)[x] > 0;
      assert x in s <==> multiset(s)[x] > 0;
    }
  }

  /** `findOne(p).sort({ key: -1 })`: the first document of the sorted query, if any. */
  function FindOneSorted<T(!new)>(s: seq<T>, p: T -> bool, key: T -> int): Option<T> {
    var r := FindSorted(s, p, key);
    if r == [] then None else Some(r[0])
  }

  /** `findOne` with a descending sort yields nothing exactly when nothing matches, and otherwise a
      matching document whose key is the greatest among the matching ones. */
  lemma {:induction false} FindOneSortedSpec<T(!new)>(s: seq<T>, p: T -> bool, key: T -> int)
    ensures FindOneSorted(s, p, key).None? <==> forall x :: x in s ==> !p(x)
    ensures FindOneSorted(s, p, key).Some? ==>
      var y := FindOneSorted(s, p, key).value;
      y in s && p(y) && forall x :: x in s && p(x) ==> key(x) <= key(y)
  {
    FindSortedSpec(s, p, key);
    var r := FindSorted(s, p, key);
    if r != [] {
      assert r[0] in r;
      forall x | x in s && p(x) ensures key(x) <= key(r[0]) {
        var j :| 0 <= j < |r| && r[j] == x;
        if j > 0 { assert key(r[0]) >= key(r[j]); }
      }
    }
  }

  /** `Array.prototype.find`: the index of the first element satisfying `p`, if any. */
  function FindIndex<T>(s: seq<T>, p: T -> bool): (r: Option<nat>)
    ensures r.None? <==> forall i :: 0 <= i < |s| ==> !p(s[i])
    ensures r.Some? ==> r.value < |s| && p(s[r.value]) && forall i :: 0 <= i < r.value ==> !p(s[i])
  {
    if s == [] then None
    else if p(s[0]) then Some(0)
    else match FindIndex(s[1..], p)
      case None => None
      case Some(k) => Some(k + 1)
  }

  /** `Array.prototype.find`: the first element satisfying `p`, if any. */
  function Find<T>(s: seq<T>, p: T -> bool): (r: Option<T>)
    ensures r.None? <==> forall i :: 0 <= i < |s| ==> !p(s[i])
    ensures r.Some? ==> r.value in s && p(r.value)
  {
    match FindIndex(s, p)
    case None => None
    case Some(k) => Some(s[k])
  }
}
