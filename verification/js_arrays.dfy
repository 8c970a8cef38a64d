/**
 * The JavaScript array built-ins both core files rely on: `slice` with
 * negative indices, `find`, `filter`, the stable `sort`, and the iteration
 * order of a `Map` keyed by auto-increment ids.
 */
module JsArrays {
  import opened Wrappers

  /** An index argument of `slice` resolved against length `n`:
      negative values count from the end, and the result is clamped to [0, n]. */
  function ResolveIndex(k: int, n: nat): (i: nat)
    ensures i <= n
  {
    if k < 0 then (if n + k < 0 then 0 else n + k)
    else if k > n then n
    else k
  }

  /** `s.slice(start, end)`. */
  function Slice<T>(s: seq<T>, start: int, end: int): (r: seq<T>)
    ensures |r| <= |s|
  {
    var b, e := ResolveIndex(start, |s|), ResolveIndex(end, |s|);
    if b < e then s[b..e] else []
  }

  /** `s.slice(0, k)` for a positive `k` keeps the first `k` elements (all of them when `k >= |s|`);
      for a negative `k` it drops the last `-k`. */
  lemma {:induction false} SliceFromStart<T>(s: seq<T>, k: int)
    ensures 0 <= k ==> Slice(s, 0, k) == s[..if k < |s| then k else |s|]
    ensures k < 0 ==> Slice(s, 0, k) == s[..if |s| + k < 0 then 0 else |s| + k]
  {
  }

  /** `s.find(p)`: the first element satisfying `p`, if any. */
  function Find<T>(s: seq<T>, p: T -> bool): (r: Option<T>)
    ensures r.None? <==> forall i :: 0 <= i < |s| ==> !p(s[i])
    ensures r.Some? ==> exists i :: 0 <= i < |s| && s[i] == r.value && p(s[i]) &&
                                    forall j :: 0 <= j < i ==> !p(s[j])
  {
    if |s| == 0 then None
    else if p(s[0]) then Some(s[0])
    else
      var r := Find(s[1..], p);
      assert r.Some? ==> exists i :: 1 <= i < |s| && s[i] == r.value && p(s[i]) &&
                                     forall j :: 0 <= j < i ==> !p(s[j]) by {
        if r.Some? {
          var i :| 0 <= i < |s| - 1 && s[1..][i] == r.value && p(s[1..][i]) &&
                   forall j :: 0 <= j < i ==> !p(s[1..][j]);
          assert forall j :: 0 <= j < i + 1 ==> !p(s[j]) by {
            forall j | 0 <= j < i + 1 ensures !p(s[j]) {
              if j > 0 { assert s[j] == s[1..][j - 1]; }
            }
          }
        }
      }
      r
  }

  /** `s.filter(p)`: the elements of `s` satisfying `p`, in their original order. */
  function Filter<T(!new)>(s: seq<T>, p: T -> bool): (r: seq<T>)
    ensures |r| <= |s|
    ensures forall x :: x in r <==> x in s && p(x)
    ensures multiset(r) <= multiset(s)
  {
    if |s| == 0 then []
    else
      var rest := Filter(s[1..], p);
      assert s == [s[0]] + s[1..];
      if p(s[0]) then [s[0]] + rest else rest
  }

  /** No value occurs twice. */
  ghost predicate Distinct<T>(s: seq<T>) {
    forall i, j :: 0 <= i < j < |s| ==> s[i] != s[j]
  }

  /** Ascending by `key`. */
  ghost predicate SortedBy<T>(s: seq<T>, key: T -> int) {
    forall i, j :: 0 <= i < j < |s| ==> key(s[i]) <= key(s[j])
  }

  /** A sorted sequence stays sorted with an element in front that is not above its head. */
  lemma SortedCons<T>(a: T, s: seq<T>, key: T -> int)
    requires SortedBy(s, key) && (|s| == 0 || key(a) <= key(s[0]))
    ensures SortedBy([a] + s, key)
  {
    var r := [a] + s;
    forall i, j | 0 <= i < j < |r| ensures key(r[i]) <= key(r[j]) {
      if i == 0 {
        assert r[j] == s[j - 1] && key(s[0]) <= key(s[j - 1]);
      } else {
        assert r[i] == s[i - 1] && r[j] == s[j - 1];
      }
    }
  }

  lemma SortedTail<T>(s: seq<T>, key: T -> int)
    requires |s| > 0 && SortedBy(s, key)
    ensures SortedBy(s[1..], key)
  {
    var t := s[1..];
    forall i, j | 0 <= i < j < |t| ensures key(t[i]) <= key(t[j]) {
      assert t[i] == s[i + 1] && t[j] == s[j + 1];
    }
  }

  /** One step of a stable insertion sort: `x` goes in front of the first element whose key is not smaller. */
  function InsertBy<T>(x: T, s: seq<T>, key: T -> int): (r: seq<T>)
    requires SortedBy(s, key)
    ensures SortedBy(r, key)
    ensures multiset(r) == multiset(s) + multiset{x}
    ensures |r| == |s| + 1
    ensures r[0] == x || (|s| > 0 && r[0] == s[0])
  {
    if |s| == 0 || key(x) <= key(s[0]) then
      SortedCons(x, s, key);
      [x] + s
    else
      SortedTail(s, key);
      var rest := InsertBy(x, s[1..], key);
      assert s == [s[0]] + s[1..];
      assert |s| > 1 ==> key(s[0]) <= key(s[1]);
      SortedCons(s[0], rest, key);
      [s[0]] + rest
  }

  /** `s.sort((a, b) => key(a) - key(b))`: a stable sort, ascending by `key`, that permutes `s`. */
  function SortBy<T>(s: seq<T>, key: T -> int): (r: seq<T>)
    ensures SortedBy(r, key)
    ensures multiset(r) == multiset(s)
    ensures |r| == |s|
  {
    if |s| == 0 then []
    else
      assert s == [s[0]] + s[1..];
      InsertBy(s[0], SortBy(s[1..], key), key)
  }

  /** Same multiset means same members. */
  lemma SameMembers<T(!new)>(r: seq<T>, s: seq<T>)
    requires multiset(r) == multiset(s)
    ensures forall x :: x in r <==> x in s
  {
    forall x ensures x in r <==> x in s {
      assert x in r <==> x in multiset(r);
      assert x in s <==> x in multiset(s);
    }
  }

  /** The keys of `m` in [lo, hi), ascending: the iteration order of a JavaScript `Map`
      whose keys were inserted in increasing order. */
  function KeysInOrder<V>(m: map<int, V>, lo: int, hi: int): (ks: seq<int>)
    decreases hi - lo
    ensures forall i :: 0 <= i < |ks| ==> ks[i] in m && lo <= ks[i] < hi
    ensures forall k :: k in m && lo <= k < hi ==> k in ks
    ensures forall i, j :: 0 <= i < j < |ks| ==> ks[i] < ks[j]
  {
    if lo >= hi then []
    else if lo in m then [lo] + KeysInOrder(m, lo + 1, hi)
    else KeysInOrder(m, lo + 1, hi)
  }

  /** `Array.from(m.values())` for a map whose keys all lie in [lo, hi). */
  function ValuesInKeyOrder<V(==,!new)>(m: map<int, V>, lo: int, hi: int): (r: seq<V>)
    ensures forall x :: x in r ==> x in m.Values
  {
    var ks := KeysInOrder(m, lo, hi);
    seq(|ks|, i requires 0 <= i < |ks| => m[ks[i]])
  }

  /** Every value is keyed by its own id. */
  ghost predicate KeyedById<V>(m: map<int, V>, id: V -> int) {
    forall k :: k in m ==> id(m[k]) == k
  }

  /** When every record sits under its own id and every id lies in [lo, hi), the
      enumeration lists each stored record exactly once, in ascending id order. */
  lemma ValuesInKeyOrderExact<V(!new)>(m: map<int, V>, id: V -> int, lo: int, hi: int)
    requires KeyedById(m, id)
    requires forall k :: k in m ==> lo <= k < hi
    ensures forall x :: x in ValuesInKeyOrder(m, lo, hi) <==> x in m.Values
    ensures IncreasingBy(ValuesInKeyOrder(m, lo, hi), id)
  {
    var ks := KeysInOrder(m, lo, hi);
    var r := ValuesInKeyOrder(m, lo, hi);
    forall x | x in m.Values ensures x in r {
      var k :| k in m && m[k] == x;
      var i :| 0 <= i < |ks| && ks[i] == k;
      assert r[i] == x;
    }
    forall i, j | 0 <= i < j < |r| ensures id(r[i]) < id(r[j]) {
      assert id(r[i]) == ks[i] && id(r[j]) == ks[j];
    }
  }

  /** Strictly ascending by `id`. */
  ghost predicate IncreasingBy<T>(s: seq<T>, id: T -> int) {
    forall i, j :: 0 <= i < j < |s| ==> id(s[i]) < id(s[j])
  }

  lemma TailIncreasing<T>(s: seq<T>, id: T -> int)
    requires |s| > 0 && IncreasingBy(s, id)
    ensures IncreasingBy(s[1..], id)
    ensures forall y :: y in s[1..] ==> id(s[0]) < id(y)
  {
    var t := s[1..];
    forall i, j | 0 <= i < j < |t| ensures id(t[i]) < id(t[j]) {
      assert t[i] == s[i + 1] && t[j] == s[j + 1];
    }
    forall y | y in t ensures id(s[0]) < id(y) {
      var k :| 0 <= k < |t| && t[k] == y;
      assert t[k] == s[k + 1];
    }
  }

  lemma ConsIncreasing<T>(a: T, s: seq<T>, id: T -> int)
    requires IncreasingBy(s, id)
    requires forall y :: y in s ==> id(a) < id(y)
    ensures IncreasingBy([a] + s, id)
  {
    var r := [a] + s;
    forall i, j | 0 <= i < j < |r| ensures id(r[i]) < id(r[j]) {
      if i == 0 {
        assert r[j] == s[j - 1] && r[j] in s;
      } else {
        assert r[i] == s[i - 1] && r[j] == s[j - 1];
      }
    }
  }

  lemma {:induction false} FilterKeepsIncreasing<T(!new)>(s: seq<T>, p: T -> bool, id: T -> int)
    requires IncreasingBy(s, id)
    ensures IncreasingBy(Filter(s, p), id)
  {
    if |s| > 0 {
      var t := s[1..];
      TailIncreasing(s, id);
      FilterKeepsIncreasing(t, p, id);
      var rest := Filter(t, p);
      if p(s[0]) {
        assert Filter(s, p) == [s[0]] + rest;
        ConsIncreasing(s[0], rest, id);
      } else {
        assert Filter(s, p) == rest;
      }
    }
  }

  /** `a` comes strictly before `b`: a smaller key, or the same key and a smaller id. */
  predicate Before<T>(a: T, b: T, key: T -> int, id: T -> int) {
    key(a) < key(b) || (key(a) == key(b) && id(a) < id(b))
  }

  /** Ascending by `key`, and records with equal keys in ascending `id` order. */
  ghost predicate OrderedBy<T>(s: seq<T>, key: T -> int, id: T -> int) {
    forall i, j :: 0 <= i < j < |s| ==> Before(s[i], s[j], key, id)
  }

  /** Putting in front an element that comes before every other keeps the order. */
  lemma ConsOrdered<T>(a: T, s: seq<T>, key: T -> int, id: T -> int)
    requires OrderedBy(s, key, id)
    requires forall j :: 0 <= j < |s| ==> Before(a, s[j], key, id)
    ensures OrderedBy([a] + s, key, id)
  {
    var r := [a] + s;
    forall i, j | 0 <= i < j < |r| ensures Before(r[i], r[j], key, id) {
      if i == 0 {
        assert r[j] == s[j - 1];
      } else {
        assert r[i] == s[i - 1] && r[j] == s[j - 1];
      }
    }
  }

  lemma InsertByOrdered<T>(x: T, s: seq<T>, key: T -> int, id: T -> int)
    requires SortedBy(s, key) && OrderedBy(s, key, id)
    requires forall y :: y in s ==> id(x) < id(y)
    ensures OrderedBy(InsertBy(x, s, key), key, id)
  {
    if |s| == 0 || key(x) <= key(s[0]) {
      forall j | 0 <= j < |s| ensures Before(x, s[j], key, id) {
        assert s[j] in s;
      }
      ConsOrdered(x, s, key, id);
    } else {
      var t := s[1..];
      assert SortedBy(t, key) && OrderedBy(t, key, id) by {
        forall i, j | 0 <= i < j < |t| ensures key(t[i]) <= key(t[j]) && Before(t[i], t[j], key, id) {
          assert t[i] == s[i + 1] && t[j] == s[j + 1];
        }
      }
      forall y | y in t ensures id(x) < id(y) {
        assert y in s;
      }
      InsertByOrdered(x, t, key, id);
      var rest := InsertBy(x, t, key);
      forall j | 0 <= j < |rest| ensures Before(s[0], rest[j], key, id) {
        assert rest[j] in multiset(rest);
        if rest[j] != x {
          assert rest[j] in multiset(t);
          var k :| 0 <= k < |t| && t[k] == rest[j];
          assert t[k] == s[k + 1];
        }
      }
      ConsOrdered(s[0], rest, key, id);
    }
  }

  /** The sort is stable: when `s` is in ascending `id` order, records with equal keys
      keep that order in the result. */
  lemma {:induction false} SortByStable<T>(s: seq<T>, key: T -> int, id: T -> int)
    requires IncreasingBy(s, id)
    ensures OrderedBy(SortBy(s, key), key, id)
  {
    if |s| > 0 {
      var t := s[1..];
      assert IncreasingBy(t, id) by {
        forall i, j | 0 <= i < j < |t| ensures id(t[i]) < id(t[j]) {
          assert t[i] == s[i + 1] && t[j] == s[j + 1];
        }
      }
      SortByStable(t, key, id);
      var sorted := SortBy(t, key);
      forall y | y in sorted ensures id(s[0]) < id(y) {
        assert y in multiset(sorted);
        assert y in multiset(t);
        var k :| 0 <= k < |t| && t[k] == y;
        assert t[k] == s[k + 1];
      }
      InsertByOrdered(s[0], sorted, key, id);
    }
  }

  lemma OrderedIsDistinct<T>(s: seq<T>, key: T -> int, id: T -> int)
    requires OrderedBy(s, key, id)
    ensures Distinct(s)
  {
    forall i, j | 0 <= i < j < |s| ensures s[i] != s[j] {
      assert Before(s[i], s[j], key, id);
    }
  }

  /** On a list in ascending `id` order, `find` returns the match with the lowest id. */
  lemma FindLowest<T>(s: seq<T>, p: T -> bool, id: T -> int)
    requires IncreasingBy(s, id)
    ensures Find(s, p).Some? ==>
      forall j :: 0 <= j < |s| && p(s[j]) ==> id(Find(s, p).value) <= id(s[j])
  {
    if Find(s, p).Some? {
      var i :| 0 <= i < |s| && s[i] == Find(s, p).value && p(s[i]) &&
               forall j :: 0 <= j < i ==> !p(s[j]);
      forall j | 0 <= j < |s| && p(s[j]) ensures id(s[i]) <= id(s[j]) {
        assert i <= j;
      }
    }
  }

  /** A prefix of an ordered list holds its first elements: nothing left out comes before
      anything kept. */
  lemma PrefixComesFirst<T>(kept: seq<T>, all: seq<T>, key: T -> int, id: T -> int)
    requires kept <= all && OrderedBy(all, key, id)
    ensures forall x, y :: x in kept && y in all && y !in kept ==> key(x) <= key(y)
  {
    forall x, y | x in kept && y in all && y !in kept ensures key(x) <= key(y) {
      var i :| 0 <= i < |kept| && kept[i] == x;
      var j :| 0 <= j < |all| && all[j] == y;
      assert forall k :: 0 <= k < |kept| ==> kept[k] == all[k];
      assert j >= |kept|;
      assert Before(all[i], all[j], key, id);
    }
  }

  lemma NoMembersEmpty<T>(s: seq<T>)
    ensures (forall x :: x !in s) ==> |s| == 0
  {
    if |s| > 0 {
      assert s[0] in s;
    }
  }

  /** The order is total on distinct ids: two sequences with the same members, both
      ordered, are equal. So a filter-and-sort result is determined by which records it
      holds. */
  lemma {:induction false} OrderedUnique<T(!new)>(r: seq<T>, s: seq<T>, key: T -> int, id: T -> int)
    requires OrderedBy(r, key, id) && OrderedBy(s, key, id)
    requires forall x :: x in r <==> x in s
    ensures r == s
  {
    if |r| == 0 || |s| == 0 {
      NoMembersEmpty(r);
      NoMembersEmpty(s);
    } else {
      assert r[0] in s && s[0] in r;
      var k :| 0 <= k < |s| && s[k] == r[0];
      var m :| 0 <= m < |r| && r[m] == s[0];
      assert k == 0 by {
        assert Before(s[0], s[k], key, id) || k == 0;
        assert Before(r[0], r[m], key, id) || m == 0;
      }
      assert r[0] == s[0];
      OrderedIsDistinct(r, key, id);
      OrderedIsDistinct(s, key, id);
      var r', s' := r[1..], s[1..];
      assert OrderedBy(r', key, id) by {
        forall i, j | 0 <= i < j < |r'| ensures Before(r'[i], r'[j], key, id) {
          assert r'[i] == r[i + 1] && r'[j] == r[j + 1];
        }
      }
      assert OrderedBy(s', key, id) by {
        forall i, j | 0 <= i < j < |s'| ensures Before(s'[i], s'[j], key, id) {
          assert s'[i] == s[i + 1] && s'[j] == s[j + 1];
        }
      }
      forall x ensures x in r' <==> x in s' {
        if x in r' {
          var i :| 0 <= i < |r'| && r'[i] == x;
          assert x == r[i + 1] && x != r[0];
          assert x in s;
          var j :| 0 <= j < |s| && s[j] == x;
          assert j != 0;
          assert s'[j - 1] == x;
        }
        if x in s' {
          var i :| 0 <= i < |s'| && s'[i] == x;
          assert x == s[i + 1] && x != s[0];
          assert x in r;
          var j :| 0 <= j < |r| && r[j] == x;
          assert j != 0;
          assert r'[j - 1] == x;
        }
      }
      OrderedUnique(r', s', key, id);
      assert r == [r[0]] + r' && s == [s[0]] + s';
    }
  }
}
