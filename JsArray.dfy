/**
 * The JavaScript array built-ins that the storefront's logic is written with
 * (`filter`, `map`, `findIndex`/`find`, `slice` and `Array.from(new Set(...))`),
 * as functions over sequences, with the facts about them that the other
 * modules use.
 */
module JsArray {

  /** `s` holds no two elements with the same `key`. */
  ghost predicate UniqueBy<T, K>(s: seq<T>, key: T -> K) {
    forall i, j :: 0 <= i < j < |s| ==> key(s[i]) != key(s[j])
  }

  /** `s` holds no element twice. */
  ghost predicate NoDuplicates<T>(s: seq<T>) {
    forall i, j :: 0 <= i < j < |s| ==> s[i] != s[j]
  }

  /** `r` is `s` with some elements left out and the rest in their original order. */
  ghost predicate IsSubsequence<T>(r: seq<T>, s: seq<T>)
    decreases |s|
  {
    if r == [] then true
    else if s == [] then false
    else (r[0] == s[0] && IsSubsequence(r[1..], s[1..])) || IsSubsequence(r, s[1..])
  }

  /** `Array.prototype.filter`: the elements of `s` that `keep` accepts. */
  function Filter<T>(s: seq<T>, keep: T -> bool): (r: seq<T>)
    ensures |r| <= |s|
  {
    if s == [] then []
    else (if keep(s[0]) then [s[0]] else []) + Filter(s[1..], keep)
  }

  /** The filtered sequence holds exactly the accepted elements. */
  lemma {:induction false} FilterMembers<T>(s: seq<T>, keep: T -> bool)
    ensures forall i :: 0 <= i < |Filter(s, keep)| ==> Filter(s, keep)[i] in s && keep(Filter(s, keep)[i])
    ensures forall i :: 0 <= i < |s| && keep(s[i]) ==> s[i] in Filter(s, keep)
  {
    if s != [] {
      FilterMembers(s[1..], keep);
      var r := Filter(s, keep);
      var rest := Filter(s[1..], keep);
      assert forall i :: 0 <= i < |rest| ==> rest[i] in s;
      assert forall i :: 1 <= i < |s| ==> s[i] == s[1..][i - 1];
    }
  }

  /** Filtering keeps every copy of an accepted value and no copy of a rejected one. */
  lemma {:induction false} FilterMultiset<T>(s: seq<T>, keep: T -> bool)
    ensures forall x :: multiset(Filter(s, keep))[x] == if keep(x) then multiset(s)[x] else 0
  {
    if s != [] {
      FilterMultiset(s[1..], keep);
      var head := if keep(s[0]) then [s[0]] else [];
      assert s == [s[0]] + s[1..];
      assert multiset(s) == multiset([s[0]]) + multiset(s[1..]);
      assert multiset(Filter(s, keep)) == multiset(head) + multiset(Filter(s[1..], keep));
    }
  }

  lemma {:induction false} FilterIsSubsequence<T>(s: seq<T>, keep: T -> bool)
    ensures IsSubsequence(Filter(s, keep), s)
  {
    if s != [] {
      FilterIsSubsequence(s[1..], keep);
      var r := Filter(s, keep);
      if keep(s[0]) {
        assert r == [s[0]] + Filter(s[1..], keep);
        assert r[1..] == Filter(s[1..], keep);
      } else {
        assert r == Filter(s[1..], keep);
      }
    }
  }

  lemma {:induction false} FilterAppend<T>(a: seq<T>, b: seq<T>, keep: T -> bool)
    ensures Filter(a + b, keep) == Filter(a, keep) + Filter(b, keep)
  {
    if a == [] {
      assert a + b == b;
    } else {
      var head := if keep(a[0]) then [a[0]] else [];
      assert (a + b)[0] == a[0];
      assert (a + b)[1..] == a[1..] + b;
      assert Filter(a + b, keep) == head + Filter(a[1..] + b, keep);
      FilterAppend(a[1..], b, keep);
      assert Filter(a, keep) == head + Filter(a[1..], keep);
    }
  }

  lemma {:induction false} FilterAllKept<T>(s: seq<T>, keep: T -> bool)
    requires forall i :: 0 <= i < |s| ==> keep(s[i])
    ensures Filter(s, keep) == s
  {
    if s != [] {
      FilterAllKept(s[1..], keep);
      assert [s[0]] + s[1..] == s;
    }
  }

  /** When `keep` accepts every element but possibly the one at `k`, filtering can only drop that one. */
  lemma {:induction false} FilterAllButOne<T>(s: seq<T>, k: nat, keep: T -> bool)
    requires k < |s|
    requires forall j :: 0 <= j < |s| && j != k ==> keep(s[j])
    ensures Filter(s, keep) == s[..k] + (if keep(s[k]) then [s[k]] else []) + s[k + 1..]
  {
    var tail := s[1..];
    if k == 0 {
      assert forall j :: 0 <= j < |tail| ==> tail[j] == s[j + 1];
      FilterAllKept(tail, keep);
    } else {
      assert forall j :: 0 <= j < |tail| && j != k - 1 ==> tail[j] == s[j + 1];
      FilterAllButOne(tail, k - 1, keep);
      assert [s[0]] + tail[..k - 1] == s[..k];
      assert tail[k..] == s[k + 1..];
    }
  }

  lemma {:induction false} FilterKeepsUniqueBy<T, K>(s: seq<T>, keep: T -> bool, key: T -> K)
    requires UniqueBy(s, key)
    ensures UniqueBy(Filter(s, keep), key)
  {
    if s != [] {
      var rest := Filter(s[1..], keep);
      FilterKeepsUniqueBy(s[1..], keep, key);
      FilterMembers(s[1..], keep);
      if keep(s[0]) {
        var r := [s[0]] + rest;
        forall i, j | 0 <= i < j < |r| ensures key(r[i]) != key(r[j]) {
          if i == 0 {
            assert r[j] in s[1..];
            var m :| 0 <= m < |s[1..]| && s[1..][m] == r[j];
            assert s[m + 1] == r[j];
          } else {
            assert r[i] == rest[i - 1] && r[j] == rest[j - 1];
          }
        }
      }
    }
  }

  /** `Array.prototype.map`. */
  function Map<T, U>(s: seq<T>, f: T -> U): (r: seq<U>)
    ensures |r| == |s|
    ensures forall i :: 0 <= i < |s| ==> r[i] == f(s[i])
  {
    if s == [] then [] else [f(s[0])] + Map(s[1..], f)
  }

  lemma MapKeepsUniqueBy<T, K>(s: seq<T>, f: T -> T, key: T -> K)
    requires forall x :: key(f(x)) == key(x)
    requires UniqueBy(s, key)
    ensures UniqueBy(Map(s, f), key)
  {
  }

  /** `Array.prototype.findIndex`: the first position whose element `p` accepts, or -1. */
  function FindIndex<T>(s: seq<T>, p: T -> bool): (k: int)
    ensures -1 <= k < |s|
    ensures 0 <= k ==> p(s[k]) && forall j :: 0 <= j < k ==> !p(s[j])
    ensures k == -1 ==> forall j :: 0 <= j < |s| ==> !p(s[j])
  {
    if s == [] then -1
    else if p(s[0]) then 0
    else
      var k := FindIndex(s[1..], p);
      if k == -1 then -1 else k + 1
  }

  /** How `slice` reads one of its bounds: a negative one counts from the end, both are clamped to `[0, n]`. */
  function SliceBound(x: int, n: nat): (b: nat)
    ensures b <= n
    ensures 0 <= x <= n ==> b == x
    ensures n < x ==> b == n
  {
    if x < 0 then (if n + x < 0 then 0 else n + x)
    else if x > n then n
    else x
  }

  /** `Array.prototype.slice(start, end)` with integer arguments. */
  function Slice<T>(s: seq<T>, start: int, end: int): (r: seq<T>)
    ensures |r| <= |s|
    ensures 0 <= start <= end ==> |r| <= end - start
    ensures 0 <= start <= end ==>
      r == s[(if start <= |s| then start else |s|)..(if end <= |s| then end else |s|)]
  {
    var from, to := SliceBound(start, |s|), SliceBound(end, |s|);
    if from < to then s[from..to] else []
  }

  /**
   * `Array.from(new Set(s))` once the values in `seen` are in the set:
   * every value not yet seen, at its first occurrence, in order.
   */
  function DistinctFrom<T(==)>(s: seq<T>, seen: set<T>): (r: seq<T>)
    ensures forall i :: 0 <= i < |r| ==> r[i] in s && r[i] !in seen
    ensures forall i :: 0 <= i < |s| && s[i] !in seen ==> s[i] in r
    ensures NoDuplicates(r)
    ensures IsSubsequence(r, s)
  {
    if s == [] then []
    else if s[0] in seen then
      var r := DistinctFrom(s[1..], seen);
      assert r != [] ==> IsSubsequence(r, s[1..]);
      r
    else
      var rest := DistinctFrom(s[1..], seen + {s[0]});
      var r := [s[0]] + rest;
      assert r[1..] == rest;
      assert forall j :: 0 < j < |r| ==> r[j] == rest[j - 1] && r[j] != s[0];
      r
  }

  /** `s.indexOf(x)`: the first position holding `x`, or -1 when there is none. */
  function IndexOf<T(==)>(s: seq<T>, x: T): (k: int)
    ensures -1 <= k < |s|
    ensures 0 <= k ==> s[k] == x && forall j :: 0 <= j < k ==> s[j] != x
    ensures k == -1 ==> x !in s
  {
    if s == [] then -1
    else if s[0] == x then 0
    else
      var k := IndexOf(s[1..], x);
      if k < 0 then -1 else k + 1
  }

  /** Past a different head, a value's first position is one more than in the tail. */
  lemma IndexOfPastHead<T>(s: seq<T>, x: T)
    requires s != [] && s[0] != x && x in s[1..]
    ensures IndexOf(s, x) == IndexOf(s[1..], x) + 1
  {
  }

  /** The values `DistinctFrom` keeps come out in the order of their first occurrence in `s`. */
  lemma {:induction false} DistinctFromFirstOccurrenceOrder<T>(s: seq<T>, seen: set<T>)
    ensures forall i, j :: 0 <= i < j < |DistinctFrom(s, seen)| ==>
      IndexOf(s, DistinctFrom(s, seen)[i]) < IndexOf(s, DistinctFrom(s, seen)[j])
  {
    if s != [] {
      var r := DistinctFrom(s, seen);
      var seen' := if s[0] in seen then seen else seen + {s[0]};
      var rest := DistinctFrom(s[1..], seen');
      DistinctFromFirstOccurrenceOrder(s[1..], seen');
      forall i | 0 <= i < |rest| ensures IndexOf(s, rest[i]) == IndexOf(s[1..], rest[i]) + 1 {
        IndexOfPastHead(s, rest[i]);
      }
      if s[0] in seen {
        assert r == rest;
      } else {
        assert r == [s[0]] + rest;
        forall i, j | 0 <= i < j < |r| ensures IndexOf(s, r[i]) < IndexOf(s, r[j]) {
          assert r[j] == rest[j - 1];
          if i > 0 {
            assert r[i] == rest[i - 1];
          }
        }
      }
    }
  }

  /** `Array.from(new Set(s))`: every value of `s` once, in the order of its first occurrence. */
  function Distinct<T(==)>(s: seq<T>): (r: seq<T>)
    ensures forall i :: 0 <= i < |r| ==> r[i] in s
    ensures forall i :: 0 <= i < |s| ==> s[i] in r
    ensures NoDuplicates(r)
    ensures IsSubsequence(r, s)
    ensures forall i, j :: 0 <= i < j < |r| ==> IndexOf(s, r[i]) < IndexOf(s, r[j])
  {
    DistinctFromFirstOccurrenceOrder(s, {});
    DistinctFrom(s, {})
  }
}
