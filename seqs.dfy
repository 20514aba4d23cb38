/** What the document store does with a query result: select by a
    predicate (`find(filter)`), find the first match (`findOne`) and
    order by a descending sort key (`sort({ field: -1, ... })`). */
module Seqs {
  import opened Wrappers

  /** The documents of `s` that satisfy `p`, in their stored order. */
  function Filter<T(==)>(s: seq<T>, p: T -> bool): (r: seq<T>)
    ensures |r| <= |s|
    ensures forall x :: x in r ==> x in s && p(x)
    ensures forall i :: 0 <= i < |s| && p(s[i]) ==> s[i] in r
    ensures (forall i :: 0 <= i < |s| ==> p(s[i])) ==> r == s
  {
    if |s| == 0 then []
    else if p(s[0]) then [s[0]] + Filter(s[1..], p)
    else Filter(s[1..], p)
  }

  /** The number of documents of `s` that satisfy `p` (`countDocuments`). */
  function Count<T(==)>(s: seq<T>, p: T -> bool): nat {
    |Filter(s, p)|
  }

  /** Nothing is selected when no document satisfies `p`. */
  lemma {:induction false} FilterNone<T>(s: seq<T>, p: T -> bool)
    requires forall i :: 0 <= i < |s| ==> !p(s[i])
    ensures Filter(s, p) == []
  {
    if |s| > 0 {
      FilterNone(s[1..], p);
    }
  }

  /** Two predicates that agree everywhere select the same elements. */
  lemma {:induction false} FilterSamePredicate<T>(s: seq<T>, p: T -> bool, q: T -> bool)
    requires forall x :: p(x) == q(x)
    ensures Filter(s, p) == Filter(s, q)
  {
    if |s| > 0 {
      FilterSamePredicate(s[1..], p, q);
    }
  }

  /** Selecting by `q` within a selection by a weaker `p` is selecting by
      `q` alone. */
  lemma {:induction false} FilterOfFilter<T>(s: seq<T>, p: T -> bool, q: T -> bool)
    requires forall x :: q(x) ==> p(x)
    ensures Filter(Filter(s, p), q) == Filter(s, q)
  {
    if |s| > 0 {
      FilterOfFilter(s[1..], p, q);
    }
  }

  /** The index of the first document of `s` that satisfies `p`. */
  function FindFirst<T>(s: seq<T>, p: T -> bool): (r: Option<nat>)
    ensures r.Some? ==> r.value < |s| && p(s[r.value])
    ensures r.Some? ==> forall j :: 0 <= j < r.value ==> !p(s[j])
    ensures r.None? ==> forall j :: 0 <= j < |s| ==> !p(s[j])
  {
    if |s| == 0 then None
    else if p(s[0]) then Some(0)
    else match FindFirst(s[1..], p)
      case None => None
      case Some(k) => Some(k + 1)
  }

  /** A search whose predicate gives the same answer on every document of
      two equally long sequences finds the same index in both. */
  lemma FindFirstAgrees<T>(s: seq<T>, t: seq<T>, p: T -> bool)
    requires |s| == |t|
    requires forall i :: 0 <= i < |s| ==> p(s[i]) == p(t[i])
    ensures FindFirst(s, p) == FindFirst(t, p)
  {
  }

  /** A two-level sort key; documents are ordered by `primary`, then by
      `secondary`. */
  datatype Key = Key(primary: int, secondary: int)

  predicate KeyLe(a: Key, b: Key) {
    a.primary < b.primary || (a.primary == b.primary && a.secondary <= b.secondary)
  }

  /** `s` lists the largest key first. */
  ghost predicate SortedDesc<T>(s: seq<T>, key: T -> Key) {
    forall i, j :: 0 <= i < j < |s| ==> KeyLe(key(s[j]), key(s[i]))
  }

  /** `x` placed into the descending sequence `s` before the first
      document whose key is not larger than its own. */
  function Insert<T(==)>(x: T, s: seq<T>, key: T -> Key): (r: seq<T>)
    requires SortedDesc(s, key)
    ensures |r| == |s| + 1
    ensures forall i :: 0 <= i < |r| ==> r[i] == x || r[i] in s
    ensures SortedDesc(r, key)
    ensures multiset(r) == multiset(s) + multiset{x}
  {
    if |s| == 0 then [x]
    else if KeyLe(key(s[0]), key(x)) then [x] + s
    else
      var rest := Insert(x, s[1..], key);
      var r := [s[0]] + rest;
      assert forall i :: 0 < i < |r| ==> KeyLe(key(r[i]), key(s[0])) by {
        forall i | 0 < i < |r|
          ensures KeyLe(key(r[i]), key(s[0]))
        {
          assert r[i] == rest[i - 1];
          if rest[i - 1] != x {
            var k :| 0 <= k < |s[1..]| && s[1..][k] == rest[i - 1];
            assert s[k + 1] == r[i];
          }
        }
      }
      assert [s[0]] + s[1..] == s;
      r
  }

  /** The documents of `s`, largest key first (ties in an order the store
      leaves unspecified). */
  function SortDesc<T(==)>(s: seq<T>, key: T -> Key): (r: seq<T>)
    ensures SortedDesc(r, key)
    ensures multiset(r) == multiset(s)
    ensures |r| == |s|
  {
    if |s| == 0 then []
    else
      assert [s[0]] + s[1..] == s;
      Insert(s[0], SortDesc(s[1..], key), key)
  }
}
