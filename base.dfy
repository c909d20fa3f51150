/** Generic building blocks shared by every other module: optional and fallible
    values, and the operations on tables (sequences of rows) that the rest of the
    model uses: lookup by key, insert-or-update by key, insertion sort by a key,
    and a keyed sum. */
module Base {

  datatype Option<T> = None | Some(value: T)

  datatype Result<T, E> = Ok(value: T) | Err(error: E)

  function Min(a: int, b: int): int
  {
    if a <= b then a else b
  }

  /** No two rows of `s` share a key. */
  ghost predicate UniqueBy<T, K>(s: seq<T>, key: T -> K)
  {
    forall i, j :: 0 <= i < j < |s| ==> key(s[i]) != key(s[j])
  }

  /** Every key in `s` is below `bound` (identifiers handed out by a counter). */
  ghost predicate KeysBelow<T>(s: seq<T>, key: T -> nat, bound: nat)
  {
    forall i :: 0 <= i < |s| ==> key(s[i]) < bound
  }

  /** Position of the first row whose key is `k`. */
  function IndexOfKey<T, K(==)>(s: seq<T>, key: T -> K, k: K): (r: Option<nat>)
    ensures r.Some? ==> r.value < |s| && key(s[r.value]) == k
    ensures r.Some? ==> forall j :: 0 <= j < r.value ==> key(s[j]) != k
    ensures r.None? <==> forall j :: 0 <= j < |s| ==> key(s[j]) != k
  {
    if |s| == 0 then None
    else if key(s[0]) == k then Some(0)
    else
      match IndexOfKey(s[1..], key, k)
      case None =>
        assert forall j :: 1 <= j < |s| ==> s[j] == s[1..][j - 1];
        None
      case Some(i) =>
        assert forall j :: 1 <= j < i + 1 ==> s[j] == s[1..][j - 1];
        Some(i + 1)
  }

  /** With distinct keys, a row's key finds that row. */
  lemma IndexOfKeyUnique<T, K>(s: seq<T>, key: T -> K, i: nat)
    requires UniqueBy(s, key) && i < |s|
    ensures IndexOfKey(s, key, key(s[i])) == Some(i)
  {
  }

  /** Saving a row: it replaces the row with the same key, or is appended. */
  function Upsert<T, K(==)>(s: seq<T>, x: T, key: T -> K): seq<T>
  {
    match IndexOfKey(s, key, key(x))
    case Some(i) => s[i := x]
    case None => s + [x]
  }

  lemma UpsertContents<T, K>(s: seq<T>, x: T, key: T -> K)
    requires UniqueBy(s, key)
    ensures forall y :: y in Upsert(s, x, key) <==> y == x || (y in s && key(y) != key(x))
    ensures UniqueBy(Upsert(s, x, key), key)
    ensures |Upsert(s, x, key)| == if key(x) in Keys(s, key) then |s| else |s| + 1
  {
    var r := Upsert(s, x, key);
    match IndexOfKey(s, key, key(x))
    case Some(i) =>
      assert r == s[i := x];
      forall y
        ensures y in r <==> y == x || (y in s && key(y) != key(x))
      {
        assert r[i] == x;
        if y in s && key(y) != key(x) {
          var j :| 0 <= j < |s| && s[j] == y;
          assert j != i;
          assert r[j] == y;
        }
        if y in r && y != x {
          var j :| 0 <= j < |r| && r[j] == y;
          assert j != i && s[j] == y;
          if j < i { assert key(s[j]) != key(s[i]); } else { assert key(s[i]) != key(s[j]); }
        }
      }
      assert key(x) in Keys(s, key);
    case None =>
      assert r == s + [x];
      assert key(x) !in Keys(s, key);
  }

  /** The set of keys held by the rows of `s`. */
  ghost function Keys<T, K>(s: seq<T>, key: T -> K): set<K>
  {
    set i | 0 <= i < |s| :: key(s[i])
  }

  /** Upserting keeps a second key unique when no other row already holds the
      new row's value of it. */
  lemma UpsertKeepsUnique<T, K, L>(s: seq<T>, x: T, key: T -> K, other: T -> L)
    requires UniqueBy(s, key) && UniqueBy(s, other)
    requires forall y :: y in s && other(y) == other(x) ==> key(y) == key(x)
    ensures UniqueBy(Upsert(s, x, key), other)
  {
    var r := Upsert(s, x, key);
    match IndexOfKey(s, key, key(x))
    case Some(i) =>
      forall a, b | 0 <= a < b < |r|
        ensures other(r[a]) != other(r[b])
      {
        if a == i {
          assert s[b] in s && key(s[b]) != key(s[i]);
        } else if b == i {
          assert s[a] in s && key(s[a]) != key(s[i]);
        }
      }
    case None =>
      forall a, b | 0 <= a < b < |r|
        ensures other(r[a]) != other(r[b])
      {
        if b == |s| {
          assert s[a] in s && key(s[a]) != key(x);
        }
      }
  }

  /** Upserting keeps every key already present and adds the new row's. */
  lemma UpsertKeys<T, K>(s: seq<T>, x: T, key: T -> K)
    ensures Keys(s, key) <= Keys(Upsert(s, x, key), key)
    ensures key(x) in Keys(Upsert(s, x, key), key)
  {
    var r := Upsert(s, x, key);
    match IndexOfKey(s, key, key(x))
    case Some(i) =>
      assert r[i] == x;
      forall k | k in Keys(s, key) ensures k in Keys(r, key) {
        var j :| 0 <= j < |s| && key(s[j]) == k;
        if j == i { assert key(r[i]) == k; } else { assert r[j] == s[j]; }
      }
    case None =>
      assert r[|s|] == x;
      forall k | k in Keys(s, key) ensures k in Keys(r, key) {
        var j :| 0 <= j < |s| && key(s[j]) == k;
        assert r[j] == s[j];
      }
  }

  /** A subset is no larger than its superset. */
  lemma {:induction false} SubsetCard<T>(a: set<T>, b: set<T>)
    requires a <= b
    ensures |a| <= |b|
    decreases |a|
  {
    if a != {} {
      var x :| x in a;
      SubsetCard(a - {x}, b - {x});
    }
  }

  /** A row with a key no stored row can hold is appended. */
  lemma UpsertFresh<T>(s: seq<T>, x: T, key: T -> nat, bound: nat)
    requires KeysBelow(s, key, bound) && key(x) >= bound
    ensures IndexOfKey(s, key, key(x)).None?
    ensures Upsert(s, x, key) == s + [x]
  {
    assert IndexOfKey(s, key, key(x)).None?;
  }

  lemma UpsertKeepsBelow<T>(s: seq<T>, x: T, key: T -> nat, bound: nat)
    requires KeysBelow(s, key, bound) && key(x) < bound
    ensures KeysBelow(Upsert(s, x, key), key, bound)
  {
  }

  /** Descending order by `key` (Django's `order_by("-field")`). */
  ghost predicate SortedDesc<T>(s: seq<T>, key: T -> int)
  {
    forall i, j :: 0 <= i < j < |s| ==> key(s[i]) >= key(s[j])
  }

  function InsertDesc<T>(x: T, s: seq<T>, key: T -> int): (r: seq<T>)
    requires SortedDesc(s, key)
    ensures multiset(r) == multiset{x} + multiset(s)
    ensures SortedDesc(r, key)
    ensures |r| == |s| + 1
    ensures r[0] == x || (|s| > 0 && r[0] == s[0])
  {
    if |s| == 0 then [x]
    else if key(x) >= key(s[0]) then [x] + s
    else
      var t := InsertDesc(x, s[1..], key);
      assert s == [s[0]] + s[1..];
      [s[0]] + t
  }

  /** Insertion sort, newest (largest key) first; equal keys keep their order. */
  function SortDesc<T>(s: seq<T>, key: T -> int): (r: seq<T>)
    ensures multiset(r) == multiset(s)
    ensures SortedDesc(r, key)
    ensures |r| == |s|
  {
    if |s| == 0 then []
    else
      assert s == [s[0]] + s[1..];
      InsertDesc(s[0], SortDesc(s[1..], key), key)
  }

  function SumBy<T>(s: seq<T>, f: T -> int): int
  {
    if |s| == 0 then 0 else f(s[0]) + SumBy(s[1..], f)
  }

  lemma {:induction false} SumByInsert<T>(x: T, s: seq<T>, key: T -> int, f: T -> int)
    requires SortedDesc(s, key)
    ensures SumBy(InsertDesc(x, s, key), f) == f(x) + SumBy(s, f)
  {
    if |s| == 0 || key(x) >= key(s[0]) {
      var r := InsertDesc(x, s, key);
      assert r[1..] == s;
    } else {
      SumByInsert(x, s[1..], key, f);
      var r := InsertDesc(x, s, key);
      assert r[1..] == InsertDesc(x, s[1..], key);
    }
  }

  /** Sorting does not change a keyed sum. */
  lemma {:induction false} SumBySort<T>(s: seq<T>, key: T -> int, f: T -> int)
    ensures SumBy(SortDesc(s, key), f) == SumBy(s, f)
  {
    if |s| > 0 {
      SumBySort(s[1..], key, f);
      SumByInsert(s[0], SortDesc(s[1..], key), key, f);
    }
  }

  /** The rows of `s` that `keep` accepts, in their order (a queryset `filter`). */
  function Filter<T>(s: seq<T>, keep: T -> bool): (r: seq<T>)
    ensures |r| <= |s|
    ensures forall i :: 0 <= i < |r| ==> r[i] in s && keep(r[i])
    ensures forall i :: 0 <= i < |s| && keep(s[i]) ==> s[i] in r
    ensures multiset(r) <= multiset(s)
  {
    if |s| == 0 then []
    else
      assert s == [s[0]] + s[1..];
      if keep(s[0]) then [s[0]] + Filter(s[1..], keep) else Filter(s[1..], keep)
  }

  /** Filtering keeps identifiers distinct. */
  lemma FilterKeepsUnique<T, K>(s: seq<T>, keep: T -> bool, key: T -> K)
    requires UniqueBy(s, key)
    ensures UniqueBy(Filter(s, keep), key)
    decreases |s|
  {
    if |s| > 0 {
      FilterKeepsUnique(s[1..], keep, key);
      var r := Filter(s, keep);
      if keep(s[0]) {
        forall j | 1 <= j < |r| ensures key(r[0]) != key(r[j]) {
          assert r[j] in s[1..];
        }
      }
    }
  }

  /** A filter that accepts every row keeps them all. */
  lemma {:induction false} FilterAll<T>(s: seq<T>, keep: T -> bool)
    requires forall i :: 0 <= i < |s| ==> keep(s[i])
    ensures Filter(s, keep) == s
  {
    if |s| > 0 {
      FilterAll(s[1..], keep);
    }
  }

  /** A filter that accepts no row yields nothing. */
  lemma {:induction false} FilterNone<T>(s: seq<T>, keep: T -> bool)
    requires forall i :: 0 <= i < |s| ==> !keep(s[i])
    ensures Filter(s, keep) == []
  {
    if |s| > 0 {
      FilterNone(s[1..], keep);
    }
  }

  /** Sum of `val` over the rows `keep` accepts; 0 when there are none (the
      source's `aggregate(Sum(...))["total"] or 0`). */
  function SumWhere<T>(s: seq<T>, keep: T -> bool, val: T -> int): int
  {
    if |s| == 0 then 0 else (if keep(s[0]) then val(s[0]) else 0) + SumWhere(s[1..], keep, val)
  }

  lemma {:induction false} SumWhereAppend<T>(s: seq<T>, t: seq<T>, keep: T -> bool, val: T -> int)
    ensures SumWhere(s + t, keep, val) == SumWhere(s, keep, val) + SumWhere(t, keep, val)
  {
    if |s| == 0 {
      assert s + t == t;
    } else {
      assert (s + t)[1..] == s[1..] + t;
      SumWhereAppend(s[1..], t, keep, val);
    }
  }

  /** A sum over no accepted rows is 0. */
  lemma {:induction false} SumWhereNone<T>(s: seq<T>, keep: T -> bool, val: T -> int)
    requires forall i :: 0 <= i < |s| ==> !keep(s[i])
    ensures SumWhere(s, keep, val) == 0
  {
    if |s| > 0 {
      SumWhereNone(s[1..], keep, val);
    }
  }

  /** Two filters that agree on every row give the same sum. */
  lemma {:induction false} SumWhereSame<T>(s: seq<T>, k1: T -> bool, k2: T -> bool, val: T -> int)
    requires forall i :: 0 <= i < |s| ==> k1(s[i]) == k2(s[i])
    ensures SumWhere(s, k1, val) == SumWhere(s, k2, val)
  {
    if |s| > 0 {
      SumWhereSame(s[1..], k1, k2, val);
    }
  }

  /** Summing the filtered rows is the same as summing over the accepted rows. */
  lemma {:induction false} SumWhereFilter<T>(s: seq<T>, keep: T -> bool, val: T -> int)
    ensures SumBy(Filter(s, keep), val) == SumWhere(s, keep, val)
  {
    if |s| > 0 {
      SumWhereFilter(s[1..], keep, val);
    }
  }

  /** With non-negative values, a filter that accepts more rows sums to more. */
  lemma {:induction false} SumWhereMono<T>(s: seq<T>, k1: T -> bool, k2: T -> bool, val: T -> int)
    requires forall i :: 0 <= i < |s| ==> k1(s[i]) ==> k2(s[i])
    requires forall i :: 0 <= i < |s| ==> k2(s[i]) ==> val(s[i]) >= 0
    ensures SumWhere(s, k1, val) <= SumWhere(s, k2, val)
  {
    if |s| > 0 {
      SumWhereMono(s[1..], k1, k2, val);
    }
  }

  /** With non-negative values, the sums over two disjoint filters add up to at
      most the sum over a filter that accepts both. */
  lemma {:induction false} SumWhereDisjoint<T>(s: seq<T>, k1: T -> bool, k2: T -> bool, all: T -> bool, val: T -> int)
    requires forall i :: 0 <= i < |s| ==> !(k1(s[i]) && k2(s[i]))
    requires forall i :: 0 <= i < |s| ==> (k1(s[i]) || k2(s[i])) ==> all(s[i])
    requires forall i :: 0 <= i < |s| ==> all(s[i]) ==> val(s[i]) >= 0
    ensures SumWhere(s, k1, val) + SumWhere(s, k2, val) <= SumWhere(s, all, val)
  {
    if |s| > 0 {
      SumWhereDisjoint(s[1..], k1, k2, all, val);
    }
  }

  /** Summing the rows a second filter accepts among those a first one kept is
      summing over a filter that accepts both. */
  lemma {:induction false} SumWhereOfFilter<T>(s: seq<T>, k1: T -> bool, k2: T -> bool, both: T -> bool, val: T -> int)
    requires forall i :: 0 <= i < |s| ==> both(s[i]) == (k1(s[i]) && k2(s[i]))
    ensures SumWhere(Filter(s, k1), k2, val) == SumWhere(s, both, val)
  {
    if |s| > 0 {
      SumWhereOfFilter(s[1..], k1, k2, both, val);
    }
  }

  lemma {:induction false} SumByAppend<T>(s: seq<T>, x: T, f: T -> int)
    ensures SumBy(s + [x], f) == SumBy(s, f) + f(x)
  {
    if |s| == 0 {
      assert s + [x] == [x];
      assert [x][1..] == [];
    } else {
      assert (s + [x])[1..] == s[1..] + [x];
      SumByAppend(s[1..], x, f);
    }
  }

  lemma {:induction false} SumByUpdate<T>(s: seq<T>, i: nat, x: T, f: T -> int)
    requires i < |s|
    ensures SumBy(s[i := x], f) == SumBy(s, f) - f(s[i]) + f(x)
  {
    if i == 0 {
      assert s[i := x][1..] == s[1..];
    } else {
      assert s[i := x][1..] == s[1..][i - 1 := x];
      SumByUpdate(s[1..], i - 1, x, f);
    }
  }

  /** One row of a `values(...).annotate(total=Sum(...))` query. */
  datatype Group<K> = Group(key: K, total: int)

  function GroupKey<K>(g: Group<K>): K { g.key }
  function GroupTotal<K>(g: Group<K>): int { g.total }

  /** Rows whose key is `k`. */
  function KeyIs<T, K(==)>(key: T -> K, k: K): T -> bool
  {
    (x: T) => key(x) == k
  }

  /** Add `v` to the group of `k`, opening it when there is none. */
  function AddToGroup<K(==)>(gs: seq<Group<K>>, k: K, v: int): seq<Group<K>>
  {
    match IndexOfKey(gs, GroupKey, k)
    case Some(i) => gs[i := Group(k, gs[i].total + v)]
    case None => gs + [Group(k, v)]
  }

  /** Group the rows of `s` by `key`, summing `val` per group; groups appear in
      the order their keys first occur. */
  function GroupSum<T, K(==)>(s: seq<T>, key: T -> K, val: T -> int): seq<Group<K>>
  {
    if |s| == 0 then [] else AddToGroup(GroupSum(s[..|s| - 1], key, val), key(s[|s| - 1]), val(s[|s| - 1]))
  }

  /** The groups' totals add up to the sum over all rows. */
  lemma {:induction false} GroupSumTotal<T, K>(s: seq<T>, key: T -> K, val: T -> int)
    ensures SumBy(GroupSum(s, key, val), GroupTotal) == SumBy(s, val)
  {
    if |s| > 0 {
      var init, x := s[..|s| - 1], s[|s| - 1];
      assert s == init + [x];
      GroupSumTotal(init, key, val);
      SumByAppend(init, x, val);
      var gs := GroupSum(init, key, val);
      match IndexOfKey(gs, GroupKey, key(x))
      case Some(i) => SumByUpdate(gs, i, Group(key(x), gs[i].total + val(x)), GroupTotal);
      case None => SumByAppend(gs, Group(key(x), val(x)), GroupTotal);
    }
  }

  /** `gs` groups `s` by `key`: one group per key of `s`, nothing else, and each
      group's total is the sum over the rows with its key. */
  ghost predicate IsGrouping<T, K>(s: seq<T>, key: T -> K, val: T -> int, gs: seq<Group<K>>)
  {
    UniqueBy(gs, GroupKey)
    && (forall j :: 0 <= j < |s| ==> key(s[j]) in Keys(gs, GroupKey))
    && (forall i :: 0 <= i < |gs| ==> exists j :: 0 <= j < |s| && key(s[j]) == gs[i].key)
    && (forall i :: 0 <= i < |gs| ==> gs[i].total == SumWhere(s, KeyIs(key, gs[i].key), val))
  }

  lemma SumWhereSnoc<T, K>(s: seq<T>, x: T, key: T -> K, k: K, val: T -> int)
    ensures SumWhere(s + [x], KeyIs(key, k), val) == SumWhere(s, KeyIs(key, k), val) + (if key(x) == k then val(x) else 0)
  {
    SumWhereAppend(s, [x], KeyIs(key, k), val);
    assert [x][1..] == [];
  }

  lemma GroupStepHit<T, K>(s: seq<T>, x: T, key: T -> K, val: T -> int, gs: seq<Group<K>>, m: nat)
    requires IsGrouping(s, key, val, gs) && m < |gs| && gs[m].key == key(x)
    ensures IsGrouping(s + [x], key, val, gs[m := Group(key(x), gs[m].total + val(x))])
  {
    var t, r := s + [x], gs[m := Group(key(x), gs[m].total + val(x))];
    assert |r| == |gs|;
    assert forall i :: 0 <= i < |r| ==> r[i].key == gs[i].key;
    assert Keys(r, GroupKey) == Keys(gs, GroupKey);
    forall j | 0 <= j < |t| ensures key(t[j]) in Keys(r, GroupKey) {
      if j < |s| {
        assert t[j] == s[j];
      }
    }
    forall i | 0 <= i < |r| ensures exists j :: 0 <= j < |t| && key(t[j]) == r[i].key {
      var j :| 0 <= j < |s| && key(s[j]) == gs[i].key;
      assert t[j] == s[j];
    }
    forall i | 0 <= i < |r| ensures r[i].total == SumWhere(t, KeyIs(key, r[i].key), val) {
      SumWhereSnoc(s, x, key, r[i].key, val);
      if i != m {
        if i < m { assert GroupKey(gs[i]) != GroupKey(gs[m]); }
        else { assert GroupKey(gs[m]) != GroupKey(gs[i]); }
      }
    }
  }

  lemma GroupStepNew<T, K>(s: seq<T>, x: T, key: T -> K, val: T -> int, gs: seq<Group<K>>)
    requires IsGrouping(s, key, val, gs) && key(x) !in Keys(gs, GroupKey)
    ensures IsGrouping(s + [x], key, val, gs + [Group(key(x), val(x))])
  {
    var t, r := s + [x], gs + [Group(key(x), val(x))];
    forall a, b | 0 <= a < b < |r| ensures GroupKey(r[a]) != GroupKey(r[b]) {
      if b == |gs| {
        assert GroupKey(gs[a]) in Keys(gs, GroupKey);
      }
    }
    forall j | 0 <= j < |t| ensures key(t[j]) in Keys(r, GroupKey) {
      if j < |s| {
        var i :| 0 <= i < |gs| && GroupKey(gs[i]) == key(s[j]);
        assert GroupKey(r[i]) == key(t[j]);
      } else {
        assert GroupKey(r[|gs|]) == key(t[j]);
      }
    }
    forall i | 0 <= i < |r| ensures exists j :: 0 <= j < |t| && key(t[j]) == r[i].key {
      if i < |gs| {
        var j :| 0 <= j < |s| && key(s[j]) == gs[i].key;
        assert t[j] == s[j];
      } else {
        assert key(t[|s|]) == r[i].key;
      }
    }
    forall j | 0 <= j < |s| ensures !KeyIs(key, key(x))(s[j]) {
      assert key(s[j]) in Keys(gs, GroupKey);
    }
    SumWhereNone(s, KeyIs(key, key(x)), val);
    forall i | 0 <= i < |r| ensures r[i].total == SumWhere(t, KeyIs(key, r[i].key), val) {
      SumWhereSnoc(s, x, key, r[i].key, val);
      if i < |gs| {
        assert GroupKey(gs[i]) in Keys(gs, GroupKey);
      }
    }
  }

  /** One more row keeps a grouping a grouping. */
  lemma GroupStep<T, K>(s: seq<T>, x: T, key: T -> K, val: T -> int, gs: seq<Group<K>>)
    requires IsGrouping(s, key, val, gs)
    ensures IsGrouping(s + [x], key, val, AddToGroup(gs, key(x), val(x)))
  {
    match IndexOfKey(gs, GroupKey, key(x))
    case Some(m) =>
      assert GroupKey(gs[m]) == key(x);
      GroupStepHit(s, x, key, val, gs, m);
    case None =>
      GroupStepNew(s, x, key, val, gs);
  }

  /** GroupSum computes a grouping. */
  lemma {:induction false} GroupSumGroups<T, K>(s: seq<T>, key: T -> K, val: T -> int)
    ensures IsGrouping(s, key, val, GroupSum(s, key, val))
  {
    if |s| > 0 {
      var init, x := s[..|s| - 1], s[|s| - 1];
      GroupSumGroups(init, key, val);
      GroupStep(init, x, key, val, GroupSum(init, key, val));
      assert s == init + [x];
    }
  }

  /** The first `n` rows of a descending sort are the `n` with the largest keys:
      every row left out has a key no larger than any row kept. */
  lemma TakeLargest<T>(s: seq<T>, key: T -> int, n: nat)
    ensures var sorted := SortDesc(s, key);
      var top := sorted[..Min(n, |sorted|)];
      |top| == Min(n, |s|) && SortedDesc(top, key) && multiset(top) <= multiset(s)
      && forall x, j :: x in multiset(s) - multiset(top) && 0 <= j < |top| ==> key(x) <= key(top[j])
  {
    var sorted := SortDesc(s, key);
    var k := Min(n, |sorted|);
    var top, rest := sorted[..k], sorted[k..];
    assert sorted == top + rest;
    assert multiset(sorted) == multiset(top) + multiset(rest);
    forall x, j | x in multiset(s) - multiset(top) && 0 <= j < |top| ensures key(x) <= key(top[j]) {
      assert x in multiset(rest);
      var m :| 0 <= m < |rest| && rest[m] == x;
      assert sorted[k + m] == x && sorted[j] == top[j];
    }
  }

  lemma {:induction false} SumWhereInsert<T>(x: T, s: seq<T>, key: T -> int, keep: T -> bool, val: T -> int)
    requires SortedDesc(s, key)
    ensures SumWhere(InsertDesc(x, s, key), keep, val) == (if keep(x) then val(x) else 0) + SumWhere(s, keep, val)
  {
    if |s| == 0 || key(x) >= key(s[0]) {
      var r := InsertDesc(x, s, key);
      assert r[1..] == s;
    } else {
      SumWhereInsert(x, s[1..], key, keep, val);
      var r := InsertDesc(x, s, key);
      assert r[1..] == InsertDesc(x, s[1..], key);
    }
  }

  /** Sorting does not change a filtered sum. */
  lemma {:induction false} SumWhereSort<T>(s: seq<T>, key: T -> int, keep: T -> bool, val: T -> int)
    ensures SumWhere(SortDesc(s, key), keep, val) == SumWhere(s, keep, val)
  {
    if |s| > 0 {
      SumWhereSort(s[1..], key, keep, val);
      SumWhereInsert(s[0], SortDesc(s[1..], key), key, keep, val);
    }
  }

  /** A rearrangement of rows with distinct keys has distinct keys. */
  lemma MultisetUniqueBy<T, K>(s: seq<T>, t: seq<T>, key: T -> K, a: nat, b: nat)
    requires UniqueBy(s, key) && multiset(t) == multiset(s) && a < b < |t|
    ensures key(t[a]) != key(t[b])
  {
    assert t[a] in multiset(s) && t[b] in multiset(s);
    var i :| 0 <= i < |s| && s[i] == t[a];
    var j :| 0 <= j < |s| && s[j] == t[b];
    if i == j {
      var ms := multiset(t);
      assert ms[t[a]] >= 2 by {
        assert t == t[..a] + [t[a]] + t[a + 1..b] + [t[b]] + t[b + 1..];
      }
      assert multiset(s)[s[i]] >= 2;
      UniqueCount(s, key, i);
    }
  }

  /** In a table with distinct keys, every row occurs once. */
  lemma {:induction false} UniqueCount<T, K>(s: seq<T>, key: T -> K, i: nat)
    requires UniqueBy(s, key) && i < |s|
    ensures multiset(s)[s[i]] == 1
  {
    if i == 0 {
      assert s == [s[0]] + s[1..];
      forall j | 0 <= j < |s[1..]| ensures s[1..][j] != s[0] {
        assert key(s[0]) != key(s[j + 1]);
      }
      assert s[0] !in multiset(s[1..]);
    } else {
      assert s == [s[0]] + s[1..];
      assert s[0] != s[i] by { assert key(s[0]) != key(s[i]); }
      UniqueCount(s[1..], key, i - 1);
    }
  }

  /** A grouping in another order still has one row per key, each with its
      key's total. */
  lemma GroupingRearranged<T, K>(s: seq<T>, key: T -> K, val: T -> int, gs: seq<Group<K>>, rows: seq<Group<K>>)
    requires IsGrouping(s, key, val, gs) && multiset(rows) == multiset(gs)
    ensures forall g :: g in rows ==>
      g.total == SumWhere(s, KeyIs(key, g.key), val) && exists j :: 0 <= j < |s| && key(s[j]) == g.key
    ensures forall j :: 0 <= j < |s| ==> exists g :: g in rows && g.key == key(s[j])
    ensures UniqueBy(rows, GroupKey)
  {
    forall g | g in rows
      ensures g.total == SumWhere(s, KeyIs(key, g.key), val)
      ensures exists j :: 0 <= j < |s| && key(s[j]) == g.key
    {
      assert g in multiset(gs);
      var i :| 0 <= i < |gs| && gs[i] == g;
    }
    forall j | 0 <= j < |s| ensures exists g :: g in rows && g.key == key(s[j]) {
      var i :| 0 <= i < |gs| && GroupKey(gs[i]) == key(s[j]);
      assert gs[i] in multiset(rows);
    }
    forall a, b | 0 <= a < b < |rows| ensures GroupKey(rows[a]) != GroupKey(rows[b]) {
      MultisetUniqueBy(gs, rows, GroupKey, a, b);
    }
  }
}
