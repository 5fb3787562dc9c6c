/** Ordered listings of record ids: a stable descending sort, its reversal and the selection of some ids. */
module Listings {
  ghost predicate Distinct<T>(ids: seq<T>) {
    forall i, j | 0 <= i < j < |ids| :: ids[i] != ids[j]
  }

  function KeyOf<T>(keys: map<T, int>, id: T): int {
    if id in keys then keys[id] else 0
  }

  function InsertDescending<T>(sorted: seq<T>, keys: map<T, int>, id: T): (r: seq<T>)
    ensures |r| == |sorted| + 1
  {
    if sorted == [] || KeyOf(keys, sorted[|sorted| - 1]) >= KeyOf(keys, id) then sorted + [id]
    else InsertDescending(sorted[..|sorted| - 1], keys, id) + [sorted[|sorted| - 1]]
  }

  /** Sorting with `reverse=True`: largest key first, equal keys in their given order. */
  function SortDescending<T>(ids: seq<T>, keys: map<T, int>): (r: seq<T>)
    ensures |r| == |ids|
  {
    if ids == [] then [] else InsertDescending(SortDescending(ids[..|ids| - 1], keys), keys, ids[|ids| - 1])
  }

  ghost predicate Descending<T>(ids: seq<T>, keys: map<T, int>) {
    forall i, j | 0 <= i < j < |ids| :: KeyOf(keys, ids[i]) >= KeyOf(keys, ids[j])
  }

  /** The ids with one key, in order. */
  ghost function WithKey<T>(ids: seq<T>, keys: map<T, int>, key: int): seq<T> {
    if ids == [] then []
    else
      var before, last := WithKey(ids[..|ids| - 1], keys, key), ids[|ids| - 1];
      if KeyOf(keys, last) == key then before + [last] else before
  }

  lemma {:induction false} InsertPermutes<T>(sorted: seq<T>, keys: map<T, int>, id: T)
    ensures multiset(InsertDescending(sorted, keys, id)) == multiset(sorted) + multiset{id}
  {
    if sorted != [] && KeyOf(keys, sorted[|sorted| - 1]) < KeyOf(keys, id) {
      InsertPermutes(sorted[..|sorted| - 1], keys, id);
      assert sorted == sorted[..|sorted| - 1] + [sorted[|sorted| - 1]];
    }
  }

  lemma {:induction false} InsertDescends<T>(sorted: seq<T>, keys: map<T, int>, id: T)
    requires Descending(sorted, keys)
    ensures Descending(InsertDescending(sorted, keys, id), keys)
  {
    if sorted != [] && KeyOf(keys, sorted[|sorted| - 1]) < KeyOf(keys, id) {
      var front, last := sorted[..|sorted| - 1], sorted[|sorted| - 1];
      var inner := InsertDescending(front, keys, id);
      InsertDescends(front, keys, id);
      InsertPermutes(front, keys, id);
      forall i | 0 <= i < |inner| ensures KeyOf(keys, inner[i]) >= KeyOf(keys, last) {
        assert inner[i] in multiset(inner);
        assert inner[i] in front || inner[i] == id;
      }
    }
  }

  lemma {:induction false} InsertIsStable<T>(sorted: seq<T>, keys: map<T, int>, id: T, key: int)
    ensures WithKey(InsertDescending(sorted, keys, id), keys, key) == WithKey(sorted + [id], keys, key)
  {
    assert (sorted + [id])[..|sorted|] == sorted;
    if sorted != [] && KeyOf(keys, sorted[|sorted| - 1]) < KeyOf(keys, id) {
      var front, last := sorted[..|sorted| - 1], sorted[|sorted| - 1];
      InsertIsStable(front, keys, id, key);
      assert (front + [id])[..|front|] == front;
      var r := InsertDescending(sorted, keys, id);
      assert r[..|r| - 1] == InsertDescending(front, keys, id);
    }
  }

  lemma {:induction false} SortPermutes<T>(ids: seq<T>, keys: map<T, int>)
    ensures multiset(SortDescending(ids, keys)) == multiset(ids)
  {
    if ids != [] {
      var front, last := ids[..|ids| - 1], ids[|ids| - 1];
      SortPermutes(front, keys);
      InsertPermutes(SortDescending(front, keys), keys, last);
      assert ids == front + [last];
    }
  }

  lemma {:induction false} SortDescends<T>(ids: seq<T>, keys: map<T, int>)
    ensures Descending(SortDescending(ids, keys), keys)
  {
    if ids != [] {
      SortDescends(ids[..|ids| - 1], keys);
      InsertDescends(SortDescending(ids[..|ids| - 1], keys), keys, ids[|ids| - 1]);
    }
  }

  /** Equal keys keep their order; with the two lemmas before, this determines the sorted listing. */
  lemma {:induction false} SortIsStable<T>(ids: seq<T>, keys: map<T, int>, key: int)
    ensures WithKey(SortDescending(ids, keys), keys, key) == WithKey(ids, keys, key)
  {
    if ids != [] {
      var front, last := ids[..|ids| - 1], ids[|ids| - 1];
      SortIsStable(front, keys, key);
      InsertIsStable(SortDescending(front, keys), keys, last, key);
      var sorted := SortDescending(front, keys);
      assert (sorted + [last])[..|sorted|] == sorted;
    }
  }

  lemma SortKeepsElements<T(!new)>(ids: seq<T>, keys: map<T, int>)
    ensures forall x :: x in SortDescending(ids, keys) <==> x in ids
    ensures Distinct(ids) ==> Distinct(SortDescending(ids, keys))
  {
    SortPermutes(ids, keys);
    var r := SortDescending(ids, keys);
    forall x ensures x in r <==> x in ids {
      assert x in multiset(r) <==> x in multiset(ids);
    }
    if Distinct(ids) {
      DistinctIffOnce(ids);
      DistinctIffOnce(r);
    }
  }

  lemma {:induction false} DistinctIffOnce<T>(ids: seq<T>)
    ensures Distinct(ids) <==> forall x | x in ids :: multiset(ids)[x] == 1
  {
    if ids != [] {
      var front, last := ids[..|ids| - 1], ids[|ids| - 1];
      DistinctIffOnce(front);
      assert ids == front + [last];
      assert multiset(ids) == multiset(front) + multiset{last};
      if Distinct(ids) {
        assert Distinct(front) && last !in front;
        forall x | x in ids ensures multiset(ids)[x] == 1 {
          assert x in front || x == last;
          assert last !in multiset(front);
        }
      }
      if forall x | x in ids :: multiset(ids)[x] == 1 {
        assert last in ids && multiset(front)[last] == 0;
        assert last !in front;
        forall x | x in front ensures multiset(front)[x] == 1 {
          assert x in ids && x in multiset(front);
        }
        assert Distinct(front);
      }
    }
  }

  function Reversed<T>(ids: seq<T>): (r: seq<T>)
    ensures |r| == |ids|
    ensures forall i | 0 <= i < |ids| :: r[i] == ids[|ids| - 1 - i]
  {
    seq(|ids|, i requires 0 <= i < |ids| => ids[|ids| - 1 - i])
  }

  /** The ids of a listing that belong to a set, in order. */
  function Select<T(==, !new)>(ids: seq<T>, keep: set<T>): (r: seq<T>)
    ensures forall x :: x in r <==> x in ids && x in keep
  {
    if ids == [] then []
    else if ids[0] in keep then [ids[0]] + Select(ids[1..], keep)
    else Select(ids[1..], keep)
  }

  /** A selection keeps the order of its listing. */
  lemma {:induction false} SelectKeepsOrder<T(!new)>(ids: seq<T>, keep: set<T>, i: nat, j: nat)
    requires i < j < |Select(ids, keep)|
    ensures exists a, b | 0 <= a < b < |ids| :: ids[a] == Select(ids, keep)[i] && ids[b] == Select(ids, keep)[j]
  {
    var rest := ids[1..];
    if ids[0] !in keep {
      SelectKeepsOrder(rest, keep, i, j);
      var a, b :| 0 <= a < b < |rest| && rest[a] == Select(rest, keep)[i] && rest[b] == Select(rest, keep)[j];
      assert ids[a + 1] == rest[a] && ids[b + 1] == rest[b];
    } else if i > 0 {
      SelectKeepsOrder(rest, keep, i - 1, j - 1);
      var a, b :| 0 <= a < b < |rest| && rest[a] == Select(rest, keep)[i - 1] && rest[b] == Select(rest, keep)[j - 1];
      assert ids[a + 1] == rest[a] && ids[b + 1] == rest[b];
    } else {
      var y := Select(ids, keep)[j];
      assert y == Select(rest, keep)[j - 1] && y in rest;
      var b :| 0 <= b < |rest| && rest[b] == y;
      assert ids[0] == Select(ids, keep)[0] && ids[b + 1] == y;
    }
  }

  lemma SelectIsDistinct<T(!new)>(ids: seq<T>, keep: set<T>)
    requires Distinct(ids)
    ensures Distinct(Select(ids, keep))
  {
    var r := Select(ids, keep);
    forall i, j | 0 <= i < j < |r| ensures r[i] != r[j] {
      SelectKeepsOrder(ids, keep, i, j);
    }
  }

  lemma {:induction false} SelectAgrees<T(!new)>(ids: seq<T>, keep: set<T>, other: set<T>)
    requires forall x | x in ids :: x in keep <==> x in other
    ensures Select(ids, keep) == Select(ids, other)
  {
    if ids != [] {
      SelectAgrees(ids[1..], keep, other);
    }
  }

  function Elements<T(==, !new)>(ids: seq<T>): (r: set<T>)
    ensures forall x :: x in r <==> x in ids
  {
    set x | x in ids
  }

  /** Taking the first selected ids out of the set leaves the rest of the selection. */
  lemma {:induction false} SelectWithoutPrefix<T(!new)>(ids: seq<T>, keep: set<T>, k: nat)
    requires Distinct(ids) && k <= |Select(ids, keep)|
    ensures Select(ids, keep - Elements(Select(ids, keep)[..k])) == Select(ids, keep)[k..]
  {
    var r := Select(ids, keep);
    if k == 0 {
      assert keep - Elements(r[..0]) == keep;
    } else {
      var rest := ids[1..];
      assert forall x | x in rest :: x != ids[0];
      if ids[0] in keep {
        var inner := Select(rest, keep);
        assert r == [ids[0]] + inner && r[..k] == [ids[0]] + inner[..k - 1];
        SelectWithoutPrefix(rest, keep, k - 1);
        SelectAgrees(rest, keep - Elements(r[..k]), keep - Elements(inner[..k - 1]));
        assert ids[0] in r[..k];
      } else {
        SelectWithoutPrefix(rest, keep, k);
        assert r == Select(rest, keep);
      }
    }
  }
}
