/**
  Python's insertion-ordered `dict`, as the sequence of its items.

  Assigning to a present key keeps its position and replaces its value;
  assigning to a new key appends it. A dict literal (or `dict(pairs)`) is
  the same assignments made one after the other, so a key written twice in
  a literal keeps its first position and its last value.
*/
module PyDict {
  import opened Wrappers

  type Dict<K, V> = seq<(K, V)>

  /** Every key occurs once. */
  ghost predicate UniqueKeys<K, V>(d: Dict<K, V>) {
    forall i, j :: 0 <= i < j < |d| ==> d[i].0 != d[j].0
  }

  /** `list(d.keys())` */
  function Keys<K, V>(d: Dict<K, V>): (r: seq<K>)
    ensures |r| == |d|
    ensures forall i :: 0 <= i < |d| ==> r[i] == d[i].0
  {
    seq(|d|, i requires 0 <= i < |d| => d[i].0)
  }

  /** `list(d.values())` */
  function Values<K, V>(d: Dict<K, V>): (r: seq<V>)
    ensures |r| == |d|
    ensures forall i :: 0 <= i < |d| ==> r[i] == d[i].1
  {
    seq(|d|, i requires 0 <= i < |d| => d[i].1)
  }

  /** `k in d` */
  predicate HasKey<K(==), V>(d: Dict<K, V>, k: K) {
    exists i :: 0 <= i < |d| && d[i].0 == k
  }

  /** Position of `k` among the items, or -1. */
  function IndexOf<K(==), V>(d: Dict<K, V>, k: K): (r: int)
    ensures -1 <= r < |d|
    ensures 0 <= r ==> d[r].0 == k
    ensures 0 <= r ==> forall j :: 0 <= j < r ==> d[j].0 != k
    ensures r < 0 <==> !HasKey(d, k)
  {
    if d == [] then -1
    else if d[0].0 == k then 0
    else
      var r := IndexOf(d[1..], k);
      assert HasKey(d, k) ==> HasKey(d[1..], k) by {
        if HasKey(d, k) {
          var i :| 0 <= i < |d| && d[i].0 == k;
          assert d[1..][i - 1].0 == k;
        }
      }
      if r < 0 then -1 else r + 1
  }

  /** `d.get(k)` */
  function Get<K(==), V>(d: Dict<K, V>, k: K): (r: Option<V>)
    ensures r.Some? <==> HasKey(d, k)
  {
    var i := IndexOf(d, k);
    if i < 0 then None else Some(d[i].1)
  }

  /** What `d.get(k)` finds is an item of `d`. */
  lemma GetIsItem<K, V>(d: Dict<K, V>, k: K)
    ensures Get(d, k).Some? ==> (k, Get(d, k).value) in d
  {
    if HasKey(d, k) {
      assert d[IndexOf(d, k)] == (k, Get(d, k).value);
    }
  }

  lemma GetUnique<K, V>(d: Dict<K, V>, i: int)
    requires UniqueKeys(d) && 0 <= i < |d|
    ensures Get(d, d[i].0) == Some(d[i].1)
  {
  }

  /** `d[k] = v` */
  function Assign<K(==, !new), V>(d: Dict<K, V>, k: K, v: V): (r: Dict<K, V>)
    ensures UniqueKeys(d) ==> UniqueKeys(r)
    ensures Get(r, k) == Some(v)
    ensures forall k' :: k' != k ==> Get(r, k') == Get(d, k')
    ensures HasKey(d, k) ==> Keys(r) == Keys(d)
    ensures !HasKey(d, k) ==> Keys(r) == Keys(d) + [k]
    ensures forall x :: x in r ==> x in d || x == (k, v)
  {
    var i := IndexOf(d, k);
    if i < 0 then
      var r := d + [(k, v)];
      IndexOfAppendNew(d, k, v);
      assert forall k' :: k' != k ==> IndexOf(r, k') == IndexOf(d, k') by {
        forall k' | k' != k ensures IndexOf(r, k') == IndexOf(d, k') {
          IndexOfAppend(d, k', (k, v));
        }
      }
      r
    else
      var r := d[i := (k, v)];
      assert Keys(r) == Keys(d);
      assert forall k' :: k' != k ==> IndexOf(r, k') == IndexOf(d, k') by {
        forall k' | k' != k ensures IndexOf(r, k') == IndexOf(d, k') {
          IndexOfUpdate(d, i, k', (k, v));
        }
      }
      r
  }

  lemma {:induction false} IndexOfAppend<K, V>(d: Dict<K, V>, k: K, item: (K, V))
    requires item.0 != k
    ensures IndexOf(d + [item], k) == IndexOf(d, k)
  {
    if d != [] {
      assert (d + [item])[1..] == d[1..] + [item];
      IndexOfAppend(d[1..], k, item);
    }
  }

  lemma {:induction false} IndexOfAppendNew<K, V>(d: Dict<K, V>, k: K, v: V)
    requires !HasKey(d, k)
    ensures IndexOf(d + [(k, v)], k) == |d|
  {
    if d != [] {
      assert (d + [(k, v)])[1..] == d[1..] + [(k, v)];
      IndexOfAppendNew(d[1..], k, v);
    }
  }

  lemma {:induction false} IndexOfUpdate<K, V>(d: Dict<K, V>, i: int, k: K, item: (K, V))
    requires 0 <= i < |d| && d[i].0 == item.0 && item.0 != k
    ensures IndexOf(d[i := item], k) == IndexOf(d, k)
  {
    if i > 0 {
      assert d[i := item][1..] == d[1..][i - 1 := item];
      IndexOfUpdate(d[1..], i - 1, k, item);
    }
  }

  /** Assigning to a key other than the first item's leaves that item in
      front and assigns in the rest. */
  lemma AssignCons<K(!new), V>(d: Dict<K, V>, k: K, v: V)
    requires d != [] && d[0].0 != k
    ensures Assign(d, k, v) == [d[0]] + Assign(d[1..], k, v)
  {
    var i := IndexOf(d[1..], k);
    assert IndexOf(d, k) == if i < 0 then -1 else i + 1;
    if i < 0 {
      assert d + [(k, v)] == [d[0]] + (d[1..] + [(k, v)]);
    } else {
      assert d[i + 1 := (k, v)] == [d[0]] + d[1..][i := (k, v)];
    }
  }

  /** A dict literal `{k1: v1, k2: v2, ...}`, or `dict(items)`. */
  function FromItems<K(==, !new), V>(items: seq<(K, V)>): (r: Dict<K, V>)
    ensures UniqueKeys(r)
    ensures |r| <= |items|
  {
    if items == [] then []
    else
      var last := items[|items| - 1];
      Assign(FromItems(items[..|items| - 1]), last.0, last.1)
  }

  /** One more item is one more assignment. */
  lemma FromItemsSnoc<K(!new), V>(items: seq<(K, V)>, k: K, v: V)
    ensures FromItems(items + [(k, v)]) == Assign(FromItems(items), k, v)
  {
    assert (items + [(k, v)])[..|items|] == items;
  }

  /** Written once each, the items are the dict. */
  lemma {:induction false} FromItemsOfUnique<K(!new), V>(items: seq<(K, V)>)
    requires UniqueKeys(items)
    ensures FromItems(items) == items
  {
    if items != [] {
      var init := items[..|items| - 1];
      FromItemsOfUnique(init);
      assert !HasKey(init, items[|items| - 1].0);
      assert init + [items[|items| - 1]] == items;
    }
  }

  /** A key written several times holds the value written last. */
  lemma {:induction false} FromItemsLastWins<K(!new), V>(items: seq<(K, V)>, i: int)
    requires 0 <= i < |items|
    requires forall j :: i < j < |items| ==> items[j].0 != items[i].0
    ensures Get(FromItems(items), items[i].0) == Some(items[i].1)
  {
    if i < |items| - 1 {
      FromItemsLastWins(items[..|items| - 1], i);
    }
  }

  lemma HasKeySnoc<K, V>(d: Dict<K, V>, item: (K, V), k: K)
    ensures HasKey(d + [item], k) <==> HasKey(d, k) || item.0 == k
  {
    if HasKey(d, k) {
      var i :| 0 <= i < |d| && d[i].0 == k;
      assert (d + [item])[i].0 == k;
    }
    if item.0 == k {
      assert (d + [item])[|d|].0 == k;
    }
  }

  /** The keys are exactly the keys written. */
  lemma {:induction false} FromItemsHasKey<K(!new), V>(items: seq<(K, V)>, k: K)
    ensures HasKey(FromItems(items), k) <==> HasKey(items, k)
  {
    if items != [] {
      var init := items[..|items| - 1];
      var last := items[|items| - 1];
      assert items == init + [last];
      HasKeySnoc(init, last, k);
      FromItemsHasKey(init, k);
      var r0 := FromItems(init);
      var r := FromItems(items);
      assert r == Assign(r0, last.0, last.1);
      if k != last.0 {
        assert Get(r, k) == Get(r0, k);
      }
    }
  }

  /** Every item of the dict is an item written. */
  lemma {:induction false} FromItemsItems<K(!new), V>(items: seq<(K, V)>)
    ensures forall x :: x in FromItems(items) ==> x in items
  {
    if items != [] {
      var init := items[..|items| - 1];
      FromItemsItems(init);
      assert forall x :: x in init ==> x in items;
    }
  }

  /** The last write of a key in the final part of a literal is the value the
      dict holds. */
  lemma FromItemsLastWinsIn<K(!new), V>(pre: seq<(K, V)>, last: seq<(K, V)>, i: int)
    requires 0 <= i < |last|
    requires forall j :: i < j < |last| ==> last[j].0 != last[i].0
    ensures Get(FromItems(pre + last), last[i].0) == Some(last[i].1)
  {
    var items := pre + last;
    var n := |pre| + i;
    assert items[n] == last[i];
    forall j | n < j < |items| ensures items[j].0 != items[n].0 {
      assert items[j] == last[j - |pre|];
    }
    FromItemsLastWins(items, n);
  }

  /** Items that do not write `k` leave the value of `k` alone. */
  lemma {:induction false} FromItemsGetAppend<K(!new), V>(a: seq<(K, V)>, b: seq<(K, V)>, k: K)
    requires !HasKey(b, k)
    ensures Get(FromItems(a + b), k) == Get(FromItems(a), k)
  {
    if b == [] {
      assert a + b == a;
    } else {
      var init := b[..|b| - 1];
      var last := b[|b| - 1];
      assert (a + b)[..|a + b| - 1] == a + init;
      assert (a + b)[|a + b| - 1] == last;
      assert !HasKey(init, k) by {
        forall j | 0 <= j < |init| ensures init[j].0 != k {
          assert init[j] == b[j];
        }
      }
      FromItemsGetAppend(a, init, k);
    }
  }

  /** A literal that writes some key twice builds a smaller dict. */
  lemma {:induction false} FromItemsShrinks<K(!new), V>(items: seq<(K, V)>, i: int, j: int)
    requires 0 <= i < j < |items| && items[i].0 == items[j].0
    ensures |FromItems(items)| < |items|
  {
    var init := items[..|items| - 1];
    if j < |items| - 1 {
      FromItemsShrinks(init, i, j);
    } else {
      FromItemsHasKey(init, items[j].0);
      assert init[i].0 == items[j].0;
    }
  }
}
