/**
 * The pandas aggregations the pipeline relies on, over integer amounts:
 * `sum`, `max`, `min` of a column, `groupby(key)[value].sum()` and `idxmax`.
 */
module Aggregates {

  /** `Series.sum()`: the sum of the amounts, 0 for none. */
  function Sum(xs: seq<int>): int {
    if xs == [] then 0 else Sum(xs[..|xs| - 1]) + xs[|xs| - 1]
  }

  /** `Series.max()` on a non-empty series: an element no smaller than any other. */
  function Max(xs: seq<int>): (m: int)
    requires |xs| > 0
    ensures m in xs
    ensures forall i | 0 <= i < |xs| :: xs[i] <= m
  {
    if |xs| == 1 then xs[0]
    else
      var init := xs[..|xs| - 1];
      var m := Max(init);
      assert forall i | 0 <= i < |xs| - 1 :: xs[i] == init[i];
      if m < xs[|xs| - 1] then xs[|xs| - 1] else m
  }

  /** `Series.min()` on a non-empty series: an element no larger than any other. */
  function Min(xs: seq<int>): (m: int)
    requires |xs| > 0
    ensures m in xs
    ensures forall i | 0 <= i < |xs| :: m <= xs[i]
  {
    if |xs| == 1 then xs[0]
    else
      var init := xs[..|xs| - 1];
      var m := Min(init);
      assert forall i | 0 <= i < |xs| - 1 :: xs[i] == init[i];
      if xs[|xs| - 1] < m then xs[|xs| - 1] else m
  }

  /** A sum of n amounts that all lie in [lo, hi] lies in [n * lo, n * hi]. */
  lemma {:induction false} SumBounds(xs: seq<int>, lo: int, hi: int)
    requires forall i | 0 <= i < |xs| :: lo <= xs[i] <= hi
    ensures lo * |xs| <= Sum(xs) <= hi * |xs|
  {
    if xs != [] {
      var init := xs[..|xs| - 1];
      assert forall i | 0 <= i < |init| :: init[i] == xs[i];
      SumBounds(init, lo, hi);
      assert lo * |xs| == lo * |init| + lo;
      assert hi * |xs| == hi * |init| + hi;
    }
  }

  /** The mean `Sum(xs) / |xs|` lies between the minimum and the maximum (stated without division). */
  lemma MeanBetweenMinAndMax(xs: seq<int>)
    requires |xs| > 0
    ensures Min(xs) * |xs| <= Sum(xs) <= Max(xs) * |xs|
  {
    SumBounds(xs, Min(xs), Max(xs));
  }

  /** One row of a `groupby(...).sum()` result: a key and the total of the amounts filed under it. */
  datatype Group<K> = Group(key: K, total: int)

  function KeysOf<K>(gs: seq<Group<K>>): set<K> {
    set g | g in gs :: g.key
  }

  predicate DistinctKeys<K(==)>(gs: seq<Group<K>>) {
    forall i, j | 0 <= i < j < |gs| :: gs[i].key != gs[j].key
  }

  /** The sum of all group totals. */
  function GroupTotal<K>(gs: seq<Group<K>>): int {
    if gs == [] then 0 else gs[0].total + GroupTotal(gs[1..])
  }

  /** The total filed under `k`, 0 when `k` has no group. */
  function Lookup<K(==)>(gs: seq<Group<K>>, k: K): int {
    if gs == [] then 0 else if gs[0].key == k then gs[0].total else Lookup(gs[1..], k)
  }

  /** Files one amount under its key: adds it to the key's group, or opens a new group at the end. */
  function AddTo<K(==)>(gs: seq<Group<K>>, k: K, x: int): seq<Group<K>> {
    if gs == [] then [Group(k, x)]
    else if gs[0].key == k then [Group(k, gs[0].total + x)] + gs[1..]
    else [gs[0]] + AddTo(gs[1..], k, x)
  }

  /** `groupby(key)[value].sum()` over (key, amount) entries; groups appear in order of first occurrence. */
  function GroupSums<K(==)>(entries: seq<(K, int)>): seq<Group<K>> {
    if entries == [] then []
    else
      var last := entries[|entries| - 1];
      AddTo(GroupSums(entries[..|entries| - 1]), last.0, last.1)
  }

  /** Reference definition of a group's total: the sum of the amounts of the entries carrying key `k`. */
  function SumFor<K(==)>(entries: seq<(K, int)>, k: K): int {
    if entries == [] then 0
    else
      var last := entries[|entries| - 1];
      SumFor(entries[..|entries| - 1], k) + (if last.0 == k then last.1 else 0)
  }

  function EntryKeys<K>(entries: seq<(K, int)>): set<K> {
    set e | e in entries :: e.0
  }

  function EntryAmounts<K>(entries: seq<(K, int)>): (xs: seq<int>)
    ensures |xs| == |entries|
  {
    seq(|entries|, i requires 0 <= i < |entries| => entries[i].1)
  }

  /** Filing an amount adds its key to the keys, and no other. */
  lemma {:induction false} AddToKeys<K>(gs: seq<Group<K>>, k: K, x: int)
    ensures KeysOf(AddTo(gs, k, x)) == KeysOf(gs) + {k}
  {
    var r := AddTo(gs, k, x);
    if gs == [] {
      assert r == [Group(k, x)];
    } else if gs[0].key == k {
      assert r[1..] == gs[1..];
      forall g | g in r ensures g.key in KeysOf(gs) {
        if g != r[0] { assert g in gs[1..]; }
      }
      forall g | g in gs ensures g.key in KeysOf(r) {
        if g != gs[0] { assert g in r[1..]; }
      }
    } else {
      var rest, tail := gs[1..], AddTo(gs[1..], k, x);
      AddToKeys(rest, k, x);
      assert r[1..] == tail;
      assert KeysOf(r) == {gs[0].key} + KeysOf(tail) by {
        forall g | g in r ensures g.key in {gs[0].key} + KeysOf(tail) {
          if g != r[0] { assert g in tail; }
        }
      }
      assert KeysOf(gs) == {gs[0].key} + KeysOf(rest) by {
        forall g | g in gs ensures g.key in {gs[0].key} + KeysOf(rest) {
          if g != gs[0] { assert g in rest; }
        }
      }
    }
  }

  /** Dropping the first group keeps the keys distinct. */
  lemma DistinctKeysTail<K>(gs: seq<Group<K>>)
    requires DistinctKeys(gs) && gs != []
    ensures DistinctKeys(gs[1..]) && gs[0].key !in KeysOf(gs[1..])
  {
    var rest := gs[1..];
    forall i, j | 0 <= i < j < |rest| ensures rest[i].key != rest[j].key {
      assert rest[i] == gs[i + 1] && rest[j] == gs[j + 1];
    }
    forall g | g in rest ensures g.key != gs[0].key {
      var j :| 0 <= j < |rest| && rest[j] == g;
      assert gs[j + 1] == g;
    }
  }

  /** Filing an amount keeps the keys distinct. */
  lemma {:induction false} AddToDistinct<K>(gs: seq<Group<K>>, k: K, x: int)
    requires DistinctKeys(gs)
    ensures DistinctKeys(AddTo(gs, k, x))
  {
    var r := AddTo(gs, k, x);
    if gs != [] && gs[0].key == k {
      assert r[1..] == gs[1..];
      assert forall i | 1 <= i < |r| :: r[i] == gs[i];
    } else if gs != [] {
      var rest, tail := gs[1..], AddTo(gs[1..], k, x);
      DistinctKeysTail(gs);
      AddToDistinct(rest, k, x);
      AddToKeys(rest, k, x);
      assert r[1..] == tail;
      forall i, j | 0 <= i < j < |r| ensures r[i].key != r[j].key {
        assert r[j] == tail[j - 1];
        if i == 0 {
          assert r[j].key in KeysOf(tail);
        } else {
          assert r[i] == tail[i - 1];
        }
      }
    }
  }

  /** Filing an amount adds it to the sum of all totals. */
  lemma {:induction false} AddToTotal<K>(gs: seq<Group<K>>, k: K, x: int)
    ensures GroupTotal(AddTo(gs, k, x)) == GroupTotal(gs) + x
  {
    var r := AddTo(gs, k, x);
    if gs != [] && gs[0].key == k {
      assert r[1..] == gs[1..];
    } else if gs != [] {
      AddToTotal(gs[1..], k, x);
      assert r[1..] == AddTo(gs[1..], k, x);
    }
  }

  /** Filing an amount under `k` adds it to what `k` looks up and changes no other key's total. */
  lemma {:induction false} AddToLookup<K>(gs: seq<Group<K>>, k: K, x: int)
    ensures forall k' :: Lookup(AddTo(gs, k, x), k') == Lookup(gs, k') + (if k' == k then x else 0)
  {
    var r := AddTo(gs, k, x);
    if gs != [] && gs[0].key == k {
      assert r[1..] == gs[1..];
    } else if gs != [] {
      AddToLookup(gs[1..], k, x);
      assert r[1..] == AddTo(gs[1..], k, x);
    }
  }

  lemma {:induction false} GroupSumsDistinct<K>(entries: seq<(K, int)>)
    ensures DistinctKeys(GroupSums(entries))
  {
    if entries != [] {
      var init := entries[..|entries| - 1];
      var last := entries[|entries| - 1];
      GroupSumsDistinct(init);
      AddToDistinct(GroupSums(init), last.0, last.1);
    }
  }

  lemma {:induction false} GroupSumsKeys<K>(entries: seq<(K, int)>)
    ensures KeysOf(GroupSums(entries)) == EntryKeys(entries)
  {
    if entries != [] {
      var init := entries[..|entries| - 1];
      var last := entries[|entries| - 1];
      GroupSumsKeys(init);
      AddToKeys(GroupSums(init), last.0, last.1);
      assert entries == init + [last];
      assert EntryKeys(entries) == EntryKeys(init) + {last.0} by {
        forall e | e in entries ensures e.0 in EntryKeys(init) + {last.0} {
          if e != last { assert e in init; }
        }
      }
    }
  }

  lemma {:induction false} GroupSumsTotal<K>(entries: seq<(K, int)>)
    ensures GroupTotal(GroupSums(entries)) == Sum(EntryAmounts(entries))
  {
    if entries != [] {
      var init := entries[..|entries| - 1];
      var last := entries[|entries| - 1];
      GroupSumsTotal(init);
      AddToTotal(GroupSums(init), last.0, last.1);
      assert EntryAmounts(entries)[..|entries| - 1] == EntryAmounts(init);
    }
  }

  lemma {:induction false} GroupSumsLookup<K>(entries: seq<(K, int)>)
    ensures forall k :: Lookup(GroupSums(entries), k) == SumFor(entries, k)
  {
    if entries != [] {
      var init := entries[..|entries| - 1];
      var last := entries[|entries| - 1];
      GroupSumsLookup(init);
      AddToLookup(GroupSums(init), last.0, last.1);
    }
  }

  /** With distinct keys, a group's own total is what Lookup finds for its key. */
  lemma {:induction false} LookupAt<K>(gs: seq<Group<K>>, i: nat)
    requires DistinctKeys(gs) && i < |gs|
    ensures Lookup(gs, gs[i].key) == gs[i].total
  {
    if i > 0 {
      var rest := gs[1..];
      assert gs[0].key != gs[i].key;
      assert DistinctKeys(rest) by {
        forall a, b | 0 <= a < b < |rest| ensures rest[a].key != rest[b].key {
          assert rest[a] == gs[a + 1] && rest[b] == gs[b + 1];
        }
      }
      LookupAt(rest, i - 1);
    }
  }

  /**
   * The grouping of the source: one group per distinct key, in which each group's total is the sum
   * of the amounts carrying its key, and the totals add up to the sum of all amounts.
   */
  lemma GroupSumsCorrect<K>(entries: seq<(K, int)>)
    ensures var gs := GroupSums(entries);
      && DistinctKeys(gs)
      && KeysOf(gs) == EntryKeys(entries)
      && (forall i | 0 <= i < |gs| :: gs[i].total == SumFor(entries, gs[i].key))
      && GroupTotal(gs) == Sum(EntryAmounts(entries))
  {
    var gs := GroupSums(entries);
    GroupSumsDistinct(entries);
    GroupSumsKeys(entries);
    GroupSumsTotal(entries);
    GroupSumsLookup(entries);
    forall i | 0 <= i < |gs| ensures gs[i].total == SumFor(entries, gs[i].key) {
      LookupAt(gs, i);
      assert Lookup(GroupSums(entries), gs[i].key) == SumFor(entries, gs[i].key);
    }
  }

  /** `idxmax`: the position of a group whose total is no smaller than any other (the first such). */
  function ArgMax<K>(gs: seq<Group<K>>): (i: nat)
    requires |gs| > 0
    ensures i < |gs|
    ensures forall j | 0 <= j < |gs| :: gs[j].total <= gs[i].total
  {
    if |gs| == 1 then 0
    else
      var t := 1 + ArgMax(gs[1..]);
      assert forall j | 1 <= j < |gs| :: gs[j] == gs[1..][j - 1];
      if gs[0].total >= gs[t].total then 0 else t
  }

  /**
   * The key `idxmax` picks from a grouping has a summed amount no smaller than that of any key
   * that occurs in the entries.
   */
  lemma {:induction false} TopKeyDominates<K>(entries: seq<(K, int)>, k: K)
    requires k in EntryKeys(entries)
    ensures |GroupSums(entries)| > 0
    ensures var gs := GroupSums(entries);
      var top := gs[ArgMax(gs)].key;
      top in EntryKeys(entries) && SumFor(entries, k) <= SumFor(entries, top)
  {
    var gs := GroupSums(entries);
    GroupSumsCorrect(entries);
    assert k in KeysOf(gs);
    var g :| g in gs && g.key == k;
    var i :| 0 <= i < |gs| && gs[i] == g;
    var t := ArgMax(gs);
    assert gs[t] in gs;
  }
}
