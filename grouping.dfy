/** Grouping values by key, as the summaries do with a counting record
    (`mealCount[name] = (mealCount[name] || 0) + q`) and the reports with Mongo's
    `{ $group: { _id, count: { $sum: 1 }, total: { $sum: v } } }`. Groups keep the
    order in which their keys first appear. */
module Grouping {

  /** One key of a counting record, or one `$group` bucket: how many entries had
      the key and the sum of their values. */
  datatype Group<K> = Group(key: K, count: nat, total: int)

  /** Adds one entry: the group of `k` is bumped, or a new group is appended. */
  function AddTo<K(==)>(gs: seq<Group<K>>, k: K, v: int): (r: seq<Group<K>>)
    ensures |r| == |gs| || |r| == |gs| + 1
  {
    if gs == [] then [Group(k, 1, v)]
    else if gs[0].key == k then [gs[0].(count := gs[0].count + 1, total := gs[0].total + v)] + gs[1..]
    else [gs[0]] + AddTo(gs[1..], k, v)
  }

  /** The groups of `entries`, added one after the other. */
  function GroupAll<K(==)>(entries: seq<(K, int)>): seq<Group<K>> {
    if entries == [] then []
    else
      var last := entries[|entries| - 1];
      AddTo(GroupAll(entries[..|entries| - 1]), last.0, last.1)
  }

  /** Grouping one more entry is adding it to the groups so far. */
  lemma GroupAllSnoc<K>(entries: seq<(K, int)>, k: K, v: int)
    ensures GroupAll(entries + [(k, v)]) == AddTo(GroupAll(entries), k, v)
  {
    assert (entries + [(k, v)])[..|entries|] == entries;
  }

  // ---------------------------------------------------------------------------
  // What a grouping means

  /** The sum of the values the entries with key `k` carry. */
  function SumFor<K(==)>(entries: seq<(K, int)>, k: K): int {
    if entries == [] then 0
    else
      var last := entries[|entries| - 1];
      SumFor(entries[..|entries| - 1], k) + (if last.0 == k then last.1 else 0)
  }

  /** The number of entries with key `k`. */
  function CountFor<K(==)>(entries: seq<(K, int)>, k: K): nat {
    if entries == [] then 0
    else CountFor(entries[..|entries| - 1], k) + (if entries[|entries| - 1].0 == k then 1 else 0)
  }

  function EntryKeys<K>(entries: seq<(K, int)>): set<K> {
    set i | 0 <= i < |entries| :: entries[i].0
  }

  function KeySet<K>(gs: seq<Group<K>>): set<K> {
    set i | 0 <= i < |gs| :: gs[i].key
  }

  predicate DistinctKeys<K(==)>(gs: seq<Group<K>>) {
    forall i, j :: 0 <= i < j < |gs| ==> gs[i].key != gs[j].key
  }

  /** The total of the groups with key `k` (with distinct keys, of the one group). */
  function TotalOf<K(==)>(gs: seq<Group<K>>, k: K): int {
    if gs == [] then 0 else (if gs[0].key == k then gs[0].total else 0) + TotalOf(gs[1..], k)
  }

  function CountOf<K(==)>(gs: seq<Group<K>>, k: K): nat {
    if gs == [] then 0 else (if gs[0].key == k then gs[0].count else 0) + CountOf(gs[1..], k)
  }

  /** The sums of all totals and of all counts. */
  function Totals<K>(gs: seq<Group<K>>): int {
    if gs == [] then 0 else gs[0].total + Totals(gs[1..])
  }

  function Counts<K>(gs: seq<Group<K>>): nat {
    if gs == [] then 0 else gs[0].count + Counts(gs[1..])
  }

  function Values<K>(entries: seq<(K, int)>): int {
    if entries == [] then 0 else Values(entries[..|entries| - 1]) + entries[|entries| - 1].1
  }

  // ---------------------------------------------------------------------------
  // Adding one entry

  lemma {:induction false} AddToTotals<K>(gs: seq<Group<K>>, k: K, v: int, j: K)
    ensures TotalOf(AddTo(gs, k, v), j) == TotalOf(gs, j) + (if j == k then v else 0)
    ensures CountOf(AddTo(gs, k, v), j) == CountOf(gs, j) + (if j == k then 1 else 0)
    ensures Totals(AddTo(gs, k, v)) == Totals(gs) + v
    ensures Counts(AddTo(gs, k, v)) == Counts(gs) + 1
  {
    if gs != [] && gs[0].key != k {
      AddToTotals(gs[1..], k, v, j);
      assert AddTo(gs, k, v)[1..] == AddTo(gs[1..], k, v);
    } else if gs != [] {
      assert AddTo(gs, k, v)[1..] == gs[1..];
    }
  }

  /** `k` ends up among the keys, once. */
  lemma {:induction false} AddToKeys<K>(gs: seq<Group<K>>, k: K, v: int)
    requires DistinctKeys(gs)
    ensures DistinctKeys(AddTo(gs, k, v)) && KeySet(AddTo(gs, k, v)) == KeySet(gs) + {k}
  {
    var r := AddTo(gs, k, v);
    if gs == [] {
      assert r == [Group(k, 1, v)] + gs;
      KeySetCons(Group(k, 1, v), gs);
    } else {
      var tail := gs[1..];
      assert gs == [gs[0]] + tail;
      KeySetCons(gs[0], tail);
      DistinctTail(gs);
      if gs[0].key == k {
        var bumped := gs[0].(count := gs[0].count + 1, total := gs[0].total + v);
        assert r == [bumped] + tail;
        KeySetCons(bumped, tail);
        DistinctCons(bumped, tail);
      } else {
        AddToKeys(tail, k, v);
        var rt := AddTo(tail, k, v);
        assert r == [gs[0]] + rt;
        KeySetCons(gs[0], rt);
        DistinctCons(gs[0], rt);
      }
    }
  }

  /** Existing groups keep their place and key; a new key gets a new group at the
      end, and a known key adds no group. */
  lemma {:induction false} AddToShape<K>(gs: seq<Group<K>>, k: K, v: int)
    ensures var r := AddTo(gs, k, v);
      && (forall i :: 0 <= i < |gs| ==> r[i].key == gs[i].key)
      && ((exists i :: 0 <= i < |gs| && gs[i].key == k) ==> |r| == |gs|)
      && ((forall i :: 0 <= i < |gs| ==> gs[i].key != k) ==> r == gs + [Group(k, 1, v)])
  {
    var r := AddTo(gs, k, v);
    if gs != [] && gs[0].key != k {
      var tail := gs[1..];
      AddToShape(tail, k, v);
      var rt := AddTo(tail, k, v);
      assert r == [gs[0]] + rt;
      forall i | 0 <= i < |gs| ensures r[i].key == gs[i].key {
        if i > 0 {
          assert r[i] == rt[i - 1] && gs[i] == tail[i - 1];
        }
      }
      if exists i :: 0 <= i < |gs| && gs[i].key == k {
        var i :| 0 <= i < |gs| && gs[i].key == k;
        assert tail[i - 1].key == k;
      }
      if forall i :: 0 <= i < |gs| ==> gs[i].key != k {
        assert forall i :: 0 <= i < |tail| ==> tail[i].key != k by {
          forall i | 0 <= i < |tail| ensures tail[i].key != k {
            assert tail[i] == gs[i + 1];
          }
        }
        assert r == [gs[0]] + (tail + [Group(k, 1, v)]);
        assert gs == [gs[0]] + tail;
      }
    }
  }

  lemma KeySetCons<K>(x: Group<K>, gs: seq<Group<K>>)
    ensures KeySet([x] + gs) == {x.key} + KeySet(gs)
  {
    var c := [x] + gs;
    forall y | y in KeySet(c) ensures y in {x.key} + KeySet(gs) {
      var i :| 0 <= i < |c| && c[i].key == y;
      if i > 0 {
        assert gs[i - 1].key == y;
      }
    }
    forall y | y in KeySet(gs) ensures y in KeySet(c) {
      var i :| 0 <= i < |gs| && gs[i].key == y;
      assert c[i + 1].key == y;
    }
    assert c[0].key == x.key;
  }

  lemma DistinctTail<K>(gs: seq<Group<K>>)
    requires DistinctKeys(gs) && gs != []
    ensures DistinctKeys(gs[1..]) && gs[0].key !in KeySet(gs[1..])
  {
    var tail := gs[1..];
    forall i, j | 0 <= i < j < |tail| ensures tail[i].key != tail[j].key {
      assert tail[i] == gs[i + 1] && tail[j] == gs[j + 1];
    }
    forall i | 0 <= i < |tail| ensures tail[i].key != gs[0].key {
      assert tail[i] == gs[i + 1];
    }
  }

  lemma DistinctCons<K>(x: Group<K>, gs: seq<Group<K>>)
    requires DistinctKeys(gs) && x.key !in KeySet(gs)
    ensures DistinctKeys([x] + gs)
  {
    var c := [x] + gs;
    forall i, j | 0 <= i < j < |c| ensures c[i].key != c[j].key {
      assert c[j] == gs[j - 1];
      if i > 0 {
        assert c[i] == gs[i - 1];
      } else {
        assert gs[j - 1].key in KeySet(gs);
      }
    }
  }

  /** With distinct keys, `TotalOf` and `CountOf` read one group's own fields. */
  lemma {:induction false} OwnTotal<K>(gs: seq<Group<K>>, i: nat)
    requires DistinctKeys(gs) && i < |gs|
    ensures TotalOf(gs, gs[i].key) == gs[i].total
    ensures CountOf(gs, gs[i].key) == gs[i].count
  {
    var k := gs[i].key;
    var tail := gs[1..];
    assert DistinctKeys(tail) by {
      forall a, b | 0 <= a < b < |tail| ensures tail[a].key != tail[b].key {
        assert tail[a] == gs[a + 1] && tail[b] == gs[b + 1];
      }
    }
    if i == 0 {
      AbsentKey(tail, k);
    } else {
      assert tail[i - 1] == gs[i];
      OwnTotal(tail, i - 1);
    }
  }

  lemma {:induction false} AbsentKey<K>(gs: seq<Group<K>>, k: K)
    requires forall i :: 0 <= i < |gs| ==> gs[i].key != k
    ensures TotalOf(gs, k) == 0 && CountOf(gs, k) == 0
  {
    if gs != [] {
      assert forall i :: 0 <= i < |gs[1..]| ==> gs[1..][i] == gs[i + 1];
      AbsentKey(gs[1..], k);
    }
  }

  // ---------------------------------------------------------------------------
  // Grouping a whole sequence

  /** Every key of the entries gets exactly one group, whose count and total are
      those of its entries; nothing is lost overall. */
  lemma {:induction false} GroupAllLaws<K>(entries: seq<(K, int)>)
    ensures var g := GroupAll(entries);
      && DistinctKeys(g)
      && KeySet(g) == EntryKeys(entries)
      && (forall i :: 0 <= i < |g| ==> g[i].total == SumFor(entries, g[i].key) && g[i].count == CountFor(entries, g[i].key))
      && Totals(g) == Values(entries)
      && Counts(g) == |entries|
  {
    var g := GroupAll(entries);
    if entries != [] {
      var init := entries[..|entries| - 1];
      var last := entries[|entries| - 1];
      GroupAllLaws(init);
      var g0 := GroupAll(init);
      AddToKeys(g0, last.0, last.1);
      EntryKeysSnoc(entries);
      AddToTotals(g0, last.0, last.1, last.0);
      forall i | 0 <= i < |g| ensures g[i].total == SumFor(entries, g[i].key) && g[i].count == CountFor(entries, g[i].key) {
        var k := g[i].key;
        OwnTotal(g, i);
        AddToTotals(g0, last.0, last.1, k);
        GroupAllTotals(init, k);
      }
    }
  }

  lemma EntryKeysSnoc<K>(entries: seq<(K, int)>)
    requires entries != []
    ensures EntryKeys(entries) == EntryKeys(entries[..|entries| - 1]) + {entries[|entries| - 1].0}
  {
    var init := entries[..|entries| - 1];
    forall x ensures x in EntryKeys(entries) <==> x in EntryKeys(init) + {entries[|entries| - 1].0} {
      if x in EntryKeys(entries) {
        var i :| 0 <= i < |entries| && entries[i].0 == x;
        if i < |init| {
          assert init[i].0 == x;
        }
      }
      if x in EntryKeys(init) {
        var i :| 0 <= i < |init| && init[i].0 == x;
        assert entries[i].0 == x;
      }
    }
  }

  /** Any reordering of the groups (a `$sort` after the `$group`) still holds one
      group per key of the entries, with that key's count and sum. */
  lemma PermutedGroups<K>(entries: seq<(K, int)>, s: seq<Group<K>>)
    requires multiset(s) == multiset(GroupAll(entries))
    ensures forall i :: 0 <= i < |s| ==> s[i].count == CountFor(entries, s[i].key) && s[i].total == SumFor(entries, s[i].key)
    ensures KeySet(s) == EntryKeys(entries)
  {
    var g := GroupAll(entries);
    GroupAllLaws(entries);
    forall i | 0 <= i < |s|
      ensures s[i].count == CountFor(entries, s[i].key) && s[i].total == SumFor(entries, s[i].key)
      ensures s[i].key in KeySet(g)
    {
      assert s[i] in multiset(g);
      var k :| 0 <= k < |g| && g[k] == s[i];
    }
    forall x | x in KeySet(s) ensures x in KeySet(g) {
      var i :| 0 <= i < |s| && s[i].key == x;
    }
    forall x | x in KeySet(g) ensures x in KeySet(s) {
      var k :| 0 <= k < |g| && g[k].key == x;
      assert g[k] in multiset(s);
    }
  }

  /** `TotalOf`/`CountOf` of a grouping are the entries' sums, for any key. */
  lemma {:induction false} GroupAllTotals<K>(entries: seq<(K, int)>, k: K)
    ensures TotalOf(GroupAll(entries), k) == SumFor(entries, k)
    ensures CountOf(GroupAll(entries), k) == CountFor(entries, k)
  {
    if entries != [] {
      var init := entries[..|entries| - 1];
      var last := entries[|entries| - 1];
      GroupAllTotals(init, k);
      AddToTotals(GroupAll(init), last.0, last.1, k);
    }
  }

  // ---------------------------------------------------------------------------
  // The head of a stable sort by total, descending

  /** The first group whose total is maximal: the key that
      `keys.sort((a, b) => count[b] - count[a])[0]` picks, the sort being stable. */
  function FirstMax<K>(gs: seq<Group<K>>): (i: nat)
    requires gs != []
    ensures i < |gs|
    ensures forall j :: 0 <= j < |gs| ==> gs[j].total <= gs[i].total
    ensures forall j :: 0 <= j < i ==> gs[j].total < gs[i].total
  {
    if |gs| == 1 then 0
    else
      var b := FirstMax(gs[..|gs| - 1]);
      if gs[|gs| - 1].total > gs[b].total then |gs| - 1 else b
  }

  /** Only one index has both properties, so `FirstMax` is determined by them. */
  lemma FirstMaxUnique<K>(gs: seq<Group<K>>, i: nat)
    requires i < |gs|
    requires forall j :: 0 <= j < |gs| ==> gs[j].total <= gs[i].total
    requires forall j :: 0 <= j < i ==> gs[j].total < gs[i].total
    ensures FirstMax(gs) == i
  {
  }
}
