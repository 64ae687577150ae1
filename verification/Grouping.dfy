/** Totals over keyed rows, what GROUP BY does to them, and what splitting them by a label does. */
module Grouping {
  /** One row's contribution to one total. */
  datatype Entry<K> = Entry(key: K, weight: int)

  function Total<K>(rows: seq<Entry<K>>, pick: K -> bool): int {
    if rows == [] then 0
    else
      var last := rows[|rows| - 1];
      Total(rows[..|rows| - 1], pick) + (if pick(last.key) then last.weight else 0)
  }

  function All<K>(): K -> bool {
    (k: K) => true
  }

  function Is<K(==)>(key: K): K -> bool {
    (k: K) => k == key
  }

  lemma {:induction false} TotalOfOneMore<K>(rows: seq<Entry<K>>, row: Entry<K>, pick: K -> bool)
    ensures Total(rows + [row], pick) == Total(rows, pick) + (if pick(row.key) then row.weight else 0)
  {
    assert (rows + [row])[..|rows|] == rows;
  }

  lemma {:induction false} SamePicksSameTotal<K>(rows: seq<Entry<K>>, a: K -> bool, b: K -> bool)
    requires forall i :: 0 <= i < |rows| ==> a(rows[i].key) == b(rows[i].key)
    ensures Total(rows, a) == Total(rows, b)
    decreases |rows|
  {
    if rows != [] { SamePicksSameTotal(rows[..|rows| - 1], a, b); }
  }

  lemma {:induction false} NonNegativeTotals<K>(rows: seq<Entry<K>>, pick: K -> bool)
    requires forall i :: 0 <= i < |rows| ==> rows[i].weight >= 0
    ensures Total(rows, pick) >= 0
    decreases |rows|
  {
    if rows != [] { NonNegativeTotals(rows[..|rows| - 1], pick); }
  }

  /** Row by row at most as much: so in total. */
  lemma {:induction false} SmallerTotals<K>(a: seq<Entry<K>>, b: seq<Entry<K>>, pick: K -> bool)
    requires |a| == |b| && forall i :: 0 <= i < |a| ==> a[i].key == b[i].key && a[i].weight <= b[i].weight
    ensures Total(a, pick) <= Total(b, pick)
    decreases |a|
  {
    if a != [] { SmallerTotals(a[..|a| - 1], b[..|b| - 1], pick); }
  }

  // ---------------------------------------------------------------- GROUP BY

  predicate HasKey<K(==)>(rows: seq<Entry<K>>, key: K) {
    exists i :: 0 <= i < |rows| && rows[i].key == key
  }

  predicate DistinctKeys<K(==)>(rows: seq<Entry<K>>) {
    forall i, j :: 0 <= i < j < |rows| ==> rows[i].key != rows[j].key
  }

  /** SELECT key, SUM(weight) ... GROUP BY key. */
  predicate GroupedBy<K(==)>(groups: seq<Entry<K>>, rows: seq<Entry<K>>) {
    && DistinctKeys(groups)
    && (forall i :: 0 <= i < |groups| ==> groups[i].weight == Total(rows, Is(groups[i].key)))
    && (forall i :: 0 <= i < |rows| ==> HasKey(groups, rows[i].key))
  }

  /** The rows that belong to some group, as far as they are picked. */
  function Within<K(==)>(groups: seq<Entry<K>>, pick: K -> bool): K -> bool {
    (k: K) => HasKey(groups, k) && pick(k)
  }

  lemma {:induction false} WithinOneMore<K>(rows: seq<Entry<K>>, groups: seq<Entry<K>>, g: Entry<K>, pick: K -> bool)
    requires !HasKey(groups, g.key)
    ensures Total(rows, Within(groups + [g], pick))
         == Total(rows, Within(groups, pick)) + (if pick(g.key) then Total(rows, Is(g.key)) else 0)
    decreases |rows|
  {
    if rows != [] {
      var key := rows[|rows| - 1].key;
      WithinOneMore(rows[..|rows| - 1], groups, g, pick);
      assert HasKey(groups + [g], key) <==> HasKey(groups, key) || key == g.key by {
        if i :| 0 <= i < |groups| && groups[i].key == key { assert (groups + [g])[i].key == key; }
        assert (groups + [g])[|groups|] == g;
      }
    }
  }

  lemma {:induction false} GroupsTotalWithin<K>(groups: seq<Entry<K>>, rows: seq<Entry<K>>, pick: K -> bool)
    requires DistinctKeys(groups)
    requires forall i :: 0 <= i < |groups| ==> groups[i].weight == Total(rows, Is(groups[i].key))
    ensures Total(groups, pick) == Total(rows, Within(groups, pick))
    decreases |groups|
  {
    if groups == [] {
      NothingWithin(rows, pick);
    } else {
      var rest, g := groups[..|groups| - 1], groups[|groups| - 1];
      assert groups == rest + [g];
      forall i | 0 <= i < |rest| ensures rest[i].key != g.key { assert groups[i] == rest[i]; }
      GroupsTotalWithin(rest, rows, pick);
      WithinOneMore(rows, rest, g, pick);
    }
  }

  lemma {:induction false} NothingWithin<K>(rows: seq<Entry<K>>, pick: K -> bool)
    ensures Total(rows, Within([], pick)) == 0
    decreases |rows|
  {
    if rows != [] { NothingWithin(rows[..|rows| - 1], pick); }
  }

  /** Grouping loses nothing: whatever part of the keys is picked, groups and rows have the same total. */
  lemma {:induction false} GroupsKeepTotals<K>(groups: seq<Entry<K>>, rows: seq<Entry<K>>, pick: K -> bool)
    requires GroupedBy(groups, rows)
    ensures Total(groups, pick) == Total(rows, pick)
  {
    GroupsTotalWithin(groups, rows, pick);
    SamePicksSameTotal(rows, Within(groups, pick), pick);
  }

  // ---------------------------------------------------------------- splitting by a label

  function SumOver<L, K>(labels: seq<L>, rows: seq<Entry<K>>, part: L -> (K -> bool)): int {
    if labels == [] then 0 else SumOver(labels[..|labels| - 1], rows, part) + Total(rows, part(labels[|labels| - 1]))
  }

  /** How many of the labels claim the key. */
  function Claims<L, K>(labels: seq<L>, key: K, part: L -> (K -> bool)): nat {
    if labels == [] then 0 else Claims(labels[..|labels| - 1], key, part) + (if part(labels[|labels| - 1])(key) then 1 else 0)
  }

  lemma {:induction false} SumOverOneMore<L, K>(labels: seq<L>, rows: seq<Entry<K>>, row: Entry<K>, part: L -> (K -> bool))
    ensures SumOver(labels, rows + [row], part) == SumOver(labels, rows, part) + Claims(labels, row.key, part) * row.weight
    decreases |labels|
  {
    if labels != [] {
      SumOverOneMore(labels[..|labels| - 1], rows, row, part);
      TotalOfOneMore(rows, row, part(labels[|labels| - 1]));
    }
  }

  lemma {:induction false} SumOverNothing<L, K>(labels: seq<L>, part: L -> (K -> bool))
    ensures SumOver(labels, [], part) == 0
    decreases |labels|
  {
    if labels != [] { SumOverNothing(labels[..|labels| - 1], part); }
  }

  /** Where every row is claimed by exactly one label, the labels' totals add up to the whole. */
  lemma {:induction false} PartsAddUp<L, K>(labels: seq<L>, rows: seq<Entry<K>>, part: L -> (K -> bool))
    requires forall i :: 0 <= i < |rows| ==> Claims(labels, rows[i].key, part) == 1
    ensures SumOver(labels, rows, part) == Total(rows, All())
    decreases |rows|
  {
    if rows == [] {
      SumOverNothing(labels, part);
    } else {
      var rest, row := rows[..|rows| - 1], rows[|rows| - 1];
      assert rows == rest + [row];
      PartsAddUp(labels, rest, part);
      SumOverOneMore(labels, rest, row, part);
    }
  }

  lemma {:induction false} ClaimedOnce<L, K>(labels: seq<L>, key: K, part: L -> (K -> bool), k: nat)
    requires k < |labels| && part(labels[k])(key)
    requires forall i :: 0 <= i < |labels| && i != k ==> !part(labels[i])(key)
    ensures Claims(labels, key, part) == 1
    decreases |labels|
  {
    if k == |labels| - 1 {
      ClaimedNever(labels[..k], key, part);
    } else {
      ClaimedOnce(labels[..|labels| - 1], key, part, k);
    }
  }

  lemma {:induction false} ClaimedNever<L, K>(labels: seq<L>, key: K, part: L -> (K -> bool))
    requires forall i :: 0 <= i < |labels| ==> !part(labels[i])(key)
    ensures Claims(labels, key, part) == 0
    decreases |labels|
  {
    if labels != [] { ClaimedNever(labels[..|labels| - 1], key, part); }
  }

  function Sum(values: seq<int>): int {
    if values == [] then 0 else Sum(values[..|values| - 1]) + values[|values| - 1]
  }

  /** Values that are the totals of the labels' parts add up to the whole where every row has one label. */
  lemma {:induction false} SumIsSumOver<L, K>(labels: seq<L>, values: seq<int>, rows: seq<Entry<K>>, part: L -> (K -> bool))
    requires |values| == |labels| && forall i :: 0 <= i < |labels| ==> values[i] == Total(rows, part(labels[i]))
    ensures Sum(values) == SumOver(labels, rows, part)
    decreases |labels|
  {
    if labels != [] { SumIsSumOver(labels[..|labels| - 1], values[..|values| - 1], rows, part); }
  }

  lemma {:induction false} SumOfDifferences(a: seq<int>, b: seq<int>, d: seq<int>)
    requires |a| == |b| == |d| && forall i :: 0 <= i < |a| ==> d[i] == a[i] - b[i]
    ensures Sum(d) == Sum(a) - Sum(b)
    decreases |a|
  {
    if a != [] { SumOfDifferences(a[..|a| - 1], b[..|b| - 1], d[..|d| - 1]); }
  }
}
