/** Sums of the amount column per group, for a grouping key that is any function of
    a row: the month of issue for the monthly series, the client name for the client
    table. */
module Grouping {
  import opened Invoices

  /** The keys that occur in the table. */
  ghost function KeysOf<K>(rows: seq<Invoice>, key: Invoice -> K): set<K>
  {
    if rows == [] then {} else KeysOf(rows[..|rows| - 1], key) + {key(rows[|rows| - 1])}
  }

  /** Sum of the amounts of the rows whose key is k. */
  function KeyTotal<K(==)>(rows: seq<Invoice>, key: Invoice -> K, k: K): real
  {
    if rows == [] then 0.0
    else KeyTotal(rows[..|rows| - 1], key, k)
         + (if key(rows[|rows| - 1]) == k then rows[|rows| - 1].amount else 0.0)
  }

  /** Number of rows whose key is k. */
  function KeyCount<K(==)>(rows: seq<Invoice>, key: Invoice -> K, k: K): nat
  {
    if rows == [] then 0
    else KeyCount(rows[..|rows| - 1], key, k) + (if key(rows[|rows| - 1]) == k then 1 else 0)
  }

  predicate Distinct<K(==)>(ks: seq<K>)
  {
    forall i, j :: 0 <= i < j < |ks| ==> ks[i] != ks[j]
  }

  /** Sum of the group totals of the keys ks. */
  function SumKeyTotals<K(==)>(rows: seq<Invoice>, key: Invoice -> K, ks: seq<K>): real
  {
    if ks == [] then 0.0
    else SumKeyTotals(rows, key, ks[..|ks| - 1]) + KeyTotal(rows, key, ks[|ks| - 1])
  }

  /** Sum of the group counts of the keys ks. */
  function SumKeyCounts<K(==)>(rows: seq<Invoice>, key: Invoice -> K, ks: seq<K>): nat
  {
    if ks == [] then 0
    else SumKeyCounts(rows, key, ks[..|ks| - 1]) + KeyCount(rows, key, ks[|ks| - 1])
  }

  lemma SnocPrefix(rows: seq<Invoice>, r: Invoice)
    ensures (rows + [r])[..|rows + [r]| - 1] == rows
    ensures (rows + [r])[|rows + [r]| - 1] == r
  {
  }

  /** Adding one row adds it to the group of its key and to no other. */
  lemma KeySnoc<K>(rows: seq<Invoice>, key: Invoice -> K, r: Invoice, k: K)
    ensures KeyTotal(rows + [r], key, k) == KeyTotal(rows, key, k) + (if key(r) == k then r.amount else 0.0)
    ensures KeyCount(rows + [r], key, k) == KeyCount(rows, key, k) + (if key(r) == k then 1 else 0)
    ensures KeysOf(rows + [r], key) == KeysOf(rows, key) + {key(r)}
  {
    SnocPrefix(rows, r);
  }

  /** A key that occurs in no row has an empty group. */
  lemma {:induction false} AbsentKey<K>(rows: seq<Invoice>, key: Invoice -> K, k: K)
    requires k !in KeysOf(rows, key)
    ensures KeyTotal(rows, key, k) == 0.0
    ensures KeyCount(rows, key, k) == 0
    decreases |rows|
  {
    if rows != [] {
      AbsentKey(rows[..|rows| - 1], key, k);
    }
  }

  lemma {:induction false} DistinctPrefix<K>(ks: seq<K>)
    requires Distinct(ks) && ks != []
    ensures Distinct(ks[..|ks| - 1])
    ensures ks[|ks| - 1] !in ks[..|ks| - 1]
  {
  }

  /** Summing over distinct keys after adding a row r adds r once if its key is among them. */
  lemma {:induction false} SumKeySnoc<K>(rows: seq<Invoice>, key: Invoice -> K, r: Invoice, ks: seq<K>)
    requires Distinct(ks)
    ensures SumKeyTotals(rows + [r], key, ks)
            == SumKeyTotals(rows, key, ks) + (if key(r) in ks then r.amount else 0.0)
    ensures SumKeyCounts(rows + [r], key, ks)
            == SumKeyCounts(rows, key, ks) + (if key(r) in ks then 1 else 0)
    decreases |ks|
  {
    if ks != [] {
      var init, last := ks[..|ks| - 1], ks[|ks| - 1];
      DistinctPrefix(ks);
      SumKeySnoc(rows, key, r, init);
      KeySnoc(rows, key, r, last);
      assert key(r) in ks <==> key(r) in init || key(r) == last by {
        assert ks == init + [last];
      }
    }
  }

  /** Partition: summing the groups of distinct keys that cover every key of the table
      gives back the table's total and its row count. */
  lemma {:induction false} SumOverCoveringKeys<K>(rows: seq<Invoice>, key: Invoice -> K, ks: seq<K>)
    requires Distinct(ks)
    requires forall k :: k in KeysOf(rows, key) ==> k in ks
    ensures SumKeyTotals(rows, key, ks) == TotalAmount(rows)
    ensures SumKeyCounts(rows, key, ks) == |rows|
    decreases |rows|
  {
    if rows == [] {
      EmptyTableGroups(key, ks);
    } else {
      var init, last := rows[..|rows| - 1], rows[|rows| - 1];
      assert rows == init + [last];
      KeySnoc(init, key, last, key(last));
      SumOverCoveringKeys(init, key, ks);
      SumKeySnoc(init, key, last, ks);
    }
  }

  lemma {:induction false} EmptyTableGroups<K>(key: Invoice -> K, ks: seq<K>)
    ensures SumKeyTotals([], key, ks) == 0.0
    ensures SumKeyCounts([], key, ks) == 0
    decreases |ks|
  {
    if ks != [] {
      EmptyTableGroups(key, ks[..|ks| - 1]);
    }
  }
}
