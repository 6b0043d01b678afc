/**
 * Counting rows by a string key, shared by the two analytics routes: how
 * many rows carry a key, and the fact that the counts over all keys add up
 * to the number of rows.
 */
module Tally {

  /** How many rows have key `k`. */
  function CountKey<T>(rows: seq<T>, key: T -> string, k: string): nat {
    if rows == [] then 0
    else CountKey(rows[..|rows| - 1], key, k) + (if key(rows[|rows| - 1]) == k then 1 else 0)
  }

  function Keys<T>(rows: seq<T>, key: T -> string): set<string> {
    set i | 0 <= i < |rows| :: key(rows[i])
  }

  predicate Distinct(ks: seq<string>) {
    forall i, j :: 0 <= i < j < |ks| ==> ks[i] != ks[j]
  }

  /** The counts of the keys `ks`, added up. */
  function SumCounts<T>(rows: seq<T>, key: T -> string, ks: seq<string>): nat {
    if ks == [] then 0 else CountKey(rows, key, ks[0]) + SumCounts(rows, key, ks[1..])
  }

  function Occurrences(ks: seq<string>, x: string): nat {
    if ks == [] then 0 else (if ks[0] == x then 1 else 0) + Occurrences(ks[1..], x)
  }

  /** A key is counted at least once exactly when some row carries it. */
  lemma {:induction false} CountKeyPositive<T>(rows: seq<T>, key: T -> string, k: string)
    ensures CountKey(rows, key, k) > 0 <==> k in Keys(rows, key)
    ensures CountKey(rows, key, k) <= |rows|
  {
    if rows != [] {
      var init := rows[..|rows| - 1];
      CountKeyPositive(init, key, k);
      KeysSnoc(init, rows[|rows| - 1], key);
      assert rows == init + [rows[|rows| - 1]];
    }
  }

  /** One more row adds its key to the keys that occur. */
  lemma KeysSnoc<T>(rows: seq<T>, r: T, key: T -> string)
    ensures Keys(rows + [r], key) == Keys(rows, key) + {key(r)}
  {
    var rows' := rows + [r];
    forall x | x in Keys(rows', key)
      ensures x in Keys(rows, key) + {key(r)}
    {
      var i :| 0 <= i < |rows'| && key(rows'[i]) == x;
      if i < |rows| {
        assert rows'[i] == rows[i];
      }
    }
    forall x | x in Keys(rows, key)
      ensures x in Keys(rows', key)
    {
      var i :| 0 <= i < |rows| && key(rows[i]) == x;
      assert rows'[i] == rows[i];
    }
    assert key(rows'[|rows|]) == key(r);
  }

  lemma {:induction false} SumCountsOfNoRows<T>(key: T -> string, ks: seq<string>)
    ensures SumCounts([], key, ks) == 0
  {
    if ks != [] {
      SumCountsOfNoRows(key, ks[1..]);
    }
  }

  /** One more row adds one to the sum for every time its key is listed. */
  lemma {:induction false} SumCountsSnoc<T>(rows: seq<T>, r: T, key: T -> string, ks: seq<string>)
    ensures SumCounts(rows + [r], key, ks) == SumCounts(rows, key, ks) + Occurrences(ks, key(r))
  {
    if ks != [] {
      SumCountsSnoc(rows, r, key, ks[1..]);
      assert (rows + [r])[..|rows|] == rows;
    }
  }

  lemma {:induction false} OccursOnce(ks: seq<string>, x: string)
    requires Distinct(ks) && x in ks
    ensures Occurrences(ks, x) == 1
  {
    if ks[0] == x {
      OccursNever(ks[1..], x);
    } else {
      OccursOnce(ks[1..], x);
    }
  }

  lemma {:induction false} OccursNever(ks: seq<string>, x: string)
    requires x !in ks
    ensures Occurrences(ks, x) == 0
  {
    if ks != [] {
      OccursNever(ks[1..], x);
    }
  }

  /**
   * Partition: when `ks` lists every key that occurs, each once, the counts
   * of the keys add up to the number of rows — every row is counted under
   * exactly one key.
   */
  lemma {:induction false} PartitionSum<T>(rows: seq<T>, key: T -> string, ks: seq<string>)
    requires Distinct(ks)
    requires forall i :: 0 <= i < |rows| ==> key(rows[i]) in ks
    ensures SumCounts(rows, key, ks) == |rows|
  {
    if rows == [] {
      SumCountsOfNoRows(key, ks);
    } else {
      var init, last := rows[..|rows| - 1], rows[|rows| - 1];
      PartitionSum(init, key, ks);
      SumCountsSnoc(init, last, key, ks);
      OccursOnce(ks, key(last));
      assert rows == init + [last];
    }
  }
}
