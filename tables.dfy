/**
 * Record literals. The app keeps its catalogues in TypeScript object literals
 * `{ 'name': value, ... }` and reads them with `record[name] || fallback`. Here such a
 * literal is an ordered list of (name, value) entries with distinct names, and the
 * record is the map those entries define.
 */
module Tables {

  /** The names of `entries`, in order. */
  function Names<V>(entries: seq<(string, V)>): seq<string>
  {
    seq(|entries|, k requires 0 <= k < |entries| => entries[k].0)
  }

  /** No name is given twice. */
  predicate DistinctNames<V>(entries: seq<(string, V)>)
  {
    forall k, l :: 0 <= k < l < |entries| ==> entries[k].0 != entries[l].0
  }

  /** The object literal the entries spell out. */
  function Record<V>(entries: seq<(string, V)>): map<string, V>
    requires DistinctNames(entries)
  {
    map k | 0 <= k < |entries| :: entries[k].0 := entries[k].1
  }

  /** Each entry is found under its own name. */
  lemma RecordAt<V>(entries: seq<(string, V)>, k: nat)
    requires DistinctNames(entries)
    requires k < |entries|
    ensures entries[k].0 in Record(entries)
    ensures Record(entries)[entries[k].0] == entries[k].1
  {
  }

  /** The record has exactly the entries' names as keys. */
  lemma RecordKeys<V>(entries: seq<(string, V)>)
    requires DistinctNames(entries)
    ensures Record(entries).Keys == set k | 0 <= k < |entries| :: entries[k].0
    ensures forall name :: name in Record(entries) <==> name in Names(entries)
  {
    forall name | name in Record(entries)
      ensures name in Names(entries)
    {
      var k :| 0 <= k < |entries| && entries[k].0 == name;
      assert Names(entries)[k] == name;
    }
    forall name | name in Names(entries)
      ensures name in Record(entries)
    {
      var k :| 0 <= k < |entries| && Names(entries)[k] == name;
      RecordAt(entries, k);
    }
  }

  /** The position of a key of the record among the entries. */
  lemma RecordIndex<V>(entries: seq<(string, V)>, name: string) returns (k: nat)
    requires DistinctNames(entries)
    requires name in Record(entries)
    ensures k < |entries| && entries[k].0 == name
    ensures Record(entries)[name] == entries[k].1
  {
    k :| 0 <= k < |entries| && entries[k].0 == name;
    RecordAt(entries, k);
  }

  /** Distinct names give the record one key per entry, and list no name twice. */
  lemma {:induction false} RecordSize<V>(entries: seq<(string, V)>)
    requires DistinctNames(entries)
    ensures |Record(entries)| == |Names(entries)| == |entries|
    ensures forall k, l :: 0 <= k < l < |Names(entries)| ==> Names(entries)[k] != Names(entries)[l]
    decreases |entries|
  {
    if entries != [] {
      var n := |entries| - 1;
      RecordSize(entries[..n]);
      RecordSnoc(entries);
    }
  }

  /** The record of a longer list is that of the shorter one with one more, new, key. */
  lemma RecordSnoc<V>(entries: seq<(string, V)>)
    requires DistinctNames(entries) && entries != []
    ensures DistinctNames(entries[..|entries| - 1])
    ensures entries[|entries| - 1].0 !in Record(entries[..|entries| - 1])
    ensures Record(entries) == Record(entries[..|entries| - 1])[entries[|entries| - 1].0 := entries[|entries| - 1].1]
  {
    var n := |entries| - 1;
    var init := entries[..n];
    var m := Record(init);
    forall name | name in m
      ensures name in Record(entries) && name != entries[n].0 && m[name] == Record(entries)[name]
    {
      var k := RecordIndex(init, name);
      assert init[k] == entries[k];
      RecordAt(entries, k);
    }
    forall name | name in Record(entries) && name != entries[n].0
      ensures name in m
    {
      var k := RecordIndex(entries, name);
      assert init[k] == entries[k];
      RecordAt(init, k);
    }
    RecordAt(entries, n);
  }

  /** `order` lists every position below `n` exactly once. */
  predicate IsPermutation(order: seq<nat>, n: nat)
  {
    |order| == n &&
    (forall k :: 0 <= k < n ==> order[k] < n) &&
    (forall k, l :: 0 <= k < l < n ==> order[k] != order[l]) &&
    (forall j :: 0 <= j < n ==> j in order)
  }

  /** The entries listed again, in the order `order` gives their positions. */
  function Permuted<V>(entries: seq<(string, V)>, order: seq<nat>): (r: seq<(string, V)>)
    requires IsPermutation(order, |entries|)
    ensures |r| == |entries|
    ensures forall k :: 0 <= k < |r| ==> r[k] == entries[order[k]]
  {
    seq(|order|, k requires 0 <= k < |order| => entries[order[k]])
  }

  /** Listing distinct names in another order keeps them distinct. */
  lemma PermutedDistinct<V>(entries: seq<(string, V)>, order: seq<nat>)
    requires DistinctNames(entries) && IsPermutation(order, |entries|)
    ensures DistinctNames(Permuted(entries, order))
  {
    var other := Permuted(entries, order);
    forall k, l | 0 <= k < l < |other|
      ensures other[k].0 != other[l].0
    {
      assert other[k] == entries[order[k]] && other[l] == entries[order[l]];
      assert order[k] != order[l];
    }
  }

  /** Every entry of the new listing is found in the old record, with its value. */
  lemma PermutedEntry<V>(entries: seq<(string, V)>, order: seq<nat>, k: nat)
    requires DistinctNames(entries) && IsPermutation(order, |entries|)
    requires DistinctNames(Permuted(entries, order)) && k < |entries|
    ensures Permuted(entries, order)[k].0 in Record(entries)
    ensures Record(entries)[Permuted(entries, order)[k].0] == Permuted(entries, order)[k].1
  {
    assert Permuted(entries, order)[k] == entries[order[k]];
    RecordAt(entries, order[k]);
  }

  /** Every entry of the old listing has a place in the new one. */
  lemma PermutedCovers<V>(entries: seq<(string, V)>, order: seq<nat>, j: nat) returns (k: nat)
    requires IsPermutation(order, |entries|) && j < |entries|
    ensures k < |entries| && Permuted(entries, order)[k] == entries[j]
  {
    assert j in order;
    k :| 0 <= k < |order| && order[k] == j;
  }

  /** Listing the entries in another order spells out the same record. */
  lemma RecordPermuted<V>(entries: seq<(string, V)>, order: seq<nat>)
    requires DistinctNames(entries) && IsPermutation(order, |entries|)
    ensures DistinctNames(Permuted(entries, order))
    ensures Record(Permuted(entries, order)) == Record(entries)
  {
    PermutedDistinct(entries, order);
    var other := Permuted(entries, order);
    forall name | name in Record(other)
      ensures name in Record(entries) && Record(other)[name] == Record(entries)[name]
    {
      var k := RecordIndex(other, name);
      PermutedEntry(entries, order, k);
    }
    forall name | name in Record(entries)
      ensures name in Record(other)
    {
      var j := RecordIndex(entries, name);
      var k := PermutedCovers(entries, order, j);
      RecordAt(other, k);
    }
  }
}
