/**
 * The exercise record shared by the catalogue tables and the exercise list
 * (`Exercise` in src/types/index.ts), and what a consecutively numbered catalogue of
 * such records guarantees about its ids.
 */
module ExerciseTypes {
  import opened Tables
  import opened Numerals

  datatype Difficulty = Beginner | Intermediate | Advanced {
    /** The string the source stores in the `difficulty` field. */
    function Name(): (s: string)
      ensures s in {"Beginner", "Intermediate", "Advanced"}
    {
      match this
      case Beginner => "Beginner"
      case Intermediate => "Intermediate"
      case Advanced => "Advanced"
    }
  }

  /** An exercise; the free-text `description` is not part of this model. */
  datatype Exercise = Exercise(
    id: string,
    title: string,
    difficulty: Difficulty,
    duration: string)

  /** The ids of a list of exercises, in list order. */
  function Ids(es: seq<Exercise>): seq<string>
  {
    seq(|es|, k requires 0 <= k < |es| => es[k].id)
  }

  /** The id lists of a catalogue's entries, entry by entry. */
  function IdTable(entries: seq<(string, seq<Exercise>)>): seq<seq<string>>
  {
    seq(|entries|, k requires 0 <= k < |entries| => Ids(entries[k].1))
  }

  /** Every id that occurs anywhere in a catalogue record. */
  function AllIds(db: map<string, seq<Exercise>>): set<string>
  {
    set name, i | name in db && 0 <= i < |db[name]| :: db[name][i].id
  }

  /** In a catalogue numbered consecutively, no two exercises share an id. */
  lemma RecordIdsDistinct(entries: seq<(string, seq<Exercise>)>, prefix: string, from: nat,
                          a: string, i: nat, b: string, j: nat)
    requires DistinctNames(entries) && Consecutive(IdTable(entries), prefix, from)
    requires a in Record<seq<Exercise>>(entries) && i < |Record<seq<Exercise>>(entries)[a]|
    requires b in Record<seq<Exercise>>(entries) && j < |Record<seq<Exercise>>(entries)[b]|
    requires Record<seq<Exercise>>(entries)[a][i].id == Record<seq<Exercise>>(entries)[b][j].id
    ensures a == b && i == j
  {
    var k := RecordIndex(entries, a);
    var l := RecordIndex(entries, b);
    assert IdTable(entries)[k][i] == Record<seq<Exercise>>(entries)[a][i].id;
    assert IdTable(entries)[l][j] == Record<seq<Exercise>>(entries)[b][j].id;
    ConsecutiveDistinct(IdTable(entries), prefix, from, k, i, l, j);
  }

  /** The ids of a consecutively numbered catalogue are exactly its range of numbers. */
  lemma RecordIdsCover(entries: seq<(string, seq<Exercise>)>, prefix: string, from: nat)
    requires DistinctNames(entries) && Consecutive(IdTable(entries), prefix, from)
    ensures AllIds(Record<seq<Exercise>>(entries)) == NumberRange(prefix, from, Count(IdTable(entries)))
  {
    var db := Record<seq<Exercise>>(entries);
    var t := IdTable(entries);
    var range := NumberRange(prefix, from, Count(t));
    forall id | id in AllIds(db)
      ensures id in range
    {
      var name, i :| name in db && 0 <= i < |db[name]| && db[name][i].id == id;
      var k := RecordIndex(entries, name);
      assert t[k][i] == id;
      ConsecutiveBounded(t, prefix, from, k, i);
    }
    forall id | id in range
      ensures id in AllIds(db)
    {
      var v :| from <= v < from + Count(t) && id == prefix + Decimal(v);
      ConsecutiveCovers(t, prefix, from, v);
      var k, i :| 0 <= k < |t| && 0 <= i < |t[k]| && t[k][i] == prefix + Decimal(v);
      RecordAt(entries, k);
      assert db[entries[k].0][i].id == id;
    }
    assert AllIds(db) == range;
  }
}
