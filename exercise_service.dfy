/**
 * The injury catalogue of src/services/exerciseService.ts: a constant record from
 * injury name to a fixed, ordered list of rehabilitation exercises, and the lookup
 * that answers an empty list for any name that is not in the record.
 */
module ExerciseService {
  import opened Tables
  import opened Numerals
  import opened ExerciseTypes

  /** The entries of `exerciseDatabase`, in the order the object literal lists them. */
  const InjuryTable: seq<(string, seq<Exercise>)> := [
    ("Neck Pain", [
      Exercise("17", "Neck Rotation", Beginner, "5-8 minutes"),
      Exercise("18", "Chin Tucks", Beginner, "5-10 minutes"),
      Exercise("19", "Isometric Neck Exercises", Intermediate, "8-10 minutes")
    ]),
    ("Shoulder Pain", [
      Exercise("1", "Pendulum Exercise", Beginner, "5-10 minutes"),
      Exercise("2", "Wall Slides", Intermediate, "10-15 minutes"),
      Exercise("3", "Rotator Cuff External Rotation", Intermediate, "10-12 minutes")
    ]),
    ("Knee Pain", [
      Exercise("4", "Straight Leg Raises", Beginner, "10 minutes"),
      Exercise("5", "Wall Sits", Intermediate, "5-8 minutes"),
      Exercise("6", "Step-Ups", Advanced, "15 minutes")
    ]),
    ("Back Pain", [
      Exercise("7", "Cat-Cow Stretch", Beginner, "5-10 minutes"),
      Exercise("8", "Bird Dog Exercise", Intermediate, "10-15 minutes"),
      Exercise("9", "Bridge Exercise", Beginner, "8-10 minutes")
    ]),
    ("Ankle Sprain", [
      Exercise("10", "Ankle Alphabet", Beginner, "5-10 minutes"),
      Exercise("11", "Heel Raises", Intermediate, "8-12 minutes"),
      Exercise("12", "Balance Board Exercises", Advanced, "10-15 minutes")
    ]),
    ("Wrist Pain", [
      Exercise("13", "Wrist Flexor Stretch", Beginner, "5-8 minutes"),
      Exercise("14", "Grip Strengthening", Intermediate, "5-10 minutes")
    ]),
    ("Elbow Pain", [
      Exercise("20", "Wrist Flexion/Extension", Beginner, "5-8 minutes"),
      Exercise("21", "Forearm Pronation/Supination", Intermediate, "8-10 minutes")
    ]),
    ("Hamstring Strain", [
      Exercise("22", "Standing Hamstring Stretch", Beginner, "8-10 minutes"),
      Exercise("23", "Nordic Hamstring Curl", Advanced, "10-15 minutes")
    ]),
    ("Plantar Fasciitis", [
      Exercise("24", "Foot Rolling", Beginner, "5-10 minutes"),
      Exercise("25", "Toe Stretches", Beginner, "5-8 minutes")
    ]),
    ("Tennis Elbow", [
      Exercise("26", "Eccentric Wrist Extension", Intermediate, "8-12 minutes"),
      Exercise("27", "Forearm Stretches", Beginner, "5-8 minutes")
    ]),
    ("Groin Strain", [
      Exercise("28", "Butterfly Stretch", Beginner, "8-10 minutes"),
      Exercise("29", "Lateral Lunges", Intermediate, "10-12 minutes")
    ]),
    ("Shin Splints", [
      Exercise("30", "Toe Taps", Beginner, "5-8 minutes"),
      Exercise("31", "Calf Raises", Intermediate, "8-10 minutes")
    ]),
    ("Rotator Cuff Injury", [
      Exercise("32", "Internal Rotation", Intermediate, "8-10 minutes"),
      Exercise("33", "Shoulder Blade Squeezes", Beginner, "5-8 minutes")
    ]),
    ("IT Band Syndrome", [
      Exercise("34", "Foam Rolling IT Band", Intermediate, "8-10 minutes"),
      Exercise("35", "Standing IT Band Stretch", Beginner, "5-8 minutes")
    ]),
    ("Carpal Tunnel", [
      Exercise("36", "Nerve Gliding Exercises", Beginner, "5-8 minutes"),
      Exercise("37", "Wrist Stretches", Beginner, "5-10 minutes")
    ]),
    ("Hip Pain", [
      Exercise("15", "Hip Flexor Stretch", Beginner, "8-10 minutes"),
      Exercise("16", "Clamshell Exercise", Intermediate, "10-12 minutes")
    ])
  ]

  lemma InjuryNamesDistinct()
    ensures DistinctNames(InjuryTable)
  {
  }

  /** `exerciseDatabase` */
  const ExerciseDatabase: map<string, seq<Exercise>> := (InjuryNamesDistinct(); Record(InjuryTable))

  /** The injury names, in the order the object literal lists them. */
  const InjuryNames: seq<string> := Names(InjuryTable)

  /**
   * The positions of the literal's entries sorted by their ids: the literal lists
   * "Neck Pain" (ids 17 to 19) first and "Hip Pain" (ids 15 and 16) last.
   */
  const InjuryOrderById: seq<nat> := [1, 2, 3, 4, 5, 15, 0, 6, 7, 8, 9, 10, 11, 12, 13, 14]

  /** The same entries, sorted by their ids. */
  const InjuryTableById: seq<(string, seq<Exercise>)> := Permuted(InjuryTable, InjuryOrderById)

  /** The injury names as the literal lists them. */
  lemma InjuryNamesValue()
    ensures InjuryNames == [
      "Neck Pain", "Shoulder Pain", "Knee Pain", "Back Pain", "Ankle Sprain", "Wrist Pain",
      "Elbow Pain", "Hamstring Strain", "Plantar Fasciitis", "Tennis Elbow", "Groin Strain",
      "Shin Splints", "Rotator Cuff Injury", "IT Band Syndrome", "Carpal Tunnel", "Hip Pain"]
  {
  }

  /** The injury names sorted by their ids. */
  lemma InjuryNamesByIdValue()
    ensures Names(InjuryTableById) == [
      "Shoulder Pain", "Knee Pain", "Back Pain", "Ankle Sprain", "Wrist Pain", "Hip Pain",
      "Neck Pain", "Elbow Pain", "Hamstring Strain", "Plantar Fasciitis", "Tennis Elbow",
      "Groin Strain", "Shin Splints", "Rotator Cuff Injury", "IT Band Syndrome", "Carpal Tunnel"]
  {
  }

  /** Sorting the entries by id spells out the same record. */
  lemma InjuryTableByIdRecord()
    ensures DistinctNames(InjuryTableById)
    ensures Record(InjuryTableById) == ExerciseDatabase
  {
    InjuryNamesDistinct();
    RecordPermuted(InjuryTable, InjuryOrderById);
  }

  /** `getExercisesForInjury`: `exerciseDatabase[injury] || []`. */
  function GetExercisesForInjury(injury: string): (r: seq<Exercise>)
    ensures injury in ExerciseDatabase ==> r == ExerciseDatabase[injury]
    ensures injury !in ExerciseDatabase ==> r == []
    ensures r != [] <==> injury in InjuryNames
  {
    InjuryListSizes();
    InjuryKeys();
    if injury in ExerciseDatabase then ExerciseDatabase[injury] else []
  }

  /** The record's keys are exactly the injury names. */
  lemma InjuryKeys()
    ensures forall name :: name in ExerciseDatabase <==> name in InjuryNames
  {
    InjuryNamesDistinct();
    RecordKeys(InjuryTable);
  }

  /** There are 16 injury names, none given twice, so the record has 16 keys. */
  lemma InjuryCount()
    ensures |InjuryNames| == 16 && |ExerciseDatabase| == 16
    ensures forall k, l :: 0 <= k < l < |InjuryNames| ==> InjuryNames[k] != InjuryNames[l]
  {
    assert |InjuryTable| == 16;
    InjuryNamesDistinct();
    RecordSize(InjuryTable);
  }

  /** Every injury has two or three exercises. */
  lemma InjuryListSizes()
    ensures forall name :: name in ExerciseDatabase ==> 2 <= |ExerciseDatabase[name]| <= 3
  {
    InjuryNamesDistinct();
    assert forall k | 0 <= k < 16 :: 2 <= |InjuryTable[k].1| <= 3;
    forall name | name in ExerciseDatabase
      ensures 2 <= |ExerciseDatabase[name]| <= 3
    {
      var k := RecordIndex(InjuryTable, name);
    }
  }

  /** The ids of each entry, entry by entry. */
  const InjuryIds: seq<seq<string>> := [
    ["1", "2", "3"],
    ["4", "5", "6"],
    ["7", "8", "9"],
    ["10", "11", "12"],
    ["13", "14"],
    ["15", "16"],
    ["17", "18", "19"],
    ["20", "21"],
    ["22", "23"],
    ["24", "25"],
    ["26", "27"],
    ["28", "29"],
    ["30", "31"],
    ["32", "33"],
    ["34", "35"],
    ["36", "37"]
  ]

  /** The first id number of each entry, and one past the last id. */
  const InjuryFirstIds: seq<nat> := [1, 4, 7, 10, 13, 15, 17, 20, 22, 24, 26, 28, 30, 32, 34, 36, 38]

  lemma InjuryEntryIds0()
    ensures Ids(InjuryTableById[0].1) == InjuryIds[0]
  {
  }

  lemma InjuryIdsNumbered0()
    ensures NumberedFrom(InjuryIds[0], "", 1) && |InjuryIds[0]| == 3
  {
  }

  lemma InjuryEntryIds1()
    ensures Ids(InjuryTableById[1].1) == InjuryIds[1]
  {
  }

  lemma InjuryIdsNumbered1()
    ensures NumberedFrom(InjuryIds[1], "", 4) && |InjuryIds[1]| == 3
  {
  }

  lemma InjuryEntryIds2()
    ensures Ids(InjuryTableById[2].1) == InjuryIds[2]
  {
  }

  lemma InjuryIdsNumbered2()
    ensures NumberedFrom(InjuryIds[2], "", 7) && |InjuryIds[2]| == 3
  {
  }

  lemma InjuryEntryIds3()
    ensures Ids(InjuryTableById[3].1) == InjuryIds[3]
  {
  }

  lemma InjuryIdsNumbered3()
    ensures NumberedFrom(InjuryIds[3], "", 10) && |InjuryIds[3]| == 3
  {
  }

  lemma InjuryEntryIds4()
    ensures Ids(InjuryTableById[4].1) == InjuryIds[4]
  {
  }

  lemma InjuryIdsNumbered4()
    ensures NumberedFrom(InjuryIds[4], "", 13) && |InjuryIds[4]| == 2
  {
  }

  lemma InjuryEntryIds5()
    ensures Ids(InjuryTableById[5].1) == InjuryIds[5]
  {
  }

  lemma InjuryIdsNumbered5()
    ensures NumberedFrom(InjuryIds[5], "", 15) && |InjuryIds[5]| == 2
  {
  }

  lemma InjuryEntryIds6()
    ensures Ids(InjuryTableById[6].1) == InjuryIds[6]
  {
  }

  lemma InjuryIdsNumbered6()
    ensures NumberedFrom(InjuryIds[6], "", 17) && |InjuryIds[6]| == 3
  {
  }

  lemma InjuryEntryIds7()
    ensures Ids(InjuryTableById[7].1) == InjuryIds[7]
  {
  }

  lemma InjuryIdsNumbered7()
    ensures NumberedFrom(InjuryIds[7], "", 20) && |InjuryIds[7]| == 2
  {
  }

  lemma InjuryEntryIds8()
    ensures Ids(InjuryTableById[8].1) == InjuryIds[8]
  {
  }

  lemma InjuryIdsNumbered8()
    ensures NumberedFrom(InjuryIds[8], "", 22) && |InjuryIds[8]| == 2
  {
  }

  lemma InjuryEntryIds9()
    ensures Ids(InjuryTableById[9].1) == InjuryIds[9]
  {
  }

  lemma InjuryIdsNumbered9()
    ensures NumberedFrom(InjuryIds[9], "", 24) && |InjuryIds[9]| == 2
  {
  }

  lemma InjuryEntryIds10()
    ensures Ids(InjuryTableById[10].1) == InjuryIds[10]
  {
  }

  lemma InjuryIdsNumbered10()
    ensures NumberedFrom(InjuryIds[10], "", 26) && |InjuryIds[10]| == 2
  {
  }

  lemma InjuryEntryIds11()
    ensures Ids(InjuryTableById[11].1) == InjuryIds[11]
  {
  }

  lemma InjuryIdsNumbered11()
    ensures NumberedFrom(InjuryIds[11], "", 28) && |InjuryIds[11]| == 2
  {
  }

  lemma InjuryEntryIds12()
    ensures Ids(InjuryTableById[12].1) == InjuryIds[12]
  {
  }

  lemma InjuryIdsNumbered12()
    ensures NumberedFrom(InjuryIds[12], "", 30) && |InjuryIds[12]| == 2
  {
  }

  lemma InjuryEntryIds13()
    ensures Ids(InjuryTableById[13].1) == InjuryIds[13]
  {
  }

  lemma InjuryIdsNumbered13()
    ensures NumberedFrom(InjuryIds[13], "", 32) && |InjuryIds[13]| == 2
  {
  }

  lemma InjuryEntryIds14()
    ensures Ids(InjuryTableById[14].1) == InjuryIds[14]
  {
  }

  lemma InjuryIdsNumbered14()
    ensures NumberedFrom(InjuryIds[14], "", 34) && |InjuryIds[14]| == 2
  {
  }

  lemma InjuryEntryIds15()
    ensures Ids(InjuryTableById[15].1) == InjuryIds[15]
  {
  }

  lemma InjuryIdsNumbered15()
    ensures NumberedFrom(InjuryIds[15], "", 36) && |InjuryIds[15]| == 2
  {
  }

  /** The id table is the literal `InjuryIds`. */
  lemma InjuryIdTable()
    ensures IdTable(InjuryTableById) == InjuryIds
  {
    forall k | 0 <= k < 16
      ensures IdTable(InjuryTableById)[k] == InjuryIds[k]
    {
      if k == 0 {
        InjuryEntryIds0();
      } else if k == 1 {
        InjuryEntryIds1();
      } else if k == 2 {
        InjuryEntryIds2();
      } else if k == 3 {
        InjuryEntryIds3();
      } else if k == 4 {
        InjuryEntryIds4();
      } else if k == 5 {
        InjuryEntryIds5();
      } else if k == 6 {
        InjuryEntryIds6();
      } else if k == 7 {
        InjuryEntryIds7();
      } else if k == 8 {
        InjuryEntryIds8();
      } else if k == 9 {
        InjuryEntryIds9();
      } else if k == 10 {
        InjuryEntryIds10();
      } else if k == 11 {
        InjuryEntryIds11();
      } else if k == 12 {
        InjuryEntryIds12();
      } else if k == 13 {
        InjuryEntryIds13();
      } else if k == 14 {
        InjuryEntryIds14();
      } else {
        InjuryEntryIds15();
      }
    }
  }

  /** The numbering of the first eight entries. */
  lemma InjuryIdsNumberedLow()
    ensures forall k | 0 <= k < 8 :: NumberedFrom(InjuryIds[k], "", InjuryFirstIds[k])
    ensures forall k | 0 <= k < 8 :: InjuryFirstIds[k + 1] == InjuryFirstIds[k] + |InjuryIds[k]|
  {
    forall k | 0 <= k < 8
      ensures NumberedFrom(InjuryIds[k], "", InjuryFirstIds[k])
      ensures InjuryFirstIds[k + 1] == InjuryFirstIds[k] + |InjuryIds[k]|
    {
      if k == 0 {
        InjuryIdsNumbered0();
      } else if k == 1 {
        InjuryIdsNumbered1();
      } else if k == 2 {
        InjuryIdsNumbered2();
      } else if k == 3 {
        InjuryIdsNumbered3();
      } else if k == 4 {
        InjuryIdsNumbered4();
      } else if k == 5 {
        InjuryIdsNumbered5();
      } else if k == 6 {
        InjuryIdsNumbered6();
      } else {
        InjuryIdsNumbered7();
      }
    }
  }

  /** The numbering of the last eight entries. */
  lemma InjuryIdsNumberedHigh()
    ensures forall k | 8 <= k < 16 :: NumberedFrom(InjuryIds[k], "", InjuryFirstIds[k])
    ensures forall k | 8 <= k < 16 :: InjuryFirstIds[k + 1] == InjuryFirstIds[k] + |InjuryIds[k]|
  {
    forall k | 8 <= k < 16
      ensures NumberedFrom(InjuryIds[k], "", InjuryFirstIds[k])
      ensures InjuryFirstIds[k + 1] == InjuryFirstIds[k] + |InjuryIds[k]|
    {
      if k == 8 {
        InjuryIdsNumbered8();
      } else if k == 9 {
        InjuryIdsNumbered9();
      } else if k == 10 {
        InjuryIdsNumbered10();
      } else if k == 11 {
        InjuryIdsNumbered11();
      } else if k == 12 {
        InjuryIdsNumbered12();
      } else if k == 13 {
        InjuryIdsNumbered13();
      } else if k == 14 {
        InjuryIdsNumbered14();
      } else {
        InjuryIdsNumbered15();
      }
    }
  }

  /** Each entry's ids continue the numbering where the previous entry's ended. */
  lemma InjuryIdsNumbered()
    ensures forall k | 0 <= k < 16 :: NumberedFrom(InjuryIds[k], "", InjuryFirstIds[k])
    ensures forall k | 0 <= k < 16 :: InjuryFirstIds[k + 1] == InjuryFirstIds[k] + |InjuryIds[k]|
  {
    InjuryIdsNumberedLow();
    InjuryIdsNumberedHigh();
  }

  /** Sorted by id, the entries number their exercises "1", "2", ..., "37" with no gap. */
  lemma InjuryIdsConsecutive()
    ensures Consecutive(IdTable(InjuryTableById), "", 1) && Count(IdTable(InjuryTableById)) == 37
  {
    InjuryIdTable();
    InjuryIdsNumbered();
    ConsecutiveByStarts(InjuryIds, "", InjuryFirstIds);
  }

  /** No two exercises of the record share an id. */
  lemma InjuryIdsDistinct(a: string, i: nat, b: string, j: nat)
    requires a in ExerciseDatabase && i < |ExerciseDatabase[a]|
    requires b in ExerciseDatabase && j < |ExerciseDatabase[b]|
    requires ExerciseDatabase[a][i].id == ExerciseDatabase[b][j].id
    ensures a == b && i == j
  {
    InjuryTableByIdRecord();
    InjuryIdsConsecutive();
    RecordIdsDistinct(InjuryTableById, "", 1, a, i, b, j);
  }

  /** The ids of the record are exactly "1" .. "37". */
  lemma InjuryIdsOneTo37()
    ensures AllIds(ExerciseDatabase) == NumberRange("", 1, 37)
  {
    InjuryTableByIdRecord();
    InjuryIdsConsecutive();
    RecordIdsCover(InjuryTableById, "", 1);
  }
}
