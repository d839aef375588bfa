/**
 * The label a goal key is shown under:
 * `goal.split('-').map(word => word.charAt(0).toUpperCase() + word.slice(1)).join(' ')`
 * (src/components/ExerciseList/TodayExercise.tsx, ExerciseList.tsx and
 * src/components/InjuryForm/InjuryForm.tsx write it out alike). Upper-casing is
 * modelled for ASCII letters only.
 */
module GoalLabel {

  /** `toUpperCase` on one character, for the ASCII letters. */
  function Upper(c: char): (u: char)
    ensures 'a' <= c <= 'z' ==> u as int == c as int - 32
    ensures !('a' <= c <= 'z') ==> u == c
  {
    if 'a' <= c <= 'z' then (c as int - 32) as char else c
  }

  /**
   * `s.split('-')`: the pieces between the dashes, in order. There is always at least
   * one piece; two dashes in a row, or a dash at either end, give an empty piece.
   */
  function Split(s: string): (words: seq<string>)
    ensures |words| >= 1
    decreases |s|
  {
    if s == [] then [""]
    else
      var rest := Split(s[1..]);
      if s[0] == '-' then [""] + rest
      else [[s[0]] + rest[0]] + rest[1..]
  }

  /** `words.join(sep)`: the first piece, then the separator before each further piece. */
  function Join(words: seq<string>, sep: char): (r: string)
    decreases |words|
  {
    if words == [] then ""
    else if |words| == 1 then words[0]
    else words[0] + [sep] + Join(words[1..], sep)
  }

  /** The joined text starts with the first piece, then the separator when a second piece follows. */
  lemma JoinPrefix(words: seq<string>, sep: char)
    requires words != []
    ensures words[0] <= Join(words, sep)
    ensures |words| >= 2 ==> |words[0]| < |Join(words, sep)| && Join(words, sep)[|words[0]|] == sep
  {
  }

  /** `word.charAt(0).toUpperCase() + word.slice(1)`; `charAt(0)` of "" is "". */
  function Capitalize(word: string): (r: string)
    ensures |r| == |word|
    ensures word != [] ==> r[0] == Upper(word[0])
    ensures forall i :: 0 < i < |word| ==> r[i] == word[i]
  {
    if word == [] then [] else [Upper(word[0])] + word[1..]
  }

  /**
   * The label of a goal key. It is the character-by-character relabelling from the
   * start of a word, so it has the goal's length.
   */
  function Label(goal: string): (r: string)
    ensures r == Relabel(goal, true)
    ensures |r| == |goal|
  {
    var words := Split(goal);
    var pieces := seq(|words|, k requires 0 <= k < |words| => Capitalize(words[k]));
    assert pieces == CapitalizeFrom(words, true);
    LabelRelabel(goal, true);
    Join(pieces, ' ')
  }

  /** No piece of a split holds the separator. */
  lemma {:induction false} SplitPieces(s: string)
    ensures forall k, i :: 0 <= k < |Split(s)| && 0 <= i < |Split(s)[k]| ==> Split(s)[k][i] != '-'
    decreases |s|
  {
    if s != [] {
      SplitPieces(s[1..]);
    }
  }

  /** Joining the pieces of a split with the separator gives back the original string. */
  lemma {:induction false} SplitJoin(s: string)
    ensures Join(Split(s), '-') == s
    decreases |s|
  {
    if s != [] {
      var rest := Split(s[1..]);
      SplitJoin(s[1..]);
      if s[0] == '-' {
        assert Split(s) == [""] + rest;
      } else {
        assert Split(s) == [[s[0]] + rest[0]] + rest[1..];
        if |rest| > 1 {
          assert rest == [rest[0]] + rest[1..];
        }
      }
    }
  }

  /**
   * The label, read character by character: a dash becomes a space, a character
   * at the start of a word (`atStart` for the first one) is upper-cased, any
   * other character is kept.
   */
  function Relabel(s: string, atStart: bool): (r: string)
    ensures |r| == |s|
    decreases |s|
  {
    if s == [] then []
    else [if s[0] == '-' then ' ' else if atStart then Upper(s[0]) else s[0]] + Relabel(s[1..], s[0] == '-')
  }

  /** The pieces with the first one capitalized only when `first` holds, the rest always. */
  function CapitalizeFrom(words: seq<string>, first: bool): (r: seq<string>)
    ensures |r| == |words|
  {
    seq(|words|, k requires 0 <= k < |words| => if k == 0 && !first then words[k] else Capitalize(words[k]))
  }

  lemma JoinCons(c: char, w: string, words: seq<string>, sep: char)
    ensures Join([[c] + w] + words, sep) == [c] + Join([w] + words, sep)
  {
    if words != [] {
      assert ([[c] + w] + words)[1..] == words == ([w] + words)[1..];
    }
  }

  /** A leading empty piece is never capitalized, whatever `first` says. */
  lemma CapitalizeEmptyFirst(rest: seq<string>, first: bool)
    requires |rest| >= 1
    ensures Join(CapitalizeFrom([""] + rest, first), ' ') == [' '] + Join(CapitalizeFrom(rest, true), ' ')
  {
    var r := CapitalizeFrom([""] + rest, first);
    assert r[0] == "";
    assert r[1..] == CapitalizeFrom(rest, true);
  }

  /** A piece that gains a leading character is capitalized at that character, the rest as before. */
  lemma CapitalizeLonger(c: char, rest: seq<string>, first: bool)
    requires |rest| >= 1
    ensures Join(CapitalizeFrom([[c] + rest[0]] + rest[1..], first), ' ') ==
      [if first then Upper(c) else c] + Join(CapitalizeFrom(rest, false), ' ')
  {
    var u := if first then Upper(c) else c;
    var words := [[c] + rest[0]] + rest[1..];
    var tail := CapitalizeFrom(rest, true)[1..];
    assert CapitalizeFrom(rest, false) == [rest[0]] + tail by {
      forall k | 1 <= k < |rest|
        ensures CapitalizeFrom(rest, false)[k] == tail[k - 1]
      {
      }
    }
    assert CapitalizeFrom(words, first) == [[u] + rest[0]] + tail by {
      assert CapitalizeFrom(words, first)[0] == [u] + rest[0] by {
        if first {
          assert Capitalize(words[0]) == [Upper(c)] + rest[0] by {
            assert words[0][1..] == rest[0];
          }
        }
      }
      forall k | 1 <= k < |words|
        ensures CapitalizeFrom(words, first)[k] == tail[k - 1]
      {
        assert words[k] == rest[k];
      }
    }
    JoinCons(u, rest[0], tail, ' ');
  }

  /** Splitting, capitalizing and joining with a space is the character-by-character relabelling. */
  lemma {:induction false} LabelRelabel(s: string, atStart: bool)
    ensures Join(CapitalizeFrom(Split(s), atStart), ' ') == Relabel(s, atStart)
    decreases |s|
  {
    if s != [] {
      var rest := Split(s[1..]);
      if s[0] == '-' {
        LabelRelabel(s[1..], true);
        CapitalizeEmptyFirst(rest, atStart);
      } else {
        LabelRelabel(s[1..], false);
        CapitalizeLonger(s[0], rest, atStart);
      }
    }
  }

  /** What the relabelling does at each position. */
  lemma {:induction false} RelabelAt(s: string, atStart: bool, i: nat)
    requires i < |s|
    ensures Relabel(s, atStart)[i] ==
      if s[i] == '-' then ' '
      else if (if i == 0 then atStart else s[i - 1] == '-') then Upper(s[i])
      else s[i]
    decreases i
  {
    if i > 0 {
      RelabelAt(s[1..], s[0] == '-', i - 1);
    }
  }

  /**
   * The label has the goal's length; each dash becomes a space, the first
   * character and every character after a dash is upper-cased, and every other
   * character stays as it is.
   */
  lemma LabelAt(goal: string)
    ensures |Label(goal)| == |goal|
    ensures forall i {:trigger Label(goal)[i]} :: 0 <= i < |goal| ==>
      Label(goal)[i] == if goal[i] == '-' then ' ' else if i == 0 || goal[i - 1] == '-' then Upper(goal[i]) else goal[i]
  {
    forall i | 0 <= i < |goal|
      ensures Label(goal)[i] ==
        if goal[i] == '-' then ' ' else if i == 0 || goal[i - 1] == '-' then Upper(goal[i]) else goal[i]
    {
      RelabelAt(goal, true, i);
    }
  }

  /** The labels of the five goal keys are the texts the goal menus show for them. */
  lemma WeightLossLabel(goal: string)
    requires goal == "weight-loss"
    ensures Label(goal) == "Weight Loss"
  {
    LabelAt(goal);
    var shown := "Weight Loss";
    forall i | 0 <= i < |goal|
      ensures Label(goal)[i] == shown[i]
    {
      assert i in {0, 1, 2, 3, 4, 5, 6, 7, 8, 9, 10};
    }
  }

  lemma WeightGainLabel(goal: string)
    requires goal == "weight-gain"
    ensures Label(goal) == "Weight Gain"
  {
    LabelAt(goal);
    var shown := "Weight Gain";
    forall i | 0 <= i < |goal|
      ensures Label(goal)[i] == shown[i]
    {
      assert i in {0, 1, 2, 3, 4, 5, 6, 7, 8, 9, 10};
    }
  }

  lemma MuscleGainLabel(goal: string)
    requires goal == "muscle-gain"
    ensures Label(goal) == "Muscle Gain"
  {
    LabelAt(goal);
    var shown := "Muscle Gain";
    forall i | 0 <= i < |goal|
      ensures Label(goal)[i] == shown[i]
    {
      assert i in {0, 1, 2, 3, 4, 5, 6, 7, 8, 9, 10};
    }
  }

  lemma MaintenanceLabel(goal: string)
    requires goal == "maintenance"
    ensures Label(goal) == "Maintenance"
  {
    LabelAt(goal);
    var shown := "Maintenance";
    forall i | 0 <= i < |goal|
      ensures Label(goal)[i] == shown[i]
    {
      assert i in {0, 1, 2, 3, 4, 5, 6, 7, 8, 9, 10};
    }
  }

  lemma GeneralFitnessLabel(goal: string)
    requires goal == "general-fitness"
    ensures Label(goal) == "General Fitness"
  {
    LabelAt(goal);
    var shown := "General Fitness";
    forall i | 0 <= i < 8
      ensures Label(goal)[i] == shown[i]
    {
      assert i in {0, 1, 2, 3, 4, 5, 6, 7};
    }
    forall i | 8 <= i < |goal|
      ensures Label(goal)[i] == shown[i]
    {
      assert i in {8, 9, 10, 11, 12, 13, 14};
    }
  }
}
