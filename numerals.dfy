/**
 * Decimal numerals and consecutively numbered id lists. Every catalogue table of the
 * app numbers its exercise ids "1", "2", ... or "wl-1", "wl-2", ..., running on from
 * one list to the next; these definitions state that numbering once and prove that
 * it makes the ids distinct and lets them cover exactly one range of numbers.
 */
module Numerals {

  function Digit(d: nat): (c: char)
    requires d < 10
    ensures '0' <= c <= '9'
  {
    "0123456789"[d]
  }

  /** The shortest decimal numeral of `n`, as JavaScript's `String(n)` writes it. */
  function Decimal(n: nat): (s: string)
    ensures |s| >= 1
    ensures forall i :: 0 <= i < |s| ==> '0' <= s[i] <= '9'
  {
    if n < 10 then [Digit(n)] else Decimal(n / 10) + [Digit(n % 10)]
  }

  lemma DigitInjective(c: nat, d: nat)
    requires c < 10 && d < 10 && Digit(c) == Digit(d)
    ensures c == d
  {
  }

  /** Different numbers have different numerals. */
  lemma {:induction false} DecimalInjective(m: nat, n: nat)
    requires Decimal(m) == Decimal(n)
    ensures m == n
    decreases m
  {
    var s := Decimal(m);
    if m < 10 && n < 10 {
      DigitInjective(m, n);
    } else if m >= 10 && n >= 10 {
      assert s == Decimal(m / 10) + [Digit(m % 10)] == Decimal(n / 10) + [Digit(n % 10)];
      assert s[..|s| - 1] == Decimal(m / 10) == Decimal(n / 10);
      assert s[|s| - 1] == Digit(m % 10) == Digit(n % 10);
      DecimalInjective(m / 10, n / 10);
      DigitInjective(m % 10, n % 10);
    }
  }

  /** Two numbered ids with prefixes of one length are equal only when prefix and number are. */
  lemma PrefixedDecimalInjective(p: string, q: string, m: nat, n: nat)
    requires |p| == |q|
    requires p + Decimal(m) == q + Decimal(n)
    ensures p == q && m == n
  {
    var s := p + Decimal(m);
    assert p == s[..|p|] && q == (q + Decimal(n))[..|q|];
    assert Decimal(m) == s[|p|..] && Decimal(n) == (q + Decimal(n))[|q|..];
    DecimalInjective(m, n);
  }

  /** The ids `prefix + Decimal(from)` .. `prefix + Decimal(from + count - 1)`. */
  function NumberRange(prefix: string, from: nat, count: nat): set<string>
  {
    set v | from <= v < from + count :: prefix + Decimal(v)
  }

  /** The number of ids in `lists[..k]`. */
  function CountBefore(lists: seq<seq<string>>, k: nat): nat
    requires k <= |lists|
  {
    if k == 0 then 0 else |lists[0]| + CountBefore(lists[1..], k - 1)
  }

  /** The number of ids in all of `lists`. */
  function Count(lists: seq<seq<string>>): nat
  {
    CountBefore(lists, |lists|)
  }

  /** `ids` is `prefix + Decimal(from)`, `prefix + Decimal(from + 1)`, ... */
  predicate NumberedFrom(ids: seq<string>, prefix: string, from: nat)
  {
    forall i :: 0 <= i < |ids| ==> ids[i] == prefix + Decimal(from + i)
  }

  /**
   * The ids of `lists`, read list after list, are `prefix + Decimal(from)`,
   * `prefix + Decimal(from + 1)`, ... with no gap and no repetition.
   */
  predicate Consecutive(lists: seq<seq<string>>, prefix: string, from: nat)
    decreases |lists|
  {
    lists == [] ||
    (NumberedFrom(lists[0], prefix, from) && Consecutive(lists[1..], prefix, from + |lists[0]|))
  }

  /** Where an id of a consecutively numbered table sits in the numbering. */
  lemma {:induction false} ConsecutiveAt(lists: seq<seq<string>>, prefix: string, from: nat, k: nat, i: nat)
    requires Consecutive(lists, prefix, from)
    requires k < |lists| && i < |lists[k]|
    ensures lists[k][i] == prefix + Decimal(from + CountBefore(lists, k) + i)
    decreases k
  {
    if k > 0 {
      ConsecutiveAt(lists[1..], prefix, from + |lists[0]|, k - 1, i);
    }
  }

  /** A later list starts no earlier than an earlier list ends. */
  lemma {:induction false} CountBeforeGrows(lists: seq<seq<string>>, k: nat, l: nat)
    requires k < l <= |lists|
    ensures CountBefore(lists, k) + |lists[k]| <= CountBefore(lists, l)
    decreases k
  {
    if k > 0 {
      CountBeforeGrows(lists[1..], k - 1, l - 1);
    }
  }

  /** In a consecutively numbered table an id occurs at one place only. */
  lemma ConsecutiveDistinct(lists: seq<seq<string>>, prefix: string, from: nat, k: nat, i: nat, l: nat, j: nat)
    requires Consecutive(lists, prefix, from)
    requires k < |lists| && i < |lists[k]|
    requires l < |lists| && j < |lists[l]|
    requires lists[k][i] == lists[l][j]
    ensures k == l && i == j
  {
    ConsecutiveAt(lists, prefix, from, k, i);
    ConsecutiveAt(lists, prefix, from, l, j);
    PrefixedDecimalInjective(prefix, prefix, from + CountBefore(lists, k) + i, from + CountBefore(lists, l) + j);
    if k < l {
      CountBeforeGrows(lists, k, l);
    } else if l < k {
      CountBeforeGrows(lists, l, k);
    }
  }

  /** Every number of the range `from .. from + Count(lists) - 1` is the number of some id. */
  lemma {:induction false} ConsecutiveCovers(lists: seq<seq<string>>, prefix: string, from: nat, v: nat)
    requires Consecutive(lists, prefix, from)
    requires from <= v < from + Count(lists)
    ensures exists k, i :: 0 <= k < |lists| && 0 <= i < |lists[k]| && lists[k][i] == prefix + Decimal(v)
    decreases |lists|
  {
    assert lists != [];
    if v < from + |lists[0]| {
      assert lists[0][v - from] == prefix + Decimal(v);
    } else {
      assert Count(lists) == |lists[0]| + Count(lists[1..]);
      ConsecutiveCovers(lists[1..], prefix, from + |lists[0]|, v);
      var k, i :| 0 <= k < |lists[1..]| && 0 <= i < |lists[1..][k]| && lists[1..][k][i] == prefix + Decimal(v);
      assert lists[k + 1][i] == prefix + Decimal(v);
    }
  }

  /** Every id of a consecutively numbered table has a number in `from .. from + Count(lists) - 1`. */
  lemma ConsecutiveBounded(lists: seq<seq<string>>, prefix: string, from: nat, k: nat, i: nat)
    requires Consecutive(lists, prefix, from)
    requires k < |lists| && i < |lists[k]|
    ensures exists v :: from <= v < from + Count(lists) && lists[k][i] == prefix + Decimal(v)
  {
    ConsecutiveAt(lists, prefix, from, k, i);
    if k + 1 < |lists| {
      CountBeforeGrows(lists, k, |lists|);
    } else {
      CountBeforeStep(lists, k);
    }
    assert from <= from + CountBefore(lists, k) + i < from + Count(lists);
  }

  lemma {:induction false} CountBeforeStep(lists: seq<seq<string>>, k: nat)
    requires k < |lists|
    ensures CountBefore(lists, k + 1) == CountBefore(lists, k) + |lists[k]|
    decreases k
  {
    if k > 0 {
      CountBeforeStep(lists[1..], k - 1);
    }
  }

  /**
   * A table is consecutively numbered when each list starts its numbering where the
   * previous list ended; `starts[k]` is the first number of `lists[k]`.
   */
  lemma {:induction false} ConsecutiveByStarts(lists: seq<seq<string>>, prefix: string, starts: seq<nat>)
    requires |starts| == |lists| + 1
    requires forall k :: 0 <= k < |lists| ==>
      NumberedFrom(lists[k], prefix, starts[k]) && starts[k + 1] == starts[k] + |lists[k]|
    ensures Consecutive(lists, prefix, starts[0])
    ensures starts[0] + Count(lists) == starts[|lists|]
    decreases |lists|
  {
    if lists != [] {
      ConsecutiveByStarts(lists[1..], prefix, starts[1..]);
      assert Count(lists) == |lists[0]| + Count(lists[1..]);
    }
  }
}
