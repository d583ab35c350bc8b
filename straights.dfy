/**
 * Straight detection of the calculator (src/utils/pokerCalculator.ts):
 * `checkStraight` over the distinct ranks sorted high to low, and
 * `checkStraightDraws` over the distinct ranks sorted low to high. Both are
 * loops; each is proved equal to a predicate about which rank values are
 * present, independent of positions.
 */
module Straights {
  import opened Cards

  predicate StrictlyIncreasing(s: seq<int>)
  {
    forall i, j :: 0 <= i < j < |s| ==> s[i] < s[j]
  }

  predicate StrictlyDecreasing(s: seq<int>)
  {
    forall i, j :: 0 <= i < j < |s| ==> s[i] > s[j]
  }

  /** The values of `present` in [from, 14], in ascending order. */
  function AscendingFrom(present: set<int>, from: int): (u: seq<int>)
    requires 0 <= from <= 15
    ensures StrictlyIncreasing(u)
    ensures forall x :: x in u <==> x in present && from <= x <= 14
    decreases 15 - from
  {
    if from == 15 then []
    else
      var rest := AscendingFrom(present, from + 1);
      assert forall k :: 0 <= k < |rest| ==> rest[k] in rest && rest[k] > from;
      (if from in present then [from] else []) + rest
  }

  /** The values of `present` in [0, from], in descending order. */
  function DescendingFrom(present: set<int>, from: int): (u: seq<int>)
    requires -1 <= from <= 14
    ensures StrictlyDecreasing(u)
    ensures forall x :: x in u <==> x in present && 0 <= x <= from
    decreases from + 1
  {
    if from == -1 then []
    else
      var rest := DescendingFrom(present, from - 1);
      assert forall k :: 0 <= k < |rest| ==> rest[k] in rest && rest[k] < from;
      (if from in present then [from] else []) + rest
  }

  /** `[...new Set(ranks)].sort((a, b) => a - b)`: every rank value lies in
      [0, 14], so scanning that range in order lists each exactly once. */
  function DistinctAscending(ranks: seq<RankValue>): (u: seq<int>)
    ensures StrictlyIncreasing(u)
    ensures forall x :: x in u <==> x in ranks
  {
    AscendingFrom(set r | r in ranks, 0)
  }

  /** `[...new Set(ranks)].sort((a, b) => b - a)`. */
  function DistinctDescending(ranks: seq<RankValue>): (u: seq<int>)
    ensures StrictlyDecreasing(u)
    ensures forall x :: x in u <==> x in ranks
  {
    DescendingFrom(set r | r in ranks, 14)
  }

  // ---------------------------------------------------------------------
  // Made straights

  /** Five consecutive rank values are present. */
  predicate FiveInARow(s: seq<int>)
  {
    exists v | v in s :: v - 1 in s && v - 2 in s && v - 3 in s && v - 4 in s
  }

  /** Ace, five, four, three and deuce are present: the wheel. */
  predicate HasWheel(s: seq<int>)
  {
    14 in s && 5 in s && 4 in s && 3 in s && 2 in s
  }

  /** What `checkStraight` decides about distinct ranks. */
  predicate HasStraight(s: seq<int>)
  {
    FiveInARow(s) || HasWheel(s)
  }

  /** The four steps after position a are each a drop of exactly one. */
  predicate RunAt(s: seq<int>, a: int)
  {
    0 <= a && a + 4 < |s| && forall t :: a <= t < a + 4 ==> s[t] - s[t + 1] == 1
  }

  /** In a strictly decreasing list, the value one below s[i], when present,
      comes right after s[i]. */
  lemma NextIsOneBelow(s: seq<int>, i: int)
    requires StrictlyDecreasing(s) && 0 <= i < |s| && s[i] - 1 in s
    ensures i + 1 < |s| && s[i + 1] == s[i] - 1
  {
    var k :| 0 <= k < |s| && s[k] == s[i] - 1;
    assert i < k;
    assert s[i + 1] >= s[k];
  }

  /** When the four values below s[a] are all present, they follow s[a]
      at the next four positions. */
  lemma RunBelow(s: seq<int>, a: int)
    requires StrictlyDecreasing(s) && 0 <= a < |s|
    requires s[a] - 1 in s && s[a] - 2 in s && s[a] - 3 in s && s[a] - 4 in s
    ensures RunAt(s, a)
  {
    var v := s[a];
    assert a + 1 < |s| && s[a + 1] == v - 1 by { NextIsOneBelow(s, a); }
    assert a + 2 < |s| && s[a + 2] == v - 2 by { NextIsOneBelow(s, a + 1); }
    assert a + 3 < |s| && s[a + 3] == v - 3 by { NextIsOneBelow(s, a + 2); }
    assert a + 4 < |s| && s[a + 4] == v - 4 by { NextIsOneBelow(s, a + 3); }
  }

  /** Five consecutive values in a strictly decreasing list stand at five
      consecutive positions. */
  lemma FiveInARowHasRun(s: seq<int>) returns (a: int)
    requires StrictlyDecreasing(s) && FiveInARow(s)
    ensures RunAt(s, a)
  {
    var v :| v in s && v - 1 in s && v - 2 in s && v - 3 in s && v - 4 in s;
    a :| 0 <= a < |s| && s[a] == v;
    RunBelow(s, a);
  }

  /** A run of five positions holds five consecutive values. */
  lemma RunIsFiveInARow(s: seq<int>, a: int)
    requires RunAt(s, a)
    ensures FiveInARow(s)
  {
    assert s[a + 1] == s[a] - 1 && s[a + 2] == s[a] - 2;
    assert s[a + 3] == s[a] - 3 && s[a + 4] == s[a] - 4;
    assert s[a + 1] in s && s[a + 2] in s && s[a + 3] in s && s[a + 4] in s;
    assert s[a] in s;
  }

  /** Without a run of five positions there are no five consecutive values. */
  lemma NoRunNoFive(s: seq<int>)
    requires StrictlyDecreasing(s)
    requires forall a :: !RunAt(s, a)
    ensures !FiveInARow(s)
  {
    if FiveInARow(s) {
      var a := FiveInARowHasRun(s);
    }
  }

  /** `checkStraight`: scan for a run of five, then test for the wheel. */
  method CheckStraight(sortedRanks: seq<int>) returns (found: bool)
    requires StrictlyDecreasing(sortedRanks)
    ensures found == HasStraight(sortedRanks)
  {
    var s := sortedRanks;
    var i := 0;
    while i <= |s| - 5
      invariant 0 <= i
      invariant forall a :: 0 <= a < i ==> !RunAt(s, a)
    {
      var consecutive := 1;
      var j := i;
      while j < |s| - 1
        invariant i <= j < |s|
        invariant consecutive == 1 + j - i < 5
        invariant forall t :: i <= t < j ==> s[t] - s[t + 1] == 1
      {
        if s[j] - s[j + 1] == 1 {
          consecutive := consecutive + 1;
          if consecutive >= 5 {
            assert RunAt(s, i);
            RunIsFiveInARow(s, i);
            return true;
          }
        } else if s[j] != s[j + 1] {
          break;
        }
        j := j + 1;
      }
      assert !RunAt(s, i);
      i := i + 1;
    }
    NoRunNoFive(s);
    if 14 in s && 5 in s && 4 in s && 3 in s && 2 in s {
      return true;
    }
    return false;
  }

  // ---------------------------------------------------------------------
  // Draws

  /** Four consecutive rank values are present. */
  predicate FourInARow(s: seq<int>)
  {
    exists v | v in s :: v + 1 in s && v + 2 in s && v + 3 in s
  }

  /** Two rank values four apart with a value one or three above the lower
      one: what the gutshot triple loop accepts. */
  predicate HasGutshot(s: seq<int>)
  {
    exists v | v in s :: v + 4 in s && (v + 1 in s || v + 3 in s)
  }

  /** The open-ended test at position a: `sequence[3] - sequence[0] === 3`. */
  predicate SpanThreeAt(u: seq<int>, a: int)
  {
    0 <= a && a + 3 < |u| && u[a + 3] - u[a] == 3
  }

  /** The gutshot test on positions a < b < c. */
  predicate GutshotAt(u: seq<int>, a: int, b: int, c: int)
  {
    0 <= a < b < c < |u| && u[c] - u[a] == 4 && u[b] - u[a] != 2 && u[c] - u[b] != 2
  }

  /** In a strictly increasing list, the value one above u[i], when present,
      comes right after u[i]. */
  lemma NextIsOneAbove(u: seq<int>, i: int)
    requires StrictlyIncreasing(u) && 0 <= i < |u| && u[i] + 1 in u
    ensures i + 1 < |u| && u[i + 1] == u[i] + 1
  {
    var k :| 0 <= k < |u| && u[k] == u[i] + 1;
    assert i < k;
    assert u[i + 1] <= u[k];
  }

  /** Four consecutive values in a strictly increasing list span exactly
      three over four consecutive positions, and back. */
  lemma FourInARowIffSpanThree(u: seq<int>)
    requires StrictlyIncreasing(u)
    ensures FourInARow(u) <==> exists a :: SpanThreeAt(u, a)
  {
    if FourInARow(u) {
      var v :| v in u && v + 1 in u && v + 2 in u && v + 3 in u;
      var a :| 0 <= a < |u| && u[a] == v;
      NextIsOneAbove(u, a);
      NextIsOneAbove(u, a + 1);
      NextIsOneAbove(u, a + 2);
      assert SpanThreeAt(u, a);
    }
    if exists a :: SpanThreeAt(u, a) {
      var a :| SpanThreeAt(u, a);
      assert u[a] < u[a + 1] < u[a + 2] < u[a + 3];
      assert u[a + 1] == u[a] + 1 && u[a + 2] == u[a] + 2;
      assert u[a] in u && u[a + 1] in u && u[a + 2] in u && u[a + 3] in u;
    }
  }

  /** The gutshot triple loop's test, read as a statement about values. */
  lemma GutshotIffValues(u: seq<int>)
    requires StrictlyIncreasing(u)
    ensures HasGutshot(u) <==> exists a, b, c :: GutshotAt(u, a, b, c)
  {
    if HasGutshot(u) {
      var v :| v in u && v + 4 in u && (v + 1 in u || v + 3 in u);
      var a :| 0 <= a < |u| && u[a] == v;
      var c :| 0 <= c < |u| && u[c] == v + 4;
      var w := if v + 1 in u then v + 1 else v + 3;
      var b :| 0 <= b < |u| && u[b] == w;
      assert a < b < c;
      assert GutshotAt(u, a, b, c);
    }
    if exists a, b, c :: GutshotAt(u, a, b, c) {
      var a, b, c :| GutshotAt(u, a, b, c);
      assert u[a] < u[b] < u[c];
      assert u[b] == u[a] + 1 || u[b] == u[a] + 3;
      assert u[a] in u && u[b] in u && u[c] in u;
    }
  }

  /** The first loop of `checkStraightDraws`: look for four distinct ranks
      spanning exactly three. */
  method ScanOpenEnded(u: seq<int>) returns (found: bool)
    requires StrictlyIncreasing(u)
    ensures found == FourInARow(u)
  {
    found := false;
    var i := 0;
    while i < |u| - 3
      invariant 0 <= i
      invariant forall a :: 0 <= a < i ==> !SpanThreeAt(u, a)
    {
      var sequence := u[i..i + 4];
      if sequence[3] - sequence[0] == 3 {
        found := true;
        assert SpanThreeAt(u, i);
        break;
      }
      i := i + 1;
    }
    FourInARowIffSpanThree(u);
  }

  /** Some gutshot triple has its first position before i. */
  ghost predicate GutshotBefore(u: seq<int>, i: int)
  {
    exists a, b, c :: GutshotAt(u, a, b, c) && a < i
  }

  /** Some gutshot triple starts at i with its second position before j. */
  ghost predicate GutshotAtBefore(u: seq<int>, i: int, j: int)
  {
    exists b, c :: GutshotAt(u, i, b, c) && b < j
  }

  /** Some gutshot triple starts at (i, j) with its last position before k. */
  ghost predicate GutshotAtAtBefore(u: seq<int>, i: int, j: int, k: int)
  {
    exists c :: GutshotAt(u, i, j, c) && c < k
  }

  /** The second (triple) loop of `checkStraightDraws`. Its inner `break`
      leaves only the innermost loop; the outer loops run on with the flag
      already set. */
  method ScanGutshot(u: seq<int>) returns (gutshot: bool)
    requires StrictlyIncreasing(u)
    ensures gutshot == HasGutshot(u)
  {
    gutshot := false;
    var i := 0;
    while i < |u| - 2
      invariant 0 <= i
      invariant gutshot <==> GutshotBefore(u, i)
    {
      var j := i + 1;
      while j < |u| - 1
        invariant i < j
        invariant gutshot <==> GutshotBefore(u, i) || GutshotAtBefore(u, i, j)
      {
        var k := j + 1;
        while k < |u|
          invariant j < k
          invariant gutshot <==> GutshotBefore(u, i) || GutshotAtBefore(u, i, j) || GutshotAtAtBefore(u, i, j, k)
        {
          var cards := [u[i], u[j], u[k]];
          if cards[2] - cards[0] == 4 && cards[1] - cards[0] != 2 && cards[2] - cards[1] != 2 {
            gutshot := true;
            assert GutshotAt(u, i, j, k);
            break;
          }
          k := k + 1;
        }
        j := j + 1;
      }
      i := i + 1;
    }
    GutshotIffValues(u);
  }

  /** `checkStraightDraws`: the open-ended scan, and the gutshot scan only
      when the first found nothing, both over the distinct ranks in
      ascending order. */
  method CheckStraightDraws(ranks: seq<RankValue>) returns (openEndedStraightDraw: bool, gutshot: bool)
    ensures openEndedStraightDraw == FourInARow(ranks)
    ensures gutshot == (!openEndedStraightDraw && HasGutshot(ranks))
  {
    var uniqueRanks := DistinctAscending(ranks);
    openEndedStraightDraw := ScanOpenEnded(uniqueRanks);
    gutshot := false;
    if !openEndedStraightDraw {
      gutshot := ScanGutshot(uniqueRanks);
    }
    SameValuesFourInARow(uniqueRanks, ranks);
    SameValuesGutshot(uniqueRanks, ranks);
  }

  /** The draw predicates depend only on which values are present. */
  lemma SameValuesFourInARow(u: seq<int>, ranks: seq<int>)
    requires forall x :: x in u <==> x in ranks
    ensures FourInARow(u) == FourInARow(ranks)
  {
  }

  lemma SameValuesGutshot(u: seq<int>, ranks: seq<int>)
    requires forall x :: x in u <==> x in ranks
    ensures HasGutshot(u) == HasGutshot(ranks)
  {
  }
}
