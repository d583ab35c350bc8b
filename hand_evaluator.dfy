/**
 * The hand categoriser of the calculator (src/utils/pokerCalculator.ts):
 * `evaluateHandStrength`, `evaluateDraws` and `analyzeBoardTexture`. Each
 * reads the rank values and suits of its tokens, counts them, and answers a
 * fixed list of questions about the counts.
 */
module HandEvaluator {
  import opened Sequences
  import opened Cards
  import opened Straights

  /** The `HandStrength` record as the calculator fills it: a category name
      and its number. The optional kicker field is never set. */
  datatype HandStrength = HandStrength(name: string, rank: int)

  /** The category names by number. There is no tenth category. */
  const CategoryNames: seq<string> :=
    ["High Card", "One Pair", "Two Pair", "Three of a Kind", "Straight",
     "Flush", "Full House", "Four of a Kind", "Straight Flush"]

  /** The record for category number `rank`. */
  function Category(rank: nat): (h: HandStrength)
    requires rank < |CategoryNames|
    ensures h.rank == rank && h.name == CategoryNames[rank]
  {
    HandStrength(CategoryNames[rank], rank)
  }

  /** Some suit is held five or more times. */
  predicate HasFlush(suitCounts: multiset<string>)
  {
    SomeCountAtLeast(suitCounts, 5)
  }

  /** The rank values held at least twice: the `pairs` entries. */
  function PairedRanks(rankCounts: multiset<RankValue>): set<RankValue>
  {
    set v | v in rankCounts && rankCounts[v] >= 2
  }

  /** The distinct rank values, high to low. */
  function SortedRanks(rankCounts: multiset<RankValue>): seq<int>
  {
    DescendingFrom(set v | v in rankCounts, 14)
  }

  /** The precedence chain of `evaluateHandStrength`, over the rank counts
      and the suit counts. */
  function Classify(rankCounts: multiset<RankValue>, suitCounts: multiset<string>): (h: HandStrength)
    ensures 0 <= h.rank < |CategoryNames| && h.name == CategoryNames[h.rank]
    ensures HasFlush(suitCounts) ==> h.rank >= 5
    ensures HasStraight(SortedRanks(rankCounts)) ==> h.rank >= 4
    ensures SomeCountExactly(rankCounts, 3) ==> h.rank >= 3
    ensures PairedRanks(rankCounts) != {} ==> h.rank >= 1
  {
    var pairs := PairedRanks(rankCounts);
    var hasFlush := HasFlush(suitCounts);
    var hasStraight := HasStraight(SortedRanks(rankCounts));
    if hasFlush && hasStraight then Category(8)
    else if SomeCountExactly(rankCounts, 4) then Category(7)
    else if SomeCountExactly(rankCounts, 3) && SomeCountExactly(rankCounts, 2) then Category(6)
    else if hasFlush then Category(5)
    else if hasStraight then Category(4)
    else if SomeCountExactly(rankCounts, 3) then Category(3)
    else if |pairs| >= 2 then Category(2)
    else if |pairs| == 1 then Category(1)
    else Category(0)
  }

  /** `evaluateHandStrength`. */
  function EvaluateHandStrength(cards: seq<string>): (h: HandStrength)
    ensures 0 <= h.rank <= 8 && h.name == CategoryNames[h.rank]
  {
    Classify(multiset(RankValues(cards)), multiset(SuitsOf(cards)))
  }

  /** The result depends only on which cards are held, not on their order. */
  lemma EvaluateIgnoresOrder(cards: seq<string>, reordered: seq<string>)
    requires multiset(cards) == multiset(reordered)
    ensures EvaluateHandStrength(cards) == EvaluateHandStrength(reordered)
  {
    MapRespectsMultiset(RankOf, cards, reordered);
    MapRespectsMultiset(SuitPart, cards, reordered);
  }

  /** Straight Flush is any five of a suit together with any straight: the
      straight need not be in that suit. */
  lemma StraightFlushIff(rankCounts: multiset<RankValue>, suitCounts: multiset<string>)
    ensures Classify(rankCounts, suitCounts).rank == 8
        <==> HasFlush(suitCounts) && HasStraight(SortedRanks(rankCounts))
  {
  }

  /** The category number of the chain, read as a ladder over its seven
      tests in the order the code asks them. */
  lemma ClassifyLadder(rankCounts: multiset<RankValue>, suitCounts: multiset<string>)
    ensures var flush := HasFlush(suitCounts);
            var straight := HasStraight(SortedRanks(rankCounts));
            var pairs := |PairedRanks(rankCounts)|;
            Classify(rankCounts, suitCounts).rank ==
              if flush && straight then 8
              else if SomeCountExactly(rankCounts, 4) then 7
              else if SomeCountExactly(rankCounts, 3) && SomeCountExactly(rankCounts, 2) then 6
              else if flush then 5
              else if straight then 4
              else if SomeCountExactly(rankCounts, 3) then 3
              else if pairs >= 2 then 2
              else if pairs == 1 then 1
              else 0
  {
  }

  /** Four of a Kind: some rank held exactly four times, unless the hand is
      a Straight Flush. */
  lemma FourOfAKindIff(rankCounts: multiset<RankValue>, suitCounts: multiset<string>)
    ensures Classify(rankCounts, suitCounts).rank == 7
        <==> && !(HasFlush(suitCounts) && HasStraight(SortedRanks(rankCounts)))
             && SomeCountExactly(rankCounts, 4)
  {
    ClassifyLadder(rankCounts, suitCounts);
  }

  /** Full House: a rank held exactly three times and a rank held exactly
      twice, with no Straight Flush and no Four of a Kind. */
  lemma FullHouseIff(rankCounts: multiset<RankValue>, suitCounts: multiset<string>)
    ensures Classify(rankCounts, suitCounts).rank == 6
        <==> && !(HasFlush(suitCounts) && HasStraight(SortedRanks(rankCounts)))
             && !SomeCountExactly(rankCounts, 4)
             && SomeCountExactly(rankCounts, 3)
             && SomeCountExactly(rankCounts, 2)
  {
    ClassifyLadder(rankCounts, suitCounts);
  }

  /** Flush: five of a suit, with no straight, no Four of a Kind and no Full
      House. */
  lemma FlushIff(rankCounts: multiset<RankValue>, suitCounts: multiset<string>)
    ensures Classify(rankCounts, suitCounts).rank == 5
        <==> && HasFlush(suitCounts)
             && !HasStraight(SortedRanks(rankCounts))
             && !SomeCountExactly(rankCounts, 4)
             && !(SomeCountExactly(rankCounts, 3) && SomeCountExactly(rankCounts, 2))
  {
    ClassifyLadder(rankCounts, suitCounts);
  }

  /** Straight: a straight among the distinct ranks, with no flush, no Four
      of a Kind and no Full House. */
  lemma StraightIff(rankCounts: multiset<RankValue>, suitCounts: multiset<string>)
    ensures Classify(rankCounts, suitCounts).rank == 4
        <==> && HasStraight(SortedRanks(rankCounts))
             && !HasFlush(suitCounts)
             && !SomeCountExactly(rankCounts, 4)
             && !(SomeCountExactly(rankCounts, 3) && SomeCountExactly(rankCounts, 2))
  {
    ClassifyLadder(rankCounts, suitCounts);
  }

  /** Three of a Kind: a rank held exactly three times, no rank held exactly
      twice or four times, and no flush or straight. */
  lemma ThreeOfAKindIff(rankCounts: multiset<RankValue>, suitCounts: multiset<string>)
    ensures Classify(rankCounts, suitCounts).rank == 3
        <==> && !HasFlush(suitCounts)
             && !HasStraight(SortedRanks(rankCounts))
             && !SomeCountExactly(rankCounts, 4)
             && SomeCountExactly(rankCounts, 3)
             && !SomeCountExactly(rankCounts, 2)
  {
    ClassifyLadder(rankCounts, suitCounts);
  }

  /** Full House needs one rank held exactly three times and another held
      exactly twice. */
  lemma FullHouseNeedsTripsAndPair(rankCounts: multiset<RankValue>, suitCounts: multiset<string>)
    requires Classify(rankCounts, suitCounts).rank == 6
    ensures exists v: RankValue, w: RankValue :: v != w && rankCounts[v] == 3 && rankCounts[w] == 2
  {
  }

  /** Two ranks held three times each, with no rank held twice or four
      times, fall through to Three of a Kind. */
  lemma TwoTripletsAreThreeOfAKind(rankCounts: multiset<RankValue>, suitCounts: multiset<string>, v: RankValue, w: RankValue)
    requires v != w && rankCounts[v] == 3 && rankCounts[w] == 3
    requires !SomeCountExactly(rankCounts, 2) && !SomeCountExactly(rankCounts, 4)
    requires !HasFlush(suitCounts) && !HasStraight(SortedRanks(rankCounts))
    ensures Classify(rankCounts, suitCounts).rank == 3
  {
  }

  /** Two ranks are each held at least twice exactly when PairedRanks has two
      or more members. */
  lemma TwoPairedRanks(rankCounts: multiset<RankValue>)
    ensures |PairedRanks(rankCounts)| >= 2
        <==> exists v: RankValue, w: RankValue :: v != w && rankCounts[v] >= 2 && rankCounts[w] >= 2
  {
    var pairs := PairedRanks(rankCounts);
    AtLeastTwo(pairs);
    if exists v: RankValue, w: RankValue :: v != w && rankCounts[v] >= 2 && rankCounts[w] >= 2 {
      var v: RankValue, w: RankValue :| v != w && rankCounts[v] >= 2 && rankCounts[w] >= 2;
      assert v in pairs && w in pairs;
    }
  }

  /** Two Pair: no flush, no straight, no rank held three or four times, and
      at least two ranks held twice or more. */
  lemma TwoPairIff(rankCounts: multiset<RankValue>, suitCounts: multiset<string>)
    ensures Classify(rankCounts, suitCounts).rank == 2
        <==> && !HasFlush(suitCounts)
             && !HasStraight(SortedRanks(rankCounts))
             && !SomeCountExactly(rankCounts, 3)
             && !SomeCountExactly(rankCounts, 4)
             && exists v: RankValue, w: RankValue :: v != w && rankCounts[v] >= 2 && rankCounts[w] >= 2
  {
    TwoPairedRanks(rankCounts);
  }

  /** v is the one rank value held twice or more. */
  predicate OnlyPairedRank(rankCounts: multiset<RankValue>, v: RankValue)
  {
    rankCounts[v] >= 2 && forall w: RankValue :: w != v ==> rankCounts[w] < 2
  }

  /** Exactly one rank is held at least twice when PairedRanks is a singleton. */
  lemma OnePairedRank(rankCounts: multiset<RankValue>)
    ensures |PairedRanks(rankCounts)| == 1 <==> exists v: RankValue :: OnlyPairedRank(rankCounts, v)
  {
    var pairs := PairedRanks(rankCounts);
    ExactlyOne(pairs);
    if exists v: RankValue :: OnlyPairedRank(rankCounts, v) {
      var v: RankValue :| OnlyPairedRank(rankCounts, v);
      assert pairs == {v};
    }
    if |pairs| == 1 {
      var v :| pairs == {v};
      assert v in pairs;
      forall w: RankValue | w != v ensures rankCounts[w] < 2 {
        assert w !in pairs;
      }
      assert OnlyPairedRank(rankCounts, v);
    }
  }

  /** One Pair: no flush, no straight, no rank held three or four times, and
      exactly one rank held twice or more. */
  lemma OnePairIff(rankCounts: multiset<RankValue>, suitCounts: multiset<string>)
    ensures Classify(rankCounts, suitCounts).rank == 1
        <==> && !HasFlush(suitCounts)
             && !HasStraight(SortedRanks(rankCounts))
             && !SomeCountExactly(rankCounts, 3)
             && !SomeCountExactly(rankCounts, 4)
             && exists v: RankValue :: OnlyPairedRank(rankCounts, v)
  {
    OnePairedRank(rankCounts);
    TwoPairedRanks(rankCounts);
  }

  /** High Card: no flush, no straight and no rank held twice. */
  lemma HighCardIff(rankCounts: multiset<RankValue>, suitCounts: multiset<string>)
    ensures Classify(rankCounts, suitCounts).rank == 0
        <==> && !HasFlush(suitCounts)
             && !HasStraight(SortedRanks(rankCounts))
             && forall v: RankValue :: rankCounts[v] < 2
  {
    var pairs := PairedRanks(rankCounts);
    if forall v: RankValue :: rankCounts[v] < 2 {
      assert pairs == {};
    }
    if pairs == {} {
      forall v: RankValue ensures rankCounts[v] < 2 {
        assert v !in pairs;
      }
    }
  }

  // ---------------------------------------------------------------------
  // Draws

  /** What `evaluateDraws` returns. */
  datatype Draws = Draws(flushDraw: bool, openEndedStraightDraw: bool, gutshot: bool, overCards: nat)

  /** `Math.max(...xs)` on a non-empty list. */
  function MaxOf(xs: seq<int>): (m: int)
    requires |xs| > 0
    ensures m in xs
    ensures forall x :: x in xs ==> x <= m
  {
    if |xs| == 1 then xs[0]
    else
      var rest := MaxOf(xs[1..]);
      assert forall x :: x in xs ==> x == xs[0] || x in xs[1..];
      if xs[0] >= rest then xs[0] else rest
  }

  /** `xs.filter(x => x > bound).length`. */
  function CountAbove(xs: seq<int>, bound: int): (n: nat)
    ensures n <= |xs|
  {
    if xs == [] then 0 else (if xs[0] > bound then 1 else 0) + CountAbove(xs[1..], bound)
  }

  /** `evaluateDraws`: an exact four-of-a-suit flush draw, the straight draws
      of `checkStraightDraws`, and the hole cards above the board's highest
      rank (above 0 when there is no board). */
  function EvaluateDraws(holeCards: seq<string>, communityCards: seq<string>): (d: Draws)
    ensures !(d.openEndedStraightDraw && d.gutshot)
    ensures d.overCards <= |holeCards|
    ensures d.flushDraw <==> exists s :: multiset(SuitsOf(holeCards + communityCards))[s] == 4
  {
    var allCards := holeCards + communityCards;
    var ranks := RankValues(allCards);
    var suitCounts := multiset(SuitsOf(allCards));
    var flushDraw := SomeCountExactly(suitCounts, 4);
    var openEnded := FourInARow(ranks);
    var gutshot := !openEnded && HasGutshot(ranks);
    var boardHighCard := if |communityCards| > 0 then MaxOf(RankValues(communityCards)) else 0;
    Draws(flushDraw, openEnded, gutshot, CountAbove(RankValues(holeCards), boardHighCard))
  }

  /** A hole card beats the board: it has a known rank above every board
      card's rank. The known-rank guard comes from comparing with a high
      card of 0 when the board is empty: a card of unknown rank (value 0)
      is then not an overcard, though it beats every board card vacuously. */
  predicate IsOvercard(card: string, communityCards: seq<string>)
  {
    RankOf(card) > 0 && forall b | b in communityCards :: RankOf(card) > RankOf(b)
  }

  /** The number of hole cards that beat the board. */
  function CountOvercards(holeCards: seq<string>, communityCards: seq<string>): nat
  {
    if holeCards == [] then 0
    else (if IsOvercard(holeCards[0], communityCards) then 1 else 0) + CountOvercards(holeCards[1..], communityCards)
  }

  /** Being above the board's high card is beating every board card. */
  lemma AboveHighIsOvercard(card: string, communityCards: seq<string>)
    ensures var high := if |communityCards| > 0 then MaxOf(RankValues(communityCards)) else 0;
            RankOf(card) > high <==> IsOvercard(card, communityCards)
  {
    if |communityCards| > 0 {
      var ranks := RankValues(communityCards);
      var high := MaxOf(ranks);
      forall b | b in communityCards ensures RankOf(b) in ranks {
        var i :| 0 <= i < |communityCards| && communityCards[i] == b;
        assert ranks[i] == RankOf(b);
      }
      var i :| 0 <= i < |ranks| && ranks[i] == high;
      assert communityCards[i] in communityCards;
    }
  }

  lemma {:induction false} CountAboveIsOvercards(holeCards: seq<string>, communityCards: seq<string>)
    ensures var high := if |communityCards| > 0 then MaxOf(RankValues(communityCards)) else 0;
            CountAbove(RankValues(holeCards), high) == CountOvercards(holeCards, communityCards)
  {
    if holeCards != [] {
      AboveHighIsOvercard(holeCards[0], communityCards);
      CountAboveIsOvercards(holeCards[1..], communityCards);
      assert RankValues(holeCards)[1..] == RankValues(holeCards[1..]);
    }
  }

  /** The overcard count is the number of hole cards that beat the board. */
  lemma OverCardsCountsOvercards(holeCards: seq<string>, communityCards: seq<string>)
    ensures EvaluateDraws(holeCards, communityCards).overCards == CountOvercards(holeCards, communityCards)
  {
    CountAboveIsOvercards(holeCards, communityCards);
  }

  /** Counting over a concatenation adds the two counts. */
  lemma {:induction false} CountAboveAppend(xs: seq<int>, ys: seq<int>, bound: int)
    ensures CountAbove(xs + ys, bound) == CountAbove(xs, bound) + CountAbove(ys, bound)
  {
    if xs == [] {
      assert xs + ys == ys;
    } else {
      assert (xs + ys)[0] == xs[0];
      assert (xs + ys)[1..] == xs[1..] + ys;
      CountAboveAppend(xs[1..], ys, bound);
    }
  }

  /** The count above a bound depends only on which values occur how often. */
  lemma {:induction false} CountAboveRespectsMultiset(xs: seq<int>, ys: seq<int>, bound: int)
    requires multiset(xs) == multiset(ys)
    ensures CountAbove(xs, bound) == CountAbove(ys, bound)
    decreases |xs|
  {
    if xs == [] {
      assert |ys| == |multiset(ys)| == 0;
    } else {
      var x := xs[0];
      assert x in multiset(ys);
      var j :| 0 <= j < |ys| && ys[j] == x;
      SplitAt(ys, j);
      var rest := ys[..j] + ys[j + 1..];
      CountAboveAppend(ys[..j] + [x], ys[j + 1..], bound);
      CountAboveAppend(ys[..j], [x], bound);
      CountAboveAppend(ys[..j], ys[j + 1..], bound);
      assert xs == [x] + xs[1..];
      assert multiset(rest) == multiset(ys) - multiset{x};
      CountAboveRespectsMultiset(xs[1..], rest, bound);
    }
  }

  /** Which hole card is listed first does not change any draw. */
  lemma DrawsIgnoreHoleOrder(holeCards: seq<string>, reordered: seq<string>, communityCards: seq<string>)
    requires multiset(holeCards) == multiset(reordered)
    ensures EvaluateDraws(holeCards, communityCards) == EvaluateDraws(reordered, communityCards)
  {
    var all1 := holeCards + communityCards;
    var all2 := reordered + communityCards;
    assert multiset(all1) == multiset(all2);
    MapRespectsMultiset(SuitPart, all1, all2);
    MapRespectsMultiset(RankOf, all1, all2);
    var r1 := RankValues(all1);
    var r2 := RankValues(all2);
    forall x ensures x in r1 <==> x in r2 {
      assert x in r1 <==> x in multiset(r1);
      assert x in r2 <==> x in multiset(r2);
    }
    SameValuesFourInARow(r1, r2);
    SameValuesGutshot(r1, r2);
    MapRespectsMultiset(RankOf, holeCards, reordered);
    var high := if |communityCards| > 0 then MaxOf(RankValues(communityCards)) else 0;
    CountAboveRespectsMultiset(RankValues(holeCards), RankValues(reordered), high);
  }

  // ---------------------------------------------------------------------
  // Board texture

  /** What `analyzeBoardTexture` returns. */
  datatype BoardTexture = BoardTexture(paired: bool, flushy: bool, straight: bool)

  /** `analyzeBoardTexture`. */
  function AnalyzeBoardTexture(communityCards: seq<string>): (t: BoardTexture)
    ensures |communityCards| < 3 ==> t == BoardTexture(false, false, false)
    ensures t.flushy <==> |communityCards| >= 3 && SomeCountAtLeast(multiset(SuitsOf(communityCards)), 3)
  {
    if |communityCards| < 3 then BoardTexture(false, false, false)
    else
      var ranks := RankValues(communityCards);
      var suits := SuitsOf(communityCards);
      var paired := SomeCountAtLeast(multiset(ranks), 2);
      var flushy := SomeCountAtLeast(multiset(suits), 3);
      var straight := FourInARow(ranks) || HasStraight(DistinctDescending(ranks));
      BoardTexture(paired, flushy, straight)
  }

  /** A board is paired exactly when two of its cards share a rank value. */
  lemma PairedBoardIff(communityCards: seq<string>)
    ensures AnalyzeBoardTexture(communityCards).paired
        <==> |communityCards| >= 3
             && exists i, j :: 0 <= i < j < |communityCards| && RankOf(communityCards[i]) == RankOf(communityCards[j])
  {
    var ranks := RankValues(communityCards);
    RepeatIffEqualPositions(ranks);
    if exists i, j :: 0 <= i < j < |ranks| && ranks[i] == ranks[j] {
      var i, j :| 0 <= i < j < |ranks| && ranks[i] == ranks[j];
      assert RankOf(communityCards[i]) == RankOf(communityCards[j]);
    }
    if exists i, j :: 0 <= i < j < |communityCards| && RankOf(communityCards[i]) == RankOf(communityCards[j]) {
      var i, j :| 0 <= i < j < |communityCards| && RankOf(communityCards[i]) == RankOf(communityCards[j]);
      assert ranks[i] == ranks[j];
    }
  }

  /** Four consecutive values starting at v give FourInARow. */
  lemma FourFrom(s: seq<int>, v: int)
    requires v in s && v + 1 in s && v + 2 in s && v + 3 in s
    ensures FourInARow(s)
  {
  }

  /** Every made straight holds four consecutive values. */
  lemma StraightHoldsFour(s: seq<int>)
    requires HasStraight(s)
    ensures FourInARow(s)
  {
    if FiveInARow(s) {
      var v :| v in s && v - 1 in s && v - 2 in s && v - 3 in s && v - 4 in s;
      FourFrom(s, v - 3);
    } else {
      FourFrom(s, 2);
    }
  }

  /** The straight flag of a board is exactly "four consecutive rank values":
      the made-straight test adds nothing to the open-ended test. */
  lemma StraightBoardIff(communityCards: seq<string>)
    ensures AnalyzeBoardTexture(communityCards).straight
        <==> |communityCards| >= 3 && FourInARow(RankValues(communityCards))
  {
    if |communityCards| >= 3 {
      var ranks := RankValues(communityCards);
      var sorted := DistinctDescending(ranks);
      if HasStraight(sorted) {
        StraightHoldsFour(sorted);
        SameValuesFourInARow(sorted, ranks);
      }
    }
  }
}
