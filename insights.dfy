/**
 * The advice engine of src/utils/pokerInsights.ts. Six helpers each build a
 * list of prioritised advice records from threshold rules; the engine
 * concatenates their lists, sorts them by priority (highest first, ties in
 * their original order) and keeps the first four.
 *
 * Each helper is a method that pushes records onto a local list, proved
 * equal to a rule-table function; the properties of the advice are proved
 * about the rule tables.
 */
module Insights {
  import opened Wrappers
  import opened Sequences
  import opened Cards
  import opened Straights

  datatype InsightType = Positive | Warning | Negative | Neutral

  /** One advice record. */
  datatype Insight = Insight(kind: InsightType, category: string, message: string, recommendation: string, priority: int)

  /** Every record the engine can produce has a priority from 4 to 10. */
  predicate PrioritiesInRange(xs: seq<Insight>)
  {
    forall x | x in xs :: 4 <= x.priority <= 10
  }

  lemma InRangeAppend(xs: seq<Insight>, ys: seq<Insight>)
    requires PrioritiesInRange(xs) && PrioritiesInRange(ys)
    ensures PrioritiesInRange(xs + ys)
  {
  }

  /** The list holding the advice, if there is any. */
  function Emit(advice: Option<Insight>): (xs: seq<Insight>)
    ensures |xs| <= 1
    ensures advice.Some? ==> xs == [advice.value]
    ensures advice.None? ==> xs == []
  {
    if advice.Some? then [advice.value] else []
  }

  function Max(a: int, b: int): int
  {
    if a >= b then a else b
  }

  // ---------------------------------------------------------------------
  // Hand strength

  function PremiumPair(rank: string): Insight
  {
    Insight(Positive, "Hand Strength", "Premium pocket pair (" + rank + rank + ")",
      "Raise aggressively for value. This is a premium starting hand.", 9)
  }

  function StrongPair(rank: string): Insight
  {
    Insight(Positive, "Hand Strength", "Strong pocket pair (" + rank + rank + ")",
      "Play for value but be cautious on scary boards.", 7)
  }

  function SmallPair(rank: string): Insight
  {
    Insight(Neutral, "Hand Strength", "Small pocket pair (" + rank + rank + ")",
      "Look to set mine or fold to significant pressure.", 5)
  }

  const SuitedBroadway := Insight(Positive, "Hand Strength", "Suited broadway cards",
    "Good playability and multiple ways to win.", 6)
  const SuitedFlushPotential := Insight(Neutral, "Hand Strength", "Suited cards with flush potential",
    "Play cautiously but look for flush draws.", 4)
  const VeryStrongHand := Insight(Positive, "Win Probability", "Very strong hand!",
    "Bet/raise for value. Extract maximum value.", 10)
  const AboveAverageHand := Insight(Positive, "Win Probability", "Above average hand strength",
    "Consider betting for value or calling reasonable bets.", 7)
  const WeakHand := Insight(Warning, "Win Probability", "Weak hand with low equity",
    "Consider folding unless getting good pot odds.", 8)

  /** The pocket-pair advice for a pair of `rank`, by its rank value. */
  function PairAdvice(rank: string): Insight
  {
    var rankValue := GetRankValue(rank);
    if rankValue >= 11 then PremiumPair(rank)
    else if rankValue >= 8 then StrongPair(rank)
    else SmallPair(rank)
  }

  /** The suited advice, by the higher rank value. */
  function SuitedAdvice(highRank: int): Insight
  {
    if highRank >= 10 then SuitedBroadway else SuitedFlushPotential
  }

  /** The win-probability bands. */
  function ProbabilityAdvice(probability: int): Option<Insight>
  {
    if probability >= 75 then Some(VeryStrongHand)
    else if probability >= 60 then Some(AboveAverageHand)
    else if probability <= 30 then Some(WeakHand)
    else None
  }

  /** The rule table of `getHandStrengthInsights`: with two hole cards, the
      pair advice, then the suited advice, then the probability band. */
  function HandStrengthRules(holeCards: seq<string>, probability: int): (xs: seq<Insight>)
    ensures |xs| <= 3
    ensures PrioritiesInRange(xs)
  {
    if |holeCards| != 2 then []
    else
      var rank1 := RankPart(holeCards[0]);
      var rank2 := RankPart(holeCards[1]);
      var suited := SuitPart(holeCards[0]) == SuitPart(holeCards[1]);
      var highRank := Max(GetRankValue(rank1), GetRankValue(rank2));
      var pairPart := PairRules(rank1, rank2);
      var suitedPart := SuitedRules(suited, highRank);
      var probabilityPart := ProbabilityRules(probability);
      InRangeAppend(pairPart, suitedPart);
      InRangeAppend(pairPart + suitedPart, probabilityPart);
      pairPart + suitedPart + probabilityPart
  }

  function PairRules(rank1: string, rank2: string): (xs: seq<Insight>)
    ensures |xs| <= 1 && PrioritiesInRange(xs)
  {
    if rank1 == rank2 then [PairAdvice(rank1)] else []
  }

  function SuitedRules(suited: bool, highRank: int): (xs: seq<Insight>)
    ensures |xs| <= 1 && PrioritiesInRange(xs)
  {
    if suited then [SuitedAdvice(highRank)] else []
  }

  function ProbabilityRules(probability: int): (xs: seq<Insight>)
    ensures |xs| <= 1 && PrioritiesInRange(xs)
  {
    Emit(ProbabilityAdvice(probability))
  }

  /** `getHandStrengthInsights`. The board and the stage are accepted and
      not consulted. */
  method GetHandStrengthInsights(holeCards: seq<string>, communityCards: seq<string>, probability: int, gameStage: string)
    returns (insights: seq<Insight>)
    ensures insights == HandStrengthRules(holeCards, probability)
  {
    insights := [];
    if |holeCards| != 2 {
      return;
    }
    var card1 := holeCards[0];
    var card2 := holeCards[1];
    var rank1 := RankPart(card1);
    var rank2 := RankPart(card2);
    var suit1 := SuitPart(card1);
    var suit2 := SuitPart(card2);

    if rank1 == rank2 {
      var rankValue := GetRankValue(rank1);
      if rankValue >= 11 {
        insights := insights + [PremiumPair(rank1)];
      } else if rankValue >= 8 {
        insights := insights + [StrongPair(rank1)];
      } else {
        insights := insights + [SmallPair(rank1)];
      }
    }
    assert insights == PairRules(rank1, rank2);
    ghost var pairPart := insights;

    if suit1 == suit2 {
      var highRank := Max(GetRankValue(rank1), GetRankValue(rank2));
      if highRank >= 10 {
        insights := insights + [SuitedBroadway];
      } else {
        insights := insights + [SuitedFlushPotential];
      }
    }
    assert insights == pairPart + SuitedRules(suit1 == suit2, Max(GetRankValue(rank1), GetRankValue(rank2)));
    ghost var handPart := insights;

    if probability >= 75 {
      insights := insights + [VeryStrongHand];
    } else if probability >= 60 {
      insights := insights + [AboveAverageHand];
    } else if probability <= 30 {
      insights := insights + [WeakHand];
    }
    assert insights == handPart + ProbabilityRules(probability);
  }

  /** A pocket-pair record: category "Hand Strength" with a pair priority. */
  predicate IsPairAdvice(x: Insight)
  {
    x.category == "Hand Strength" && (x.priority == 9 || x.priority == 7 || x.priority == 5)
  }

  /** Without exactly two hole cards there is no hand-strength advice. */
  lemma HandStrengthNeedsTwoCards(holeCards: seq<string>, probability: int)
    requires |holeCards| != 2
    ensures HandStrengthRules(holeCards, probability) == []
  {
  }

  /** Two hole cards of the same rank yield exactly one pair record, first
      in the list; two different ranks yield none. Its priority is given by
      PairPriorityByRank. */
  lemma PocketPairAdvice(holeCards: seq<string>, probability: int)
    requires |holeCards| == 2
    ensures var xs := HandStrengthRules(holeCards, probability);
            forall k :: 0 <= k < |xs| ==>
              (IsPairAdvice(xs[k]) <==> k == 0 && RankPart(holeCards[0]) == RankPart(holeCards[1]))
    ensures var xs := HandStrengthRules(holeCards, probability);
            RankPart(holeCards[0]) == RankPart(holeCards[1]) ==>
              |xs| >= 1 && xs[0] == PairAdvice(RankPart(holeCards[0]))
  {
    var rank1 := RankPart(holeCards[0]);
    var rank2 := RankPart(holeCards[1]);
    var suited := SuitPart(holeCards[0]) == SuitPart(holeCards[1]);
    var highRank := Max(GetRankValue(rank1), GetRankValue(rank2));
    var rest := SuitedRules(suited, highRank) + ProbabilityRules(probability);
    assert HandStrengthRules(holeCards, probability) == PairRules(rank1, rank2) + rest;
    NoPairAdviceAfterPair(suited, highRank, probability);
    PairAdviceLeads(rank1, rank2, rest);
  }

  /** The pair rule puts its one pair record ahead of records that are not. */
  lemma PairAdviceLeads(rank1: string, rank2: string, rest: seq<Insight>)
    requires forall k :: 0 <= k < |rest| ==> !IsPairAdvice(rest[k])
    ensures var xs := PairRules(rank1, rank2) + rest;
            forall k :: 0 <= k < |xs| ==> (IsPairAdvice(xs[k]) <==> k == 0 && rank1 == rank2)
  {
    var xs := PairRules(rank1, rank2) + rest;
    if rank1 == rank2 {
      assert IsPairAdvice(xs[0]);
      forall k | 0 < k < |xs| ensures !IsPairAdvice(xs[k]) {
        assert xs[k] == rest[k - 1];
      }
    } else {
      AppendEmpty(rest);
    }
  }

  /** The suited and probability records are never pair records. */
  lemma NoPairAdviceAfterPair(suited: bool, highRank: int, probability: int)
    ensures var rest := SuitedRules(suited, highRank) + ProbabilityRules(probability);
            forall k :: 0 <= k < |rest| ==> !IsPairAdvice(rest[k])
  {
    assert |"Win Probability"| != |"Hand Strength"|;
  }

  /** The pair priority for each rank symbol, ace first: 9 for jacks and
      better, 7 for eights to tens, 5 below. */
  lemma PairPriorityByRank(i: int)
    requires 0 <= i < |RankSymbols|
    ensures PairAdvice(RankSymbols[i]).priority == if i <= 3 then 9 else if i <= 6 then 7 else 5
  {
    RankSymbolsRoundTrip(i);
  }

  /** The probability bands: 10 from 75 up, 7 from 60 to 74, 8 up to 30,
      and nothing strictly between 30 and 60. */
  lemma ProbabilityBands(probability: int)
    ensures ProbabilityAdvice(probability).None? <==> 30 < probability < 60
    ensures ProbabilityAdvice(probability).Some? ==>
      ProbabilityAdvice(probability).value.category == "Win Probability" &&
      ProbabilityAdvice(probability).value.priority ==
        if probability >= 75 then 10 else if probability >= 60 then 7 else 8
  {
  }

  // ---------------------------------------------------------------------
  // Position

  const ButtonPosition := Insight(Positive, "Position", "Button position - maximum advantage",
    "Use position to control pot size and steal blinds.", 6)
  const CutoffPosition := Insight(Positive, "Position", "Cut-off position - good stealing position",
    "Consider raising with wider range to steal blinds.", 5)
  const SmallBlindPosition := Insight(Warning, "Position", "Small blind - worst position post-flop",
    "Play tighter range and be more cautious.", 7)
  const BigBlindPosition := Insight(Neutral, "Position", "Big blind - getting pot odds pre-flop",
    "Defend with wider range but play cautiously post-flop.", 5)
  const UnderTheGunPosition := Insight(Warning, "Position", "Under the gun - early position",
    "Play only premium hands from early position.", 6)

  /** The positions that have advice. */
  const AdvisedPositions: seq<string> := ["BTN", "CO", "SB", "BB", "UTG"]

  /** The advice for a seat name, if the seat has any. */
  function PositionAdvice(position: string): Option<Insight>
  {
    if position == "BTN" then Some(ButtonPosition)
    else if position == "CO" then Some(CutoffPosition)
    else if position == "SB" then Some(SmallBlindPosition)
    else if position == "BB" then Some(BigBlindPosition)
    else if position == "UTG" then Some(UnderTheGunPosition)
    else None
  }

  /** The rule table of `getPositionInsights`. */
  function PositionRules(position: string): (xs: seq<Insight>)
    ensures PrioritiesInRange(xs)
  {
    Emit(PositionAdvice(position))
  }

  /** `getPositionInsights`: a switch on the seat name. The hole cards and
      the stage are accepted and not consulted. */
  method GetPositionInsights(position: string, holeCards: seq<string>, gameStage: string)
    returns (insights: seq<Insight>)
    ensures insights == PositionRules(position)
  {
    insights := [];
    if position == "BTN" {
      insights := insights + [ButtonPosition];
    } else if position == "CO" {
      insights := insights + [CutoffPosition];
    } else if position == "SB" {
      insights := insights + [SmallBlindPosition];
    } else if position == "BB" {
      insights := insights + [BigBlindPosition];
    } else if position == "UTG" {
      insights := insights + [UnderTheGunPosition];
    }
  }

  /** Exactly one record for each of BTN, CO, SB, BB and UTG, none for MP
      or any other name. */
  lemma PositionCoverage(position: string)
    ensures |PositionRules(position)| == if position in AdvisedPositions then 1 else 0
    ensures PositionRules("MP") == []
  {
  }

  // ---------------------------------------------------------------------
  // Opponents

  const ManyOpponents := Insight(Warning, "Opponents", "Many opponents in the hand",
    "Tighten range significantly. Someone likely has a strong hand.", 8)
  const HeadsUp := Insight(Positive, "Opponents", "Heads-up situation",
    "Play wider range and be more aggressive.", 6)
  const FewOpponents := Insight(Neutral, "Opponents", "Few opponents - good spot for aggression",
    "Can play more hands and be more aggressive.", 5)

  /** The opponent-count advice, if any. */
  function OpponentAdvice(opponents: int): Option<Insight>
  {
    if opponents >= 6 then Some(ManyOpponents)
    else if opponents == 1 then Some(HeadsUp)
    else if opponents <= 3 then Some(FewOpponents)
    else None
  }

  /** The rule table of `getOpponentInsights`. */
  function OpponentRules(opponents: int): (xs: seq<Insight>)
    ensures PrioritiesInRange(xs)
  {
    Emit(OpponentAdvice(opponents))
  }

  /** `getOpponentInsights`. The probability is accepted and not consulted. */
  method GetOpponentInsights(opponents: int, probability: int) returns (insights: seq<Insight>)
    ensures insights == OpponentRules(opponents)
  {
    insights := [];
    if opponents >= 6 {
      insights := insights + [ManyOpponents];
    } else if opponents == 1 {
      insights := insights + [HeadsUp];
    } else if opponents <= 3 {
      insights := insights + [FewOpponents];
    }
  }

  /** Priority 8 from six opponents up, 6 heads-up, 5 for two or three (and
      for zero or fewer), nothing for four or five. */
  lemma OpponentPriorities(opponents: int)
    ensures OpponentRules(opponents) == [] <==> 4 <= opponents <= 5
    ensures OpponentRules(opponents) != [] ==>
      OpponentRules(opponents)[0].priority ==
        if opponents >= 6 then 8 else if opponents == 1 then 6 else 5
  {
  }

  // ---------------------------------------------------------------------
  // Game stage

  const PreflopStage := Insight(Neutral, "Game Stage", "Pre-flop - position and hand selection crucial",
    "Focus on premium hands and position.", 4)
  const FlopStage := Insight(Neutral, "Game Stage", "Flop - most important betting round",
    "Evaluate hand strength and draws carefully.", 5)
  const TurnStage := Insight(Warning, "Game Stage", "Turn - pot sizes getting larger",
    "Be more selective with bluffs and draws.", 6)
  const RiverStage := Insight(Warning, "Game Stage", "River - no more cards coming",
    "Only bet/call with strong made hands.", 7)

  /** The stage names in the order a hand is played. */
  const StageNames: seq<string> := ["preflop", "flop", "turn", "river"]

  /** The advice for a stage name, if it is one. */
  function StageAdvice(gameStage: string): Option<Insight>
  {
    if gameStage == "preflop" then Some(PreflopStage)
    else if gameStage == "flop" then Some(FlopStage)
    else if gameStage == "turn" then Some(TurnStage)
    else if gameStage == "river" then Some(RiverStage)
    else None
  }

  /** The rule table of `getGameStageInsights`. */
  function GameStageRules(gameStage: string): (xs: seq<Insight>)
    ensures PrioritiesInRange(xs)
  {
    Emit(StageAdvice(gameStage))
  }

  /** `getGameStageInsights`: a switch on the stage. The cards and the
      probability are accepted and not consulted. */
  method GetGameStageInsights(gameStage: string, holeCards: seq<string>, communityCards: seq<string>, probability: int)
    returns (insights: seq<Insight>)
    ensures insights == GameStageRules(gameStage)
  {
    insights := [];
    if gameStage == "preflop" {
      insights := insights + [PreflopStage];
    } else if gameStage == "flop" {
      insights := insights + [FlopStage];
    } else if gameStage == "turn" {
      insights := insights + [TurnStage];
    } else if gameStage == "river" {
      insights := insights + [RiverStage];
    }
  }

  /** Exactly one record per stage, its priority rising 4, 5, 6, 7 as the
      hand goes on; none for any other name. */
  lemma StagePriorities(i: int, other: string)
    requires 0 <= i < |StageNames|
    requires other !in StageNames
    ensures |GameStageRules(StageNames[i])| == 1
    ensures GameStageRules(StageNames[i])[0].priority == 4 + i
    ensures GameStageRules(other) == []
  {
  }

  // ---------------------------------------------------------------------
  // Board texture

  const PairedBoard := Insight(Warning, "Board Texture", "Paired board - full house possible",
    "Be cautious with two pair and sets.", 6)
  const FlushBoard := Insight(Warning, "Board Texture", "Flush draw possible on board",
    "Be aware of flush possibilities.", 5)
  const CoordinatedBoard := Insight(Warning, "Board Texture", "Coordinated board - straight draws possible",
    "Be cautious of straight possibilities.", 5)

  /** The largest gap of at most 4 among the first n neighbouring pairs of
      u, or 0 when there is none: the value `maxGap` holds after n rounds. */
  function LargestSmallGap(u: seq<int>, n: nat): (g: int)
    requires n == 0 || n < |u|
    ensures 0 <= g <= 4
  {
    if n == 0 then 0
    else
      var gap := u[n] - u[n - 1];
      var before := LargestSmallGap(u, n - 1);
      if gap <= 4 then Max(before, gap) else before
  }

  /** The `maxGap` loop of `getBoardTextureInsights`: the largest gap of at
      most 4 between neighbouring values of u. */
  method MaxSmallGap(u: seq<int>) returns (maxGap: int)
    ensures maxGap == if |u| == 0 then 0 else LargestSmallGap(u, |u| - 1)
  {
    maxGap := 0;
    var i := 0;
    while i < |u| - 1
      invariant i == 0 || i < |u|
      invariant maxGap == LargestSmallGap(u, i)
      decreases |u| - i
    {
      var gap := u[i + 1] - u[i];
      if gap <= 4 {
        maxGap := Max(maxGap, gap);
      }
      i := i + 1;
    }
  }

  /** The paired-board rule. */
  function PairedBoardRules(ranks: seq<RankValue>): (xs: seq<Insight>)
    ensures |xs| <= 1 && PrioritiesInRange(xs)
  {
    if SomeCountAtLeast(multiset(ranks), 2) then [PairedBoard] else []
  }

  /** The flush-board rule. */
  function FlushBoardRules(suits: seq<string>): (xs: seq<Insight>)
    ensures |xs| <= 1 && PrioritiesInRange(xs)
  {
    if SomeCountAtLeast(multiset(suits), 3) then [FlushBoard] else []
  }

  /** The coordinated-board rule on the distinct ranks in ascending order:
      the largest small gap is at most 4 and there are three ranks or more. */
  function CoordinatedBoardRules(sortedRanks: seq<int>): (xs: seq<Insight>)
    ensures |xs| <= 1 && PrioritiesInRange(xs)
  {
    var maxGap := if |sortedRanks| == 0 then 0 else LargestSmallGap(sortedRanks, |sortedRanks| - 1);
    if maxGap <= 4 && |sortedRanks| >= 3 then [CoordinatedBoard] else []
  }

  /** The rule table of `getBoardTextureInsights`, as the code states it. */
  function BoardTextureRules(communityCards: seq<string>): (xs: seq<Insight>)
    ensures |communityCards| < 3 ==> xs == []
    ensures |xs| <= 3
    ensures PrioritiesInRange(xs)
  {
    if |communityCards| < 3 then []
    else
      var ranks := RankValues(communityCards);
      var pairedPart := PairedBoardRules(ranks);
      var flushPart := FlushBoardRules(SuitsOf(communityCards));
      var coordinatedPart := CoordinatedBoardRules(DistinctAscending(ranks));
      InRangeAppend(pairedPart, flushPart);
      InRangeAppend(pairedPart + flushPart, coordinatedPart);
      pairedPart + flushPart + coordinatedPart
  }

  /** `getBoardTextureInsights`, with its `maxGap` loop over the distinct
      ranks in ascending order. The hole cards are accepted and not
      consulted. */
  method GetBoardTextureInsights(communityCards: seq<string>, holeCards: seq<string>) returns (insights: seq<Insight>)
    ensures insights == BoardTextureRules(communityCards)
  {
    insights := [];
    if |communityCards| < 3 {
      return;
    }
    var ranks := RankValues(communityCards);
    var suits := SuitsOf(communityCards);

    if SomeCountAtLeast(multiset(ranks), 2) {
      insights := insights + [PairedBoard];
    }
    ghost var pairedPart := insights;
    assert pairedPart == PairedBoardRules(ranks);

    if SomeCountAtLeast(multiset(suits), 3) {
      insights := insights + [FlushBoard];
    } else {
      AppendEmpty(pairedPart);
    }
    ghost var texturePart := insights;
    assert texturePart == pairedPart + FlushBoardRules(suits);

    var sortedRanks := DistinctAscending(ranks);
    var maxGap := MaxSmallGap(sortedRanks);
    var coordinated := maxGap <= 4 && |sortedRanks| >= 3;
    CoordinatedFromGap(sortedRanks, maxGap);
    if coordinated {
      insights := insights + [CoordinatedBoard];
    } else {
      AppendEmpty(texturePart);
    }
    assert insights == texturePart + CoordinatedBoardRules(sortedRanks);
    BoardTextureParts(communityCards);
  }

  /** The coordinated rule, read off the gap the loop of `MaxSmallGap` finds. */
  lemma CoordinatedFromGap(sortedRanks: seq<int>, maxGap: int)
    requires maxGap == if |sortedRanks| == 0 then 0 else LargestSmallGap(sortedRanks, |sortedRanks| - 1)
    ensures CoordinatedBoardRules(sortedRanks)
              == if maxGap <= 4 && |sortedRanks| >= 3 then [CoordinatedBoard] else []
  {
  }

  /** The board rules of three or more cards are the three part rules in order. */
  lemma BoardTextureParts(communityCards: seq<string>)
    requires |communityCards| >= 3
    ensures BoardTextureRules(communityCards)
         == PairedBoardRules(RankValues(communityCards)) + FlushBoardRules(SuitsOf(communityCards))
            + CoordinatedBoardRules(DistinctAscending(RankValues(communityCards)))
  {
  }

  /** A strictly increasing list has as many distinct values as entries. */
  lemma {:induction false} DistinctCount(u: seq<int>)
    requires StrictlyIncreasing(u)
    ensures |set x | x in u| == |u|
  {
    if u != [] {
      var rest := u[1..];
      DistinctCount(rest);
      assert (set x | x in u) == (set x | x in rest) + {u[0]};
      assert u[0] !in (set x | x in rest);
    }
  }

  /** The paired and flush records are not the coordinated record. */
  lemma NotCoordinatedBefore(ranks: seq<RankValue>, suits: seq<string>)
    ensures CoordinatedBoard !in PairedBoardRules(ranks) + FlushBoardRules(suits)
  {
    assert |FlushBoard.message| != |CoordinatedBoard.message|;
  }

  /** The deduplicated board ranks hold as many values as the board has
      different rank values. */
  lemma DistinctRankCount(ranks: seq<RankValue>)
    ensures |DistinctAscending(ranks)| == |set r | r in ranks|
  {
    var sortedRanks := DistinctAscending(ranks);
    DistinctCount(sortedRanks);
    assert (set x | x in sortedRanks) == (set r | r in ranks);
  }

  /** The coordinated record is in the board records exactly when the
      coordinated rule fires. */
  lemma CoordinatedOnlyFromItsRule(communityCards: seq<string>)
    requires |communityCards| >= 3
    ensures CoordinatedBoard in BoardTextureRules(communityCards)
        <==> |DistinctAscending(RankValues(communityCards))| >= 3
  {
    var ranks := RankValues(communityCards);
    var before := PairedBoardRules(ranks) + FlushBoardRules(SuitsOf(communityCards));
    var coordinated := CoordinatedBoardRules(DistinctAscending(ranks));
    BoardTextureParts(communityCards);
    NotCoordinatedBefore(ranks, SuitsOf(communityCards));
    assert CoordinatedBoard in before + coordinated <==> CoordinatedBoard in coordinated;
  }

  /** The gap test never rejects a board: the coordinated-board record is
      given exactly when the board shows three or more different rank
      values. */
  lemma CoordinatedIffThreeRanks(communityCards: seq<string>)
    ensures CoordinatedBoard in BoardTextureRules(communityCards)
        <==> |communityCards| >= 3 && |set r | r in RankValues(communityCards)| >= 3
  {
    if |communityCards| >= 3 {
      CoordinatedOnlyFromItsRule(communityCards);
      DistinctRankCount(RankValues(communityCards));
    }
  }

  // ---------------------------------------------------------------------
  // Betting strategy

  const ValueBet := Insight(Positive, "Strategy", "Strong hand - value betting spot",
    "Bet/raise for value. Build the pot with strong hands.", 8)
  const PositionPlay := Insight(Neutral, "Strategy", "Decent hand in good position",
    "Consider semi-bluffing or thin value betting.", 6)
  const WeakMultiway := Insight(Negative, "Strategy", "Weak hand against multiple opponents",
    "Fold unless getting excellent pot odds.", 9)
  const BluffSpot := Insight(Neutral, "Strategy", "Potential bluffing spot",
    "Consider bluffing from position against few opponents.", 5)

  /** The strength advice: value betting, position play or the multiway warning. */
  function StrengthAdvice(probability: int, position: string, opponents: int): Option<Insight>
  {
    if probability >= 70 then Some(ValueBet)
    else if probability >= 45 && (position == "BTN" || position == "CO") then Some(PositionPlay)
    else if probability <= 25 && opponents >= 3 then Some(WeakMultiway)
    else None
  }

  /** The bluffing condition. */
  predicate BluffingSpot(probability: int, position: string, opponents: int)
  {
    probability <= 35 && position == "BTN" && opponents <= 2
  }

  /** The rule table of `getBettingStrategyInsights`. */
  function BettingRules(probability: int, position: string, opponents: int): (xs: seq<Insight>)
    ensures PrioritiesInRange(xs)
  {
    Emit(StrengthAdvice(probability, position, opponents))
    + (if BluffingSpot(probability, position, opponents) then [BluffSpot] else [])
  }

  /** `getBettingStrategyInsights`. The stage is accepted and not consulted. */
  method GetBettingStrategyInsights(probability: int, position: string, opponents: int, gameStage: string)
    returns (insights: seq<Insight>)
    ensures insights == BettingRules(probability, position, opponents)
  {
    insights := [];
    if probability >= 70 {
      insights := insights + [ValueBet];
    } else if probability >= 45 && (position == "BTN" || position == "CO") {
      insights := insights + [PositionPlay];
    } else if probability <= 25 && opponents >= 3 {
      insights := insights + [WeakMultiway];
    }
    if probability <= 35 && position == "BTN" && opponents <= 2 {
      insights := insights + [BluffSpot];
    }
  }

  /** At most one record: the value, position and multiway records exclude
      each other, and the bluffing condition (at most 35 on the button
      against at most two opponents) excludes all three of them. The bluff
      record is present exactly under its own condition. */
  lemma BettingExclusive(probability: int, position: string, opponents: int)
    ensures var xs := BettingRules(probability, position, opponents);
            && |xs| <= 1
            && (BluffSpot in xs <==> BluffingSpot(probability, position, opponents))
            && (StrengthAdvice(probability, position, opponents).Some? ==>
                  xs == [StrengthAdvice(probability, position, opponents).value])
  {
  }

  // ---------------------------------------------------------------------
  // Sorting and selection

  /** Priorities never increase along the list. */
  predicate NonIncreasing(xs: seq<Insight>)
  {
    forall i, j :: 0 <= i < j < |xs| ==> xs[i].priority >= xs[j].priority
  }

  /** No record has a priority above `bound`. */
  predicate AllAtMost(xs: seq<Insight>, bound: int)
  {
    forall i :: 0 <= i < |xs| ==> xs[i].priority <= bound
  }

  lemma ConsNonIncreasing(x: Insight, xs: seq<Insight>)
    requires NonIncreasing(xs) && AllAtMost(xs, x.priority)
    ensures NonIncreasing([x] + xs)
  {
    var r := [x] + xs;
    forall i, j | 0 <= i < j < |r| ensures r[i].priority >= r[j].priority {
      assert r[j] == xs[j - 1];
      if i > 0 {
        assert r[i] == xs[i - 1];
      }
    }
  }

  /** Places x after every record of strictly higher priority. */
  function Insert(x: Insight, ys: seq<Insight>): (r: seq<Insight>)
    ensures multiset(r) == multiset(ys) + multiset{x}
  {
    if ys == [] then [x]
    else if ys[0].priority <= x.priority then [x] + ys
    else
      assert ys == [ys[0]] + ys[1..];
      [ys[0]] + Insert(x, ys[1..])
  }

  lemma {:induction false} InsertAtMost(x: Insight, ys: seq<Insight>, bound: int)
    requires AllAtMost(ys, bound) && x.priority <= bound
    ensures AllAtMost(Insert(x, ys), bound)
  {
    if ys != [] && ys[0].priority > x.priority {
      InsertAtMost(x, ys[1..], bound);
      var r := Insert(x, ys);
      assert forall i :: 0 < i < |r| ==> r[i] == Insert(x, ys[1..])[i - 1];
    } else if ys != [] {
      var r := Insert(x, ys);
      assert forall i :: 0 < i < |r| ==> r[i] == ys[i - 1];
    }
  }

  lemma {:induction false} InsertNonIncreasing(x: Insight, ys: seq<Insight>)
    requires NonIncreasing(ys)
    ensures NonIncreasing(Insert(x, ys))
  {
    if ys == [] {
    } else if ys[0].priority <= x.priority {
      assert AllAtMost(ys, x.priority) by {
        forall i | 0 <= i < |ys| ensures ys[i].priority <= x.priority {
          assert i == 0 || ys[0].priority >= ys[i].priority;
        }
      }
      ConsNonIncreasing(x, ys);
    } else {
      var tail := ys[1..];
      assert NonIncreasing(tail) by {
        forall i, j | 0 <= i < j < |tail| ensures tail[i].priority >= tail[j].priority {
          assert tail[i] == ys[i + 1] && tail[j] == ys[j + 1];
        }
      }
      InsertNonIncreasing(x, tail);
      assert AllAtMost(tail, ys[0].priority) by {
        forall i | 0 <= i < |tail| ensures tail[i].priority <= ys[0].priority {
          assert tail[i] == ys[i + 1];
        }
      }
      InsertAtMost(x, tail, ys[0].priority);
      ConsNonIncreasing(ys[0], Insert(x, tail));
    }
  }

  /** `sort((a, b) => b.priority - a.priority)`: a stable sort, highest
      priority first. */
  function SortByPriority(xs: seq<Insight>): (ys: seq<Insight>)
    ensures NonIncreasing(ys)
    ensures multiset(ys) == multiset(xs)
  {
    if xs == [] then []
    else
      assert xs == [xs[0]] + xs[1..];
      var rest := SortByPriority(xs[1..]);
      InsertNonIncreasing(xs[0], rest);
      Insert(xs[0], rest)
  }

  /** The records of priority p, in list order. */
  function WithPriority(xs: seq<Insight>, p: int): seq<Insight>
  {
    if xs == [] then []
    else (if xs[0].priority == p then [xs[0]] else []) + WithPriority(xs[1..], p)
  }

  lemma WithPriorityCons(a: Insight, xs: seq<Insight>, p: int)
    ensures WithPriority([a] + xs, p) == if a.priority == p then [a] + WithPriority(xs, p) else WithPriority(xs, p)
  {
    var r := [a] + xs;
    assert r[0] == a && r[1..] == xs;
  }

  lemma {:induction false} InsertKeepsTies(x: Insight, ys: seq<Insight>, p: int)
    ensures WithPriority(Insert(x, ys), p)
         == if x.priority == p then [x] + WithPriority(ys, p) else WithPriority(ys, p)
  {
    if ys == [] {
      WithPriorityCons(x, [], p);
      assert [x] + [] == [x];
    } else if ys[0].priority <= x.priority {
      WithPriorityCons(x, ys, p);
    } else {
      var tail := ys[1..];
      assert ys == [ys[0]] + tail;
      InsertKeepsTies(x, tail, p);
      WithPriorityCons(ys[0], Insert(x, tail), p);
      WithPriorityCons(ys[0], tail, p);
      if x.priority == p {
        assert ys[0].priority != p;
      }
    }
  }

  /** The sort is stable: the records of each priority keep their order. */
  lemma {:induction false} SortIsStable(xs: seq<Insight>, p: int)
    ensures WithPriority(SortByPriority(xs), p) == WithPriority(xs, p)
  {
    if xs != [] {
      SortIsStable(xs[1..], p);
      InsertKeepsTies(xs[0], SortByPriority(xs[1..]), p);
    }
  }

  /** `slice(0, 4)`. */
  function TopInsights(sorted: seq<Insight>): (top: seq<Insight>)
    ensures |top| <= 4
    ensures |top| == if |sorted| < 4 then |sorted| else 4
  {
    if |sorted| <= 4 then sorted else sorted[..4]
  }

  lemma TopSplits(sorted: seq<Insight>)
    ensures var top := TopInsights(sorted);
            sorted == top + sorted[|top|..]
  {
  }

  /** The engine's selection keeps at most four records, highest priority
      first, all taken from the candidates, and no record left behind has a
      higher priority than one kept. */
  lemma TopAreBest(all: seq<Insight>)
    ensures var top := TopInsights(SortByPriority(all));
            && |top| <= 4
            && NonIncreasing(top)
            && multiset(top) <= multiset(all)
            && forall x, y :: x in top && y in multiset(all) - multiset(top) ==> x.priority >= y.priority
  {
    var sorted := SortByPriority(all);
    var top := TopInsights(sorted);
    var n := |top|;
    var rest := sorted[n..];
    TopSplits(sorted);
    assert top == sorted[..n];
    PrefixDominates(sorted, n);
    assert multiset(sorted) == multiset(top) + multiset(rest);
    forall x, y | x in top && y in multiset(all) - multiset(top)
      ensures x.priority >= y.priority
    {
      assert y in multiset(rest);
    }
  }

  /** In a list ordered by priority, a prefix is ordered too and outranks
      every record after it. */
  lemma PrefixDominates(sorted: seq<Insight>, n: int)
    requires NonIncreasing(sorted) && 0 <= n <= |sorted|
    ensures NonIncreasing(sorted[..n])
    ensures forall x, y :: x in sorted[..n] && y in sorted[n..] ==> x.priority >= y.priority
  {
    var top, rest := sorted[..n], sorted[n..];
    forall i, j | 0 <= i < j < n ensures top[i].priority >= top[j].priority {
      assert top[i] == sorted[i] && top[j] == sorted[j];
    }
    forall x, y | x in top && y in rest ensures x.priority >= y.priority {
      var i :| 0 <= i < n && top[i] == x;
      var j :| 0 <= j < |rest| && rest[j] == y;
      assert sorted[i] == x && sorted[n + j] == y;
    }
  }

  // ---------------------------------------------------------------------
  // The engine

  /** Every helper's records, in the order the engine collects them. The
      board helper runs only when there is a board. */
  function AllInsights(holeCards: seq<string>, communityCards: seq<string>, position: string,
                       opponents: int, gameStage: string, probability: int): (xs: seq<Insight>)
    ensures |xs| <= 3 + 1 + 1 + 1 + 3 + 2
    ensures PrioritiesInRange(xs)
  {
    HandStrengthRules(holeCards, probability)
    + PositionRules(position)
    + OpponentRules(opponents)
    + GameStageRules(gameStage)
    + (if |communityCards| > 0 then BoardTextureRules(communityCards) else [])
    + BettingRules(probability, position, opponents)
  }

  /** `generatePokerInsights`. */
  method GeneratePokerInsights(holeCards: seq<string>, communityCards: seq<string>, position: string,
                               opponents: int, gameStage: string, probability: int)
    returns (top: seq<Insight>)
    ensures top == TopInsights(SortByPriority(AllInsights(holeCards, communityCards, position, opponents, gameStage, probability)))
    ensures |top| <= 4 && NonIncreasing(top) && PrioritiesInRange(top)
  {
    var insights: seq<Insight> := [];

    var handStrength := GetHandStrengthInsights(holeCards, communityCards, probability, gameStage);
    AppendEmpty(handStrength);
    insights := insights + handStrength;

    var positionAdvice := GetPositionInsights(position, holeCards, gameStage);
    insights := insights + positionAdvice;

    var opponentAdvice := GetOpponentInsights(opponents, probability);
    insights := insights + opponentAdvice;

    var stageAdvice := GetGameStageInsights(gameStage, holeCards, communityCards, probability);
    insights := insights + stageAdvice;

    if |communityCards| > 0 {
      var boardAdvice := GetBoardTextureInsights(communityCards, holeCards);
      insights := insights + boardAdvice;
    } else {
      AppendEmpty(insights);
    }

    var bettingAdvice := GetBettingStrategyInsights(probability, position, opponents, gameStage);
    insights := insights + bettingAdvice;

    assert insights == AllInsights(holeCards, communityCards, position, opponents, gameStage, probability);
    TopAreBest(insights);
    var sorted := SortByPriority(insights);
    top := TopInsights(sorted);
    forall x | x in top ensures 4 <= x.priority <= 10 {
      assert x in multiset(insights);
    }
  }
}
