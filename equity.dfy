/**
 * The integer tables behind the win-probability estimate of
 * src/utils/pokerCalculator.ts: the base equity of a made hand category,
 * the preflop base equity of two hole cards, the outs added for draws, and
 * the guard that answers 0 unless exactly two hole cards are known.
 */
module Equity {
  import opened Cards
  import opened HandEvaluator

  /** Base equity by category number, High Card first. */
  const BaseEquities: seq<int> := [15, 25, 45, 65, 80, 85, 90, 95, 98]

  /** `getHandEquity`: the table entry for a category number, 15 for any
      other number. The board size is not consulted. */
  function GetHandEquity(handStrength: HandStrength, boardCards: int): (e: int)
    ensures 15 <= e <= 98
    ensures !(0 <= handStrength.rank < |BaseEquities|) ==> e == 15
  {
    if 0 <= handStrength.rank < |BaseEquities| then BaseEquities[handStrength.rank] else 15
  }

  /** A better category always has the larger base equity, and the board
      size never matters. */
  lemma HandEquityIncreases(a: HandStrength, b: HandStrength, boardA: int, boardB: int)
    requires 0 <= a.rank < b.rank <= 8
    ensures GetHandEquity(a, boardA) < GetHandEquity(b, boardB)
  {
  }

  /** The base equity of an evaluated hand is the entry of its category. */
  lemma EvaluatedHandEquity(cards: seq<string>, boardCards: int)
    ensures var h := EvaluateHandStrength(cards);
            GetHandEquity(h, boardCards) == BaseEquities[h.rank]
  {
  }

  // ---------------------------------------------------------------------
  // Preflop

  /** The pocket-pair rows of the preflop table, by the pair's rank value. */
  function PairEquity(highRank: int): (e: int)
    ensures 51 <= e <= 85
  {
    if highRank == 14 then 85
    else if highRank == 13 then 82
    else if highRank == 12 then 79
    else if highRank == 11 then 77
    else if highRank == 10 then 75
    else if highRank == 9 then 72
    else if highRank == 8 then 69
    else if highRank == 7 then 66
    else if highRank == 6 then 63
    else if highRank == 5 then 60
    else if highRank == 4 then 57
    else if highRank == 3 then 54
    else 51
  }

  /** The unpaired rows of the preflop table. */
  function NonPairEquity(highRank: int, lowRank: int, isSuited: bool): (e: int)
    ensures 25 <= e <= 67
  {
    var gap := highRank - lowRank;
    if highRank == 14 then
      if lowRank == 13 then (if isSuited then 67 else 65)
      else if lowRank == 12 then (if isSuited then 64 else 62)
      else if lowRank == 11 then (if isSuited then 61 else 59)
      else if lowRank == 10 then (if isSuited then 58 else 56)
      else if lowRank == 9 then (if isSuited then 55 else 52)
      else if lowRank == 8 then (if isSuited then 52 else 49)
      else if lowRank == 7 then (if isSuited then 49 else 46)
      else if lowRank == 6 then (if isSuited then 47 else 44)
      else if lowRank == 5 then (if isSuited then 48 else 45)
      else if lowRank == 4 then (if isSuited then 46 else 43)
      else if lowRank == 3 then (if isSuited then 45 else 42)
      else (if isSuited then 44 else 41)
    else if highRank == 13 then
      if lowRank == 12 then (if isSuited then 60 else 58)
      else if lowRank == 11 then (if isSuited then 57 else 55)
      else if lowRank == 10 then (if isSuited then 54 else 52)
      else if lowRank == 9 then (if isSuited then 51 else 48)
      else if lowRank >= 7 then (if isSuited then 48 else 44)
      else (if isSuited then 44 else 40)
    else if highRank == 12 then
      if lowRank == 11 then (if isSuited then 54 else 52)
      else if lowRank == 10 then (if isSuited then 51 else 49)
      else if lowRank == 9 then (if isSuited then 48 else 45)
      else (if isSuited then 44 else 40)
    else if highRank == 11 then
      if lowRank == 10 then (if isSuited then 48 else 46)
      else if lowRank == 9 then (if isSuited then 45 else 42)
      else (if isSuited then 41 else 37)
    else if gap == 0 then
      if highRank >= 10 then (if isSuited then 45 else 42)
      else if highRank >= 7 then (if isSuited then 42 else 38)
      else (if isSuited then 38 else 34)
    else if gap == 1 then
      if highRank >= 10 then (if isSuited then 42 else 38)
      else if highRank >= 7 then (if isSuited then 38 else 34)
      else (if isSuited then 34 else 30)
    else if gap == 2 then
      if highRank >= 10 then (if isSuited then 38 else 34)
      else (if isSuited then 32 else 28)
    else if isSuited then 30
    else 25
  }

  /** The base equity of `calculatePreflopEquity`, before the opponent
      factor and the clamp. A pair is two equal rank strings; suited is two
      equal suit strings. */
  function PreflopBaseEquity(rank1: string, rank2: string, suit1: string, suit2: string): (e: int)
    ensures 25 <= e <= 85
    ensures rank1 == rank2 ==> 51 <= e
  {
    var rankValue1 := GetRankValue(rank1);
    var rankValue2 := GetRankValue(rank2);
    var highRank := if rankValue1 >= rankValue2 then rankValue1 else rankValue2;
    var lowRank := if rankValue1 >= rankValue2 then rankValue2 else rankValue1;
    if rank1 == rank2 then PairEquity(highRank)
    else NonPairEquity(highRank, lowRank, suit1 == suit2)
  }

  /** Pocket pairs rank strictly by their rank value: 51 for deuces up to
      85 for aces. */
  lemma PocketPairsIncrease(i: int, j: int, suit1: string, suit2: string)
    requires 0 <= i < j < |RankSymbols|
    ensures PreflopBaseEquity(RankSymbols[j], RankSymbols[j], suit1, suit2)
          < PreflopBaseEquity(RankSymbols[i], RankSymbols[i], suit1, suit2)
    ensures PreflopBaseEquity("2", "2", suit1, suit2) == 51
    ensures PreflopBaseEquity("A", "A", suit1, suit2) == 85
  {
    RankSymbolsRoundTrip(i);
    RankSymbolsRoundTrip(j);
  }

  /** In every unpaired row the suited entry beats the offsuit one. */
  lemma SuitedBeatsOffsuit(rank1: string, rank2: string, suit: string, other1: string, other2: string)
    requires rank1 != rank2 && other1 != other2
    ensures PreflopBaseEquity(rank1, rank2, suit, suit) > PreflopBaseEquity(rank1, rank2, other1, other2)
  {
  }

  /** Holding the cards in the other order gives the same base equity. */
  lemma PreflopSymmetric(rank1: string, rank2: string, suit1: string, suit2: string)
    ensures PreflopBaseEquity(rank1, rank2, suit1, suit2) == PreflopBaseEquity(rank2, rank1, suit2, suit1)
  {
  }

  /** The connector rows (gap 0 without a pair) are reached only by two
      different rank strings that the rank table does not know. */
  lemma ConnectorRowsNeedUnknownRanks(rank1: string, rank2: string)
    requires rank1 != rank2
    requires GetRankValue(rank1) == GetRankValue(rank2)
    ensures GetRankValue(rank1) == 0
    ensures rank1 !in RankSymbols && rank2 !in RankSymbols
  {
  }

  // ---------------------------------------------------------------------
  // Postflop and the guard

  /** The draw term of `calculatePostflopEquity`: two percent per out (9 for
      a flush draw, 8 for an open-ended straight draw, 4 for a gutshot) for
      each card still to come. `cardsLeft` is `5 - communityCards.length`,
      which the code does not keep from going negative. */
  function DrawBonus(draws: Draws, cardsLeft: int): (bonus: int)
    ensures !(draws.openEndedStraightDraw && draws.gutshot) && 0 <= cardsLeft <= 5 ==>
              0 <= bonus <= 2 * (9 + 8) * 5
    ensures cardsLeft == 0 ==> bonus == 0
    ensures !draws.flushDraw && !draws.openEndedStraightDraw && !draws.gutshot ==> bonus == 0
    ensures (draws.flushDraw || draws.openEndedStraightDraw || draws.gutshot) && cardsLeft > 0 ==> bonus > 0
  {
    (if draws.flushDraw then 9 * 2 * cardsLeft else 0)
    + (if draws.openEndedStraightDraw then 8 * 2 * cardsLeft else 0)
    + (if draws.gutshot then 4 * 2 * cardsLeft else 0)
  }

  /** The integer part of `calculatePostflopEquity`: the category's base
      equity plus the draw term. The overcard term, the texture multipliers,
      the opponent penalty and the clamp are not part of it. */
  function PostflopBaseEquity(holeCards: seq<string>, communityCards: seq<string>): (e: int)
    ensures |communityCards| <= 5 ==> 15 <= e <= 98 + 2 * (9 + 8) * 5
    ensures |communityCards| == 5 ==> e == GetHandEquity(EvaluateHandStrength(holeCards + communityCards), 5)
  {
    var handStrength := EvaluateHandStrength(holeCards + communityCards);
    var draws := EvaluateDraws(holeCards, communityCards);
    var cardsLeft := 5 - |communityCards|;
    GetHandEquity(handStrength, |communityCards|) + DrawBonus(draws, cardsLeft)
  }

  /** Which estimate `calculateWinProbability` starts from. */
  datatype Estimate =
    | NoEstimate
    | PreflopEstimate(baseEquity: int)
    | PostflopEstimate(baseEquity: int)

  /** The dispatch of `calculateWinProbability`: no estimate (the function
      answers 0) unless there are exactly two hole cards, the preflop table
      in the preflop stage, the postflop count otherwise. */
  function WinProbabilityBase(holeCards: seq<string>, communityCards: seq<string>, gameStage: string): (r: Estimate)
    ensures r.NoEstimate? <==> |holeCards| != 2
    ensures r.PreflopEstimate? <==> |holeCards| == 2 && gameStage == "preflop"
    ensures r.PreflopEstimate? ==> 25 <= r.baseEquity <= 85
    ensures r.PostflopEstimate? && |communityCards| <= 5 ==> r.baseEquity >= 15
  {
    if |holeCards| != 2 then NoEstimate
    else
      var card1 := holeCards[0];
      var card2 := holeCards[1];
      if gameStage == "preflop" then
        PreflopEstimate(PreflopBaseEquity(RankPart(card1), RankPart(card2), SuitPart(card1), SuitPart(card2)))
      else
        PostflopEstimate(PostflopBaseEquity(holeCards, communityCards))
  }

  /** The postflop count depends only on which hole cards are held. */
  lemma PostflopIgnoresHoleOrder(holeCards: seq<string>, reordered: seq<string>, communityCards: seq<string>)
    requires multiset(holeCards) == multiset(reordered)
    ensures PostflopBaseEquity(holeCards, communityCards) == PostflopBaseEquity(reordered, communityCards)
  {
    assert multiset(holeCards + communityCards) == multiset(reordered + communityCards);
    EvaluateIgnoresOrder(holeCards + communityCards, reordered + communityCards);
    DrawsIgnoreHoleOrder(holeCards, reordered, communityCards);
  }

  /** Swapping the two hole cards changes no estimate. */
  lemma WinProbabilityIgnoresHoleOrder(card1: string, card2: string, communityCards: seq<string>, gameStage: string)
    ensures WinProbabilityBase([card1, card2], communityCards, gameStage)
         == WinProbabilityBase([card2, card1], communityCards, gameStage)
  {
    if gameStage == "preflop" {
      PreflopSymmetric(RankPart(card1), RankPart(card2), SuitPart(card1), SuitPart(card2));
    } else {
      PostflopIgnoresHoleOrder([card1, card2], [card2, card1], communityCards);
    }
  }
}
