/**
 * Card tokens as the calculator reads them (src/utils/pokerCalculator.ts):
 * a token is split into a rank part (every character but the last) and a
 * suit part (the last character), and the rank part is looked up in a fixed
 * rank table.
 */
module Cards {
  import opened Sequences

  /** A rank value as the rank table yields it: 0 for a rank the table does
      not know, otherwise 2 (deuce) to 14 (ace). */
  type RankValue = v: int | 0 <= v <= 14

  /** The rank symbols the card picker offers, ace first. */
  const RankSymbols: seq<string> := ["A", "K", "Q", "J", "10", "9", "8", "7", "6", "5", "4", "3", "2"]

  /** The rank part of a token: `card.slice(0, -1)`. */
  function RankPart(card: string): string
  {
    if |card| == 0 then "" else card[..|card| - 1]
  }

  /** The suit part of a token: `card.slice(-1)`. */
  function SuitPart(card: string): string
  {
    if |card| == 0 then "" else [card[|card| - 1]]
  }

  /** Splitting a token loses nothing, and the suit part is at most one character. */
  lemma TokenSplits(card: string)
    ensures RankPart(card) + SuitPart(card) == card
    ensures |SuitPart(card)| == if card == "" then 0 else 1
  {
    if card != "" {
      assert card[..|card| - 1] + [card[|card| - 1]] == card;
    }
  }

  /** `getRankValue`: the rank table, with 0 for every string it does not hold. */
  function GetRankValue(rank: string): (v: RankValue)
    ensures v == 0 || 2 <= v <= 14
    ensures v != 0 <==> rank in RankSymbols
    ensures v != 0 ==> RankSymbols[14 - v] == rank
  {
    if rank == "A" then 14
    else if rank == "K" then 13
    else if rank == "Q" then 12
    else if rank == "J" then 11
    else if rank == "10" then 10
    else if rank == "9" then 9
    else if rank == "8" then 8
    else if rank == "7" then 7
    else if rank == "6" then 6
    else if rank == "5" then 5
    else if rank == "4" then 4
    else if rank == "3" then 3
    else if rank == "2" then 2
    else 0
  }

  /** Every symbol of the picker's rank list is read back as its own value,
      and the one-letter ten "T" is not a rank at all. */
  lemma RankSymbolsRoundTrip(i: int)
    requires 0 <= i < |RankSymbols|
    ensures GetRankValue(RankSymbols[i]) == 14 - i
    ensures GetRankValue("T") == 0
  {
  }

  /** The rank value of a whole token. */
  function RankOf(card: string): RankValue
  {
    GetRankValue(RankPart(card))
  }

  /** The rank values of a list of tokens. */
  function RankValues(cards: seq<string>): seq<RankValue>
  {
    Map(RankOf, cards)
  }

  /** The suit parts of a list of tokens. */
  function SuitsOf(cards: seq<string>): seq<string>
  {
    Map(SuitPart, cards)
  }
}
