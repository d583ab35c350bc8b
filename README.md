# Card Game Advisor Pro: hand categoriser, insight engine and selection updates in Dafny

This project models the deterministic core of a Texas Hold'em advisor. It
covers four parts:

- **The calculator** (`src/utils/pokerCalculator.ts`).
  - Card tokens such as `"10h"` are split into a rank part and a one-character suit part.
  - The rank table maps `"A"`..`"2"` to 14..2. Every other string maps to 0 (strings that name inherited object properties are set aside; see "Left out").
  - `evaluateHandStrength` counts ranks and suits and runs a fixed chain of nine categories, 0 (High Card) to 8 (Straight Flush).
  - `checkStraight` and `checkStraightDraws` are loop methods. Each is proved equal to a predicate about which rank values are present.
  - `evaluateDraws` and `analyzeBoardTexture` are modelled.
  - So are the integer tables behind the win-probability estimate: `getHandEquity`, the preflop base-equity table, and the per-draw outs. The `holeCards.length !== 2` guard is modelled as well.
- **The insight engine** (`src/utils/pokerInsights.ts`).
  - Each helper is a method that pushes advice records onto a local list. Each is proved equal to a rule-table function.
  - The properties the advice promises are lemmas about those functions: bands, exclusivity, coverage and bounds.
  - `generatePokerInsights` concatenates the helpers' records, sorts them by priority (a stable sort, highest first) and keeps at most four.
- **The card picker** (`src/components/CardSelector.tsx`).
  - The token encoder `getCardNotation` and the decoder `parseCard`.
  - The bounded, duplicate-free toggle `toggleCard`, as a function from the old selection to the new one, with `None` when no callback fires.
  - The disabled-button rule.
- **The stage selector** (`src/components/GameStage.tsx`).
  - The stage table, `setGameStage`, `onCommunityCardsChange` and `getMaxCardsForStage`.
  - Each is a function from the old game state to the new one.

Where the code departs from standard hold'em hand ranking, or from what its own test file expects, the model follows the code:

- No hand is ever a Royal Flush. There is no tenth category.
- `"T"` is not a rank: it reads as 0. Only `"10"` is a ten.
- Two triplets with no pair are Three of a Kind (3), not Full House. The chain asks for a count of exactly 2 (`TwoTripletsAreThreeOfAKind`).
- Straight Flush is any suit held five times together with any straight among all the ranks. The straight need not be in that suit (`StraightFlushIff`).
- The evaluator returns only a category name and number. It has no kickers, no primary or secondary rank, no comparator and no simulation.
- The "connector" rows of the preflop table (gap 0 between two different rank strings) are reached only by two strings the rank table does not know (`ConnectorRowsNeedUnknownRanks`).
- A token built from a suit symbol the suit map does not hold (and that is not an inherited object property name) ends in `"undefined"`. It is read back as a diamond with rank `rank + "undefine"` (`UnknownSuitReadsAsDiamond`).

Files: `wrappers.dfy` (Option), `sequences.dfy` (list and count facts), `cards.dfy`, `straights.dfy`, `hand_evaluator.dfy`, `equity.dfy`, `insights.dfy`, `card_selector.dfy` and `game_stage.dfy`.

## Model

| member | source | states |
|---|---|---|
| Cards.TokenSplits | src/utils/pokerCalculator.ts:195-196 | The rank part followed by the suit part is the whole token. The suit part is exactly one character for a non-empty token. |
| Cards.GetRankValue | src/utils/pokerCalculator.ts:330-336 | The value is 0 or lies in 2..14. It is non-zero exactly when the string is one of the thirteen rank symbols. A non-zero value v names symbol number 14-v, so the table is inverted by the symbol list. |
| Cards.RankSymbolsRoundTrip | src/utils/pokerInsights.ts:389-395 | The insight engine's copy of the rank table reads the i-th symbol (ace first) as 14-i, and reads "T" as 0. |
| Straights.DistinctAscending | src/utils/pokerCalculator.ts:276 | `[...new Set(ranks)].sort(a - b)`: strictly increasing, with exactly the values of the input. |
| Straights.DistinctDescending | src/utils/pokerCalculator.ts:210 | The same values, strictly decreasing. |
| Straights.CheckStraight | src/utils/pokerCalculator.ts:252-273 | On a strictly decreasing list, the nested scan with early return and break answers true exactly when five consecutive values are present, or all of 14, 5, 4, 3 and 2 (the wheel). |
| Straights.FourInARowIffSpanThree | src/utils/pokerCalculator.ts:281-287 | In a strictly increasing list, four consecutive values are present exactly when some window of four positions spans exactly 3. |
| Straights.GutshotIffValues | src/utils/pokerCalculator.ts:291-301 | The triple loop's position test (outer gap 4, neither inner gap 2) holds for some triple exactly when the value-level gutshot predicate holds. |
| Straights.ScanOpenEnded | src/utils/pokerCalculator.ts:281-287 | The open-ended loop with its break finds a window exactly when four consecutive values are present. |
| Straights.ScanGutshot | src/utils/pokerCalculator.ts:289-302 | The triple loop, whose break leaves only the innermost loop, sets `gutshot` exactly when the value-level gutshot predicate holds. |
| Straights.CheckStraightDraws | src/utils/pokerCalculator.ts:275-305 | The open-ended flag is true exactly when the ranks hold four consecutive values. The gutshot flag is true exactly when there is no open-ended draw and the ranks hold a gutshot, so the two flags are never both true. |
| Straights.SameValuesFourInARow | src/utils/pokerCalculator.ts:276 | Deduplicating and sorting the ranks does not change the open-ended verdict. |
| Straights.SameValuesGutshot | src/utils/pokerCalculator.ts:276 | Deduplicating and sorting the ranks does not change the gutshot verdict. |
| HandEvaluator.Classify | src/utils/pokerCalculator.ts:208-226 | The category number lies in 0..8 and the name is that number's category name. A flush forces at least 5, a straight at least 4, a rank held exactly three times at least 3, and any paired rank at least 1. |
| HandEvaluator.EvaluateHandStrength | src/utils/pokerCalculator.ts:194-227 | Every hand gets a category in 0..8 whose name matches its number. No ninth ('Royal Flush') category is produced. |
| HandEvaluator.EvaluateIgnoresOrder | src/utils/pokerCalculator.ts:194-213 | Two lists holding the same cards, in any order, get the same category. |
| HandEvaluator.StraightFlushIff | src/utils/pokerCalculator.ts:215 | The category is 8 exactly when some suit is held five or more times and the distinct ranks hold a straight, whether or not the straight is in that suit. |
| HandEvaluator.FourOfAKindIff | src/utils/pokerCalculator.ts:215-216 | The category is Four of a Kind exactly when some rank is held exactly four times and the hand is not a Straight Flush. |
| HandEvaluator.FullHouseIff | src/utils/pokerCalculator.ts:215-219 | The category is Full House exactly when some rank is held exactly three times and some rank exactly twice, with no Straight Flush and no rank held four times. |
| HandEvaluator.FlushIff | src/utils/pokerCalculator.ts:215-220 | The category is Flush exactly when some suit is held five or more times, with no straight, no rank held four times, and not both a count of 3 and a count of 2. |
| HandEvaluator.StraightIff | src/utils/pokerCalculator.ts:215-221 | The category is Straight exactly when the distinct ranks hold a straight, with no flush, no rank held four times, and not both a count of 3 and a count of 2. |
| HandEvaluator.ThreeOfAKindIff | src/utils/pokerCalculator.ts:215-222 | The category is Three of a Kind exactly when some rank is held exactly three times, no rank exactly twice or four times, and there is no flush or straight. |
| HandEvaluator.FullHouseNeedsTripsAndPair | src/utils/pokerCalculator.ts:217-219 | A Full House has one rank held exactly three times and a different rank held exactly twice. |
| HandEvaluator.TwoTripletsAreThreeOfAKind | src/utils/pokerCalculator.ts:216-222 | Two ranks held three times each, with no count of 2 or 4 and no flush or straight, give Three of a Kind (3). |
| HandEvaluator.TwoPairedRanks | src/utils/pokerCalculator.ts:208 | The `pairs` list has two or more entries exactly when two different ranks are each held at least twice. |
| HandEvaluator.TwoPairIff | src/utils/pokerCalculator.ts:223 | The category is Two Pair exactly when all of these hold: no flush, no straight, no rank held exactly 3 or 4 times, and two different ranks each held at least twice. |
| HandEvaluator.OnePairedRank | src/utils/pokerCalculator.ts:208 | The `pairs` list has one entry exactly when a single rank is held at least twice. |
| HandEvaluator.OnePairIff | src/utils/pokerCalculator.ts:224 | The category is One Pair exactly when all of these hold: no flush, no straight, no rank held exactly 3 or 4 times, and exactly one rank held at least twice. |
| HandEvaluator.HighCardIff | src/utils/pokerCalculator.ts:226 | The category is High Card exactly when there is no flush, no straight and no rank held twice. |
| HandEvaluator.MaxOf | src/utils/pokerCalculator.ts:243-244 | `Math.max` of a non-empty list is one of its elements and at least every element. |
| HandEvaluator.EvaluateDraws | src/utils/pokerCalculator.ts:229-250 | The flush draw holds exactly when some suit of all the cards is held exactly four times. The two straight draws are never both set. The overcard count is at most the number of hole cards. |
| HandEvaluator.AboveHighIsOvercard | src/utils/pokerCalculator.ts:243-246 | A hole card's rank exceeds the board's high card (0 for an empty board) exactly when it has a known rank (value above 0) and beats every board card. On an empty board only the first condition bites: a card of unknown rank, such as `Ts`, is not an overcard. |
| HandEvaluator.CountAboveIsOvercards | src/utils/pokerCalculator.ts:245-247 | The filter count over the hole ranks equals the number of hole cards that have a known rank (value above 0) and beat every board card. |
| HandEvaluator.OverCardsCountsOvercards | src/utils/pokerCalculator.ts:242-247 | `overCards` is the number of hole cards that have a known rank (value above 0) and beat every board card. |
| HandEvaluator.CountAboveAppend | src/utils/pokerCalculator.ts:245-247 | Filter-and-count over a concatenation is the sum of the two counts. |
| HandEvaluator.CountAboveRespectsMultiset | src/utils/pokerCalculator.ts:245-247 | The filter count depends only on which values occur how often, not on their order. |
| HandEvaluator.DrawsIgnoreHoleOrder | src/utils/pokerCalculator.ts:229-250 | Reordering the hole cards changes none of the four draw fields. |
| HandEvaluator.AnalyzeBoardTexture | src/utils/pokerCalculator.ts:307-328 | Fewer than three board cards give all three flags false. The board is flushy exactly when it has at least three cards and some suit is held three or more times. |
| HandEvaluator.PairedBoardIff | src/utils/pokerCalculator.ts:323 | The board is paired exactly when it has at least three cards and two different positions hold the same rank value. |
| HandEvaluator.StraightHoldsFour | src/utils/pokerCalculator.ts:325 | Every made straight, the wheel included, holds four consecutive values. |
| HandEvaluator.StraightBoardIff | src/utils/pokerCalculator.ts:325 | The board's straight flag is exactly "at least three cards and four consecutive rank values". The `checkStraight` disjunct adds nothing. |
| Equity.GetHandEquity | src/utils/pokerCalculator.ts:178-192 | The base equity lies in 15..98. Any number outside 0..8 gets the fallback 15. |
| Equity.HandEquityIncreases | src/utils/pokerCalculator.ts:179-189 | A higher category always has a strictly larger base equity, whatever the board size. |
| Equity.EvaluatedHandEquity | src/utils/pokerCalculator.ts:141-145 | An evaluated hand's base equity is its category's table entry. The fallback is never used. |
| Equity.PairEquity | src/utils/pokerCalculator.ts:55-69 | Every pocket-pair row lies in 51..85. |
| Equity.NonPairEquity | src/utils/pokerCalculator.ts:70-125 | Every unpaired row lies in 25..67. |
| Equity.PreflopBaseEquity | src/utils/pokerCalculator.ts:45-126 | The preflop base equity lies in 25..85, and is at least 51 for a pair. |
| Equity.PocketPairsIncrease | src/utils/pokerCalculator.ts:55-69 | Pocket pairs are strictly increasing in rank, from 51 for deuces to 85 for aces. |
| Equity.SuitedBeatsOffsuit | src/utils/pokerCalculator.ts:70-125 | In every unpaired row the suited entry is strictly greater than the offsuit one. |
| Equity.PreflopSymmetric | src/utils/pokerCalculator.ts:45-51 | Swapping the two hole cards does not change the preflop base equity. |
| Equity.ConnectorRowsNeedUnknownRanks | src/utils/pokerCalculator.ts:47-51 | Two different rank strings with equal values (gap 0, not a pair) are both unknown to the rank table. |
| Equity.DrawBonus | src/utils/pokerCalculator.ts:148-160 | With at most one straight draw and 0..5 cards to come, the draw term lies in 0..170. The term is zero with no cards to come or no draw, and positive with a draw and a card to come. |
| Equity.PostflopBaseEquity | src/utils/pokerCalculator.ts:140-160 | For at most five board cards, the integer part lies in 15..268. On a full board it is exactly the category's table entry. |
| Equity.WinProbabilityBase | src/utils/pokerCalculator.ts:14-28 | There is no estimate (the answer is 0) exactly when there are not two hole cards. The preflop table is used exactly for two hole cards in the preflop stage, and its base lies in 25..85. |
| Equity.PostflopIgnoresHoleOrder | src/utils/pokerCalculator.ts:140-160 | Reordering the hole cards does not change the postflop integer part. |
| Equity.WinProbabilityIgnoresHoleOrder | src/utils/pokerCalculator.ts:14-28 | Swapping the two hole cards changes no estimate, in either stage branch. |
| Insights.HandStrengthRules | src/utils/pokerInsights.ts:46-142 | At most three records, every priority in 4..10. |
| Insights.GetHandStrengthInsights | src/utils/pokerInsights.ts:46-142 | The push sequence yields exactly the hand-strength rule list. |
| Insights.HandStrengthNeedsTwoCards | src/utils/pokerInsights.ts:54 | Without exactly two hole cards there is no hand-strength advice. |
| Insights.PocketPairAdvice | src/utils/pokerInsights.ts:63-90 | With two hole cards, a pair record appears exactly when the two ranks are equal. It is then the first record, it is the only one, and it is the advice PairAdvice gives for that rank. |
| Insights.PairPriorityByRank | src/utils/pokerInsights.ts:63-90 | The pair record's priority is 9 from jacks up, 7 for eights to tens, and 5 below. |
| Insights.ProbabilityBands | src/utils/pokerInsights.ts:115-139 | There is no probability record exactly when 30 < p < 60. Otherwise the priority is 10 for p ≥ 75, 7 for 60..74, and 8 for p ≤ 30. |
| Insights.GetPositionInsights | src/utils/pokerInsights.ts:144-196 | The push sequence yields exactly the position rule list. |
| Insights.PositionCoverage | src/utils/pokerInsights.ts:147-193 | BTN, CO, SB, BB and UTG each get exactly one record. MP and every other string get none. |
| Insights.GetOpponentInsights | src/utils/pokerInsights.ts:198-228 | The push sequence yields exactly the opponent rule list. |
| Insights.OpponentPriorities | src/utils/pokerInsights.ts:201-225 | There is no record exactly for 4 or 5 opponents. Otherwise the priority is 8 for six or more, 6 heads-up, and 5 for any other count, zero and negatives included. |
| Insights.GetGameStageInsights | src/utils/pokerInsights.ts:230-278 | The push sequence yields exactly the stage rule list. |
| Insights.StagePriorities | src/utils/pokerInsights.ts:238-274 | Each of preflop, flop, turn and river gets exactly one record, with priority 4, 5, 6 and 7 in that order. Any other stage name gets none. |
| Insights.LargestSmallGap | src/utils/pokerInsights.ts:322-326 | `maxGap` only ever holds a value in 0..4. |
| Insights.MaxSmallGap | src/utils/pokerInsights.ts:322-326 | The loop leaves `maxGap` at the largest gap of at most 4 between neighbours, as the specification function defines it. |
| Insights.BoardTextureRules | src/utils/pokerInsights.ts:280-339 | Fewer than three board cards give no record. Otherwise there are at most three, every priority in 4..10. |
| Insights.GetBoardTextureInsights | src/utils/pokerInsights.ts:280-339 | The early return, the pushes and the gap loop yield exactly the board-texture rule list. |
| Insights.DistinctCount | src/utils/pokerInsights.ts:321 | A deduplicated, sorted rank list is as long as the set of distinct ranks. |
| Insights.DistinctRankCount | src/utils/pokerInsights.ts:321 | The deduplicated board ranks are as many as the board's distinct rank values. |
| Insights.CoordinatedOnlyFromItsRule | src/utils/pokerInsights.ts:294-336 | On a board of three or more cards, the paired and flush checks never add the coordinated record, so it appears exactly when there are at least three distinct ranks. |
| Insights.CoordinatedIffThreeRanks | src/utils/pokerInsights.ts:321-336 | The coordinated-board record appears exactly when the board has at least three cards and at least three distinct rank values. |
| Insights.GetBettingStrategyInsights | src/utils/pokerInsights.ts:341-387 | The push sequence yields exactly the betting rule list. |
| Insights.BettingExclusive | src/utils/pokerInsights.ts:349-384 | At most one record. The bluff record appears exactly when p ≤ 35 on the button against at most two opponents. When the value-bet, position-play or weak-multiway condition holds, its record is the whole list. |
| Insights.Insert | src/utils/pokerInsights.ts:41-42 | Inserting adds exactly one record to the list's contents. |
| Insights.InsertNonIncreasing | src/utils/pokerInsights.ts:41-42 | Inserting into a list sorted by priority, highest first, keeps it sorted. |
| Insights.SortByPriority | src/utils/pokerInsights.ts:41-42 | The result is ordered by non-increasing priority and is a permutation of the input. |
| Insights.InsertKeepsTies | src/utils/pokerInsights.ts:41-42 | Insertion places a record before (ahead of) every record of equal priority. The sort inserts the input from the back, so this keeps equal-priority records in input order. |
| Insights.SortIsStable | src/utils/pokerInsights.ts:41-42 | Records of equal priority keep their original relative order (JavaScript's sort is stable). |
| Insights.TopInsights | src/utils/pokerInsights.ts:43 | `slice(0, 4)` keeps min(4, n) records. |
| Insights.TopSplits | src/utils/pokerInsights.ts:43 | The kept records are a prefix of the sorted list. |
| Insights.TopAreBest | src/utils/pokerInsights.ts:41-43 | At most four records are kept, in non-increasing priority. They are drawn from the collected records, and each kept record's priority is at least that of every dropped record. |
| Insights.AllInsights | src/utils/pokerInsights.ts:18-38 | The collected list has at most 11 records, every priority in 4..10. |
| Insights.GeneratePokerInsights | src/utils/pokerInsights.ts:10-44 | The result is the top four of the stably sorted concatenation of all helpers' records. It has at most four records, in non-increasing priority, each in 4..10. |
| CardSelector.SuitLetter | src/components/CardSelector.tsx:23-25 | A suit symbol is mapped exactly when it is one of the four, and to the letter at the same position. |
| CardSelector.SuitSymbol | src/components/CardSelector.tsx:40-42 | A letter is mapped exactly when it is one of s/h/d/c, and to the symbol at the same position. |
| CardSelector.GetCardNotation | src/components/CardSelector.tsx:22-27 | For a known suit, the token is the rank followed by one character. |
| CardSelector.ParseCard | src/components/CardSelector.tsx:39-46 | The parsed rank followed by the last character is the token itself. |
| CardSelector.NotationRoundTrip | src/components/CardSelector.tsx:22-46 | Decoding an encoded card gives back its rank and suit symbol, and the token's last character is one of s/h/d/c. |
| CardSelector.PickerTokensReadBack | src/components/CardSelector.tsx:13-14 | Every token the picker offers is read by the calculator as rank value 14-i, with the suit letter at the same position. |
| CardSelector.UnknownSuitReadsAsDiamond | src/components/CardSelector.tsx:26 | A token built from an unknown suit symbol decodes as a diamond, with the rank extended by "undefine". |
| CardSelector.RemoveAll | src/components/CardSelector.tsx:33 | The filter keeps exactly the cards other than the token, each as many times as before, and never lengthens the list. |
| CardSelector.RemoveKeepsOrder | src/components/CardSelector.tsx:33 | In a duplicate-free selection, removing a card gives the rest in their original order. |
| CardSelector.RemoveAbsent | src/components/CardSelector.tsx:33 | Filtering out an absent token changes nothing. |
| CardSelector.RemoveKeepsNoDuplicates | src/components/CardSelector.tsx:33 | Filtering keeps a selection duplicate-free. |
| CardSelector.ToggleCard | src/components/CardSelector.tsx:29-37 | Nothing fires exactly when the card is new and the selection is full. A selected card is removed with every copy, and all other cards are kept. A new card with room is appended at the end. |
| CardSelector.DisabledIffNoChange | src/components/CardSelector.tsx:100 | A button is disabled exactly when pressing it would change nothing: the selection is full and that card is not selected. |
| CardSelector.ToggleKeepsSelectionValid | src/components/CardSelector.tsx:29-37 | A duplicate-free selection within `maxCards` stays duplicate-free and within `maxCards`. |
| CardSelector.ToggleTwiceRestores | src/components/CardSelector.tsx:32-35 | Adding a new card and toggling it again restores the selection. |
| CardSelector.RemoveAppend | src/components/CardSelector.tsx:33-35 | Filtering a token out after appending it equals filtering it out before. |
| GameStage.FindStageFrom | src/components/GameStage.tsx:30 | `find` succeeds exactly when some remaining stage has the name, and returns a stage of that name. |
| GameStage.FindStage | src/components/GameStage.tsx:30 | Any stage found is a table entry with the requested name. |
| GameStage.StageCardCounts | src/components/GameStage.tsx:22-27 | preflop/flop/turn/river hold 0/3/4/5 cards with labels Pre/Flop/Turn/River. Every other name is not found. |
| GameStage.SetGameStage | src/components/GameStage.tsx:29-40 | An unknown stage causes no update. Otherwise the stage is set, and the board becomes its prefix of length min(old length, stage card count). Every other field is unchanged. |
| GameStage.OnCommunityCardsChange | src/components/GameStage.tsx:42-47 | Only the board is replaced. |
| GameStage.GetMaxCardsForStage | src/components/GameStage.tsx:49-52 | The answer is the current stage's card count, 0 if the stage is not found, and never more than 5. |
| GameStage.StageChangeFitsPicker | src/components/GameStage.tsx:29-52 | After a stage change the board never holds more cards than the new stage allows. |
| GameStage.SetGameStageIdempotent | src/components/GameStage.tsx:29-40 | Selecting the same stage twice is the same as selecting it once. |
| GameStage.LargerStageKeepsBoard | src/components/GameStage.tsx:33 | Moving to a stage with room for every board card leaves the board unchanged. |
| GameStage.StageChangeKeepsBoardValid | src/components/GameStage.tsx:29-40 | A duplicate-free board stays duplicate-free and within the new stage's count. |
| GameStage.BoardToggleStaysValid | src/components/GameStage.tsx:42-52 | Toggling a board card in the picker, bounded by the stage's count, keeps the board duplicate-free and within that count. |

## Left out

- Floating-point arithmetic of the win-probability estimate is not modelled. This covers `Math.pow(0.85, opponents - 1)`, the position multipliers, the ×0.85/×0.9/×0.88 board-texture factors, the overcard term `overCards * 3 * cardsLeft * 0.5`, the opponent penalty, the clamps and `Math.round`. The model stops at the integer tables that feed them and at the two-hole-card guard.
- Equity.PostflopBaseEquity: only the integer part of `calculatePostflopEquity` (table entry plus draw outs). Its bounds are stated for boards of at most five cards. With more, `cardsLeft` goes negative and the term is kept as the code computes it.
- Equity.WinProbabilityBase: states which estimate is used and its integer base, not the final clamped percentage.
- `getPositionMultiplier` and the multiplier table are not modelled (floating point).
- The win probability handed to the insight engine is an integer parameter (`probability: int`). The opponent count is an `int`. The pot size is a `real` that no modelled operation reads.
- Parameters that the source passes but never reads are kept in the method signatures and are unused: the board and stage of `getHandStrengthInsights`, for example.
- Rendering, React state hooks, toasts and timers are not modelled. `onCardsChange` and `onGameStateChange` become the returned new value (`None` when no callback fires).
- The rest of the UI (the page, table display, statistics, betting history and probability display components) is not part of this model.
- The in-place `Array.prototype.sort` is modelled as a stable insertion sort on values. Because the sort is stable, the result is the same list; the in-place mutation itself is not modelled.
- The concrete seven-card hands of `src/utils/pokerCalculator.test.ts` are not restated as lemmas. Their categories follow from the general characterisation lemmas (StraightFlushIff, FourOfAKindIff, FullHouseIff, FlushIff, StraightIff, ThreeOfAKindIff, TwoPairIff, OnePairIff, HighCardIff).
- The test file's kicker, primary-rank and comparator assertions describe an interface the code does not have. Tests built on `"T"` or Royal Flush disagree with the code; the model follows the code.
- Cards.GetRankValue: a JavaScript object-literal lookup also answers for inherited property names (`getRankValue("toString")` yields a function, not 0). The model treats every key outside the table as absent and answers 0.
- CardSelector.SuitLetter: treats every key outside the suit map as absent, although the JavaScript lookup answers for inherited names such as `"constructor"`.
- CardSelector.SuitSymbol: treats every key outside the letter map as absent, for the same reason.
