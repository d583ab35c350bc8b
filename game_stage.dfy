/**
 * The stage switch of the game-state panel (src/components/GameStage.tsx):
 * the table of stages with the number of community cards each allows, the
 * state updates for a stage change and for a new board, and the card limit
 * handed to the board's card picker. Each update is a function from the old
 * state to the new one; the rendering is not modelled.
 */
module GameStage {
  import opened Wrappers
  import opened CardSelector

  /** One row of the stage table. */
  datatype StageInfo = StageInfo(name: string, cards: nat, buttonLabel: string)

  /** The stage table, in the order a hand is played. */
  const Stages: seq<StageInfo> := [
    StageInfo("preflop", 0, "Pre"),
    StageInfo("flop", 3, "Flop"),
    StageInfo("turn", 4, "Turn"),
    StageInfo("river", 5, "River")
  ]

  /** The game state the panel edits. The pot size is a number the panel
      never reads. */
  datatype GameState = GameState(
    holeCards: seq<string>,
    communityCards: seq<string>,
    position: string,
    opponents: int,
    potSize: real,
    gameStage: string,
    bettingHistory: seq<string>)

  /** `stages.find(s => s.name === name)` from position `from` on. */
  function FindStageFrom(name: string, from: nat): (found: Option<StageInfo>)
    requires from <= |Stages|
    ensures found.Some? <==> exists i :: from <= i < |Stages| && Stages[i].name == name
    ensures found.Some? ==> found.value in Stages && found.value.name == name
    decreases |Stages| - from
  {
    if from == |Stages| then None
    else if Stages[from].name == name then Some(Stages[from])
    else FindStageFrom(name, from + 1)
  }

  /** `stages.find(s => s.name === name)`. */
  function FindStage(name: string): (found: Option<StageInfo>)
    ensures found.Some? ==> found.value in Stages && found.value.name == name
  {
    FindStageFrom(name, 0)
  }

  /** The four stage names and their card counts 0, 3, 4 and 5; no other
      name is a stage. */
  lemma StageCardCounts(name: string)
    ensures FindStage("preflop") == Some(StageInfo("preflop", 0, "Pre"))
    ensures FindStage("flop") == Some(StageInfo("flop", 3, "Flop"))
    ensures FindStage("turn") == Some(StageInfo("turn", 4, "Turn"))
    ensures FindStage("river") == Some(StageInfo("river", 5, "River"))
    ensures name != "preflop" && name != "flop" && name != "turn" && name != "river" ==> FindStage(name).None?
  {
  }

  /** `setGameStage`: the state handed to `onGameStateChange`, or None when
      the name is not a stage and nothing is handed on. */
  function SetGameStage(state: GameState, stage: string): (r: Option<GameState>)
    ensures r.None? <==> FindStage(stage).None?
    ensures r.Some? ==>
      var cards := FindStage(stage).value.cards;
      && r.value.gameStage == stage
      && |r.value.communityCards| == (if |state.communityCards| < cards then |state.communityCards| else cards)
      && r.value.communityCards == state.communityCards[..|r.value.communityCards|]
      && r.value == state.(gameStage := stage, communityCards := r.value.communityCards)
  {
    match FindStage(stage)
    case None => None
    case Some(stageInfo) =>
      var keep := if |state.communityCards| < stageInfo.cards then |state.communityCards| else stageInfo.cards;
      Some(state.(gameStage := stage, communityCards := state.communityCards[..keep]))
  }

  /** `onCommunityCardsChange`: only the board is replaced. */
  function OnCommunityCardsChange(state: GameState, cards: seq<string>): (r: GameState)
    ensures r.communityCards == cards
    ensures r.(communityCards := state.communityCards) == state
  {
    state.(communityCards := cards)
  }

  /** `getMaxCardsForStage`: the current stage's card count, 0 when the
      stage is not in the table. */
  function GetMaxCardsForStage(state: GameState): (n: nat)
    ensures FindStage(state.gameStage).Some? ==> n == FindStage(state.gameStage).value.cards
    ensures FindStage(state.gameStage).None? ==> n == 0
    ensures n <= 5
  {
    match FindStage(state.gameStage)
    case None => 0
    case Some(stageInfo) => stageInfo.cards
  }

  /** After a stage change the board fits the new stage's card picker. */
  lemma StageChangeFitsPicker(state: GameState, stage: string)
    requires SetGameStage(state, stage).Some?
    ensures var next := SetGameStage(state, stage).value;
            |next.communityCards| <= GetMaxCardsForStage(next)
  {
  }

  /** Choosing the same stage twice is the same as choosing it once. */
  lemma SetGameStageIdempotent(state: GameState, stage: string)
    requires SetGameStage(state, stage).Some?
    ensures SetGameStage(SetGameStage(state, stage).value, stage) == SetGameStage(state, stage)
  {
    var next := SetGameStage(state, stage).value;
    var cards := FindStage(stage).value.cards;
    assert next.communityCards[..|next.communityCards|] == next.communityCards;
  }

  /** Moving to a stage that allows at least as many cards as are on the
      board keeps the board. */
  lemma LargerStageKeepsBoard(state: GameState, stage: string)
    requires FindStage(stage).Some? && |state.communityCards| <= FindStage(stage).value.cards
    ensures SetGameStage(state, stage).value.communityCards == state.communityCards
  {
  }

  /** A stage change keeps a duplicate-free board duplicate-free, so the
      board picker's toggle keeps working on a valid selection. */
  lemma StageChangeKeepsBoardValid(state: GameState, stage: string)
    requires NoDuplicates(state.communityCards)
    requires SetGameStage(state, stage).Some?
    ensures var next := SetGameStage(state, stage).value;
            NoDuplicates(next.communityCards) && |next.communityCards| <= GetMaxCardsForStage(next)
  {
    var next := SetGameStage(state, stage).value;
    var board := next.communityCards;
    forall i, j | 0 <= i < j < |board| ensures board[i] != board[j] {
      assert board[i] == state.communityCards[i] && board[j] == state.communityCards[j];
    }
  }

  /** A board picked through the panel's picker, toggle by toggle from a
      stage change, never exceeds the stage's card count nor repeats a card. */
  lemma BoardToggleStaysValid(state: GameState, rank: string, suit: string)
    requires NoDuplicates(state.communityCards)
    requires |state.communityCards| <= GetMaxCardsForStage(state)
    ensures var r := ToggleCard(state.communityCards, GetMaxCardsForStage(state), rank, suit);
            r.Some? ==>
              var next := OnCommunityCardsChange(state, r.value);
              NoDuplicates(next.communityCards) && |next.communityCards| <= GetMaxCardsForStage(next)
  {
    ToggleKeepsSelectionValid(state.communityCards, GetMaxCardsForStage(state), rank, suit);
  }
}
