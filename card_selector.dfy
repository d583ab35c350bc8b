/**
 * The selection logic of the card picker (src/components/CardSelector.tsx):
 * the token a (rank, suit symbol) button stands for, the reverse reading of
 * a token, the toggle that adds or removes a token, and the rule that
 * disables a button. The rendering is not modelled.
 */
module CardSelector {
  import opened Wrappers
  import opened Cards

  /** The suit symbols the picker offers: spade, heart, diamond, club. */
  const SuitSymbols: seq<string> := ["\U{2660}", "\U{2665}", "\U{2666}", "\U{2663}"]

  /** The token letters of the suits, in the same order. */
  const SuitLetters: seq<string> := ["s", "h", "d", "c"]

  /** The letter for a suit symbol, if it is one. */
  function SuitLetter(suit: string): (letter: Option<string>)
    ensures letter.Some? <==> suit in SuitSymbols
    ensures forall i :: 0 <= i < |SuitSymbols| && SuitSymbols[i] == suit ==> letter == Some(SuitLetters[i])
  {
    if suit == SuitSymbols[0] then Some("s")
    else if suit == SuitSymbols[1] then Some("h")
    else if suit == SuitSymbols[2] then Some("d")
    else if suit == SuitSymbols[3] then Some("c")
    else None
  }

  /** The suit symbol for a token letter, if it is one. */
  function SuitSymbol(letter: string): (suit: Option<string>)
    ensures suit.Some? <==> letter in SuitLetters
    ensures forall i :: 0 <= i < |SuitLetters| && SuitLetters[i] == letter ==> suit == Some(SuitSymbols[i])
  {
    if letter == "s" then Some(SuitSymbols[0])
    else if letter == "h" then Some(SuitSymbols[1])
    else if letter == "d" then Some(SuitSymbols[2])
    else if letter == "c" then Some(SuitSymbols[3])
    else None
  }

  /** `getCardNotation`: the rank followed by the suit letter. A string that
      is not a suit symbol looks up `undefined`, which the concatenation
      spells out. */
  function GetCardNotation(rank: string, suit: string): (notation: string)
    ensures suit in SuitSymbols ==> |notation| == |rank| + 1 && notation[..|rank|] == rank
  {
    match SuitLetter(suit)
    case Some(letter) => rank + letter
    case None => rank + "undefined"
  }

  /** What `parseCard` returns; `suit` is None where the lookup yields `undefined`. */
  datatype ParsedCard = ParsedCard(rank: string, suit: Option<string>)

  /** `parseCard`: the suit symbol of the last character and the rest as rank. */
  function ParseCard(notation: string): (card: ParsedCard)
    ensures card.rank + SuitPart(notation) == notation
  {
    TokenSplits(notation);
    ParsedCard(RankPart(notation), SuitSymbol(SuitPart(notation)))
  }

  /** Reading back the token of any rank and offered suit gives that rank and
      suit, and the token ends in one of s, h, d, c. */
  lemma NotationRoundTrip(rank: string, j: int)
    requires 0 <= j < |SuitSymbols|
    ensures var notation := GetCardNotation(rank, SuitSymbols[j]);
            && ParseCard(notation) == ParsedCard(rank, Some(SuitSymbols[j]))
            && notation[|notation| - 1..] in SuitLetters
  {
    var suit := SuitSymbols[j];
    var letter := SuitLetters[j];
    assert SuitLetter(suit) == Some(letter);
    var notation := rank + letter;
    assert notation[..|notation| - 1] == rank;
    assert notation[|notation| - 1..] == letter;
    assert SuitSymbol(letter) == Some(suit);
  }

  /** Every button of the picker stands for a token the calculator reads as
      the button's rank and suit letter. */
  lemma PickerTokensReadBack(i: int, j: int)
    requires 0 <= i < |RankSymbols| && 0 <= j < |SuitSymbols|
    ensures RankOf(GetCardNotation(RankSymbols[i], SuitSymbols[j])) == 14 - i
    ensures SuitPart(GetCardNotation(RankSymbols[i], SuitSymbols[j])) == SuitLetters[j]
  {
    NotationRoundTrip(RankSymbols[i], j);
    RankSymbolsRoundTrip(i);
  }

  /** A string that is not a suit symbol is spelled "undefined", whose last
      letter reads back as a diamond. */
  lemma UnknownSuitReadsAsDiamond(rank: string, suit: string)
    requires suit !in SuitSymbols
    ensures ParseCard(GetCardNotation(rank, suit)) == ParsedCard(rank + "undefine", Some(SuitSymbols[2]))
  {
    var notation := rank + "undefined";
    assert notation[..|notation| - 1] == rank + "undefine";
    assert [notation[|notation| - 1]] == "d";
  }

  // ---------------------------------------------------------------------
  // The selection

  predicate NoDuplicates(cards: seq<string>)
  {
    forall i, j :: 0 <= i < j < |cards| ==> cards[i] != cards[j]
  }

  /** `cards.filter(card => card !== token)`. */
  function RemoveAll(cards: seq<string>, token: string): (rest: seq<string>)
    ensures |rest| <= |cards|
    ensures forall c :: c in rest <==> c in cards && c != token
    ensures multiset(rest) == multiset(cards)[token := 0]
  {
    if cards == [] then []
    else
      assert cards == [cards[0]] + cards[1..];
      (if cards[0] == token then [] else [cards[0]]) + RemoveAll(cards[1..], token)
  }

  /** In a list without duplicates, removing a token that sits at position i
      leaves the cards before it and the cards after it, in order. */
  lemma {:induction false} RemoveKeepsOrder(cards: seq<string>, i: int)
    requires NoDuplicates(cards) && 0 <= i < |cards|
    ensures RemoveAll(cards, cards[i]) == cards[..i] + cards[i + 1..]
  {
    var token := cards[i];
    var tail := cards[1..];
    RemoveAllCons(cards, token);
    NoDuplicatesTail(cards);
    if i == 0 {
      RemoveAbsent(tail, token);
      assert tail == cards[i + 1..];
    } else {
      assert tail[i - 1] == token;
      RemoveKeepsOrder(tail, i - 1);
      assert cards[0] != token;
      SpliceCons(cards, i);
    }
  }

  /** Dropping position `i > 0` commutes with taking the head off. */
  lemma SpliceCons(cards: seq<string>, i: int)
    requires 0 < i < |cards|
    ensures cards[..i] + cards[i + 1..] == [cards[0]] + (cards[1..][..i - 1] + cards[1..][i..])
  {
    assert cards[..i] == [cards[0]] + cards[1..][..i - 1];
  }

  /** One step of the filter: the head is kept unless it is the token. */
  lemma RemoveAllCons(cards: seq<string>, token: string)
    requires cards != []
    ensures RemoveAll(cards, token)
              == (if cards[0] == token then [] else [cards[0]]) + RemoveAll(cards[1..], token)
  {
  }

  /** The tail of a duplicate-free list is duplicate-free and misses the head. */
  lemma NoDuplicatesTail(cards: seq<string>)
    requires NoDuplicates(cards) && cards != []
    ensures NoDuplicates(cards[1..]) && cards[0] !in cards[1..]
  {
    var tail := cards[1..];
    forall a, b | 0 <= a < b < |tail| ensures tail[a] != tail[b] {
      assert tail[a] == cards[a + 1] && tail[b] == cards[b + 1];
    }
  }

  /** Removing a token that is not there changes nothing. */
  lemma {:induction false} RemoveAbsent(cards: seq<string>, token: string)
    requires token !in cards
    ensures RemoveAll(cards, token) == cards
  {
    if cards != [] {
      assert cards[0] != token;
      RemoveAbsent(cards[1..], token);
      assert cards == [cards[0]] + cards[1..];
    }
  }

  /** Removing keeps a list free of duplicates. */
  lemma {:induction false} RemoveKeepsNoDuplicates(cards: seq<string>, token: string)
    requires NoDuplicates(cards)
    ensures NoDuplicates(RemoveAll(cards, token))
  {
    if cards != [] {
      var tail := cards[1..];
      NoDuplicatesTail(cards);
      RemoveKeepsNoDuplicates(tail, token);
      var rest := RemoveAll(tail, token);
      assert cards[0] !in tail;
      assert cards[0] !in rest;
      var r := RemoveAll(cards, token);
      if cards[0] != token {
        forall a, b | 0 <= a < b < |r| ensures r[a] != r[b] {
          assert r[b] == rest[b - 1];
          if a > 0 {
            assert r[a] == rest[a - 1];
          }
        }
      }
    }
  }

  /** `toggleCard`: the list handed to `onCardsChange`, or None when the
      callback is not called (the token is new and the selection is full). */
  function ToggleCard(selectedCards: seq<string>, maxCards: int, rank: string, suit: string): (r: Option<seq<string>>)
    ensures var token := GetCardNotation(rank, suit);
            && (r.None? <==> token !in selectedCards && |selectedCards| >= maxCards)
            && (token in selectedCards ==>
                  r.Some? && token !in r.value && forall c :: c != token ==> (c in r.value <==> c in selectedCards))
            && (token !in selectedCards && |selectedCards| < maxCards ==> r == Some(selectedCards + [token]))
  {
    var token := GetCardNotation(rank, suit);
    if token in selectedCards then Some(RemoveAll(selectedCards, token))
    else if |selectedCards| < maxCards then Some(selectedCards + [token])
    else None
  }

  /** The `isDisabled` rule of a picker button. */
  predicate IsDisabled(selectedCards: seq<string>, maxCards: int, rank: string, suit: string)
  {
    var token := GetCardNotation(rank, suit);
    |selectedCards| >= maxCards && token !in selectedCards
  }

  /** A button is disabled exactly when pressing it would not change the
      selection. */
  lemma DisabledIffNoChange(selectedCards: seq<string>, maxCards: int, rank: string, suit: string)
    ensures IsDisabled(selectedCards, maxCards, rank, suit) <==> ToggleCard(selectedCards, maxCards, rank, suit).None?
  {
  }

  /** A selection without duplicates and within its limit stays so. */
  lemma ToggleKeepsSelectionValid(selectedCards: seq<string>, maxCards: int, rank: string, suit: string)
    requires NoDuplicates(selectedCards) && |selectedCards| <= maxCards
    ensures var r := ToggleCard(selectedCards, maxCards, rank, suit);
            r.Some? ==> NoDuplicates(r.value) && |r.value| <= maxCards
  {
    var token := GetCardNotation(rank, suit);
    if token in selectedCards {
      RemoveKeepsNoDuplicates(selectedCards, token);
    } else if |selectedCards| < maxCards {
      var r := selectedCards + [token];
      forall a, b | 0 <= a < b < |r| ensures r[a] != r[b] {
        if b == |selectedCards| {
          assert r[a] in selectedCards;
        } else {
          assert r[a] == selectedCards[a] && r[b] == selectedCards[b];
        }
      }
    }
  }

  /** Pressing a button twice from a valid selection restores the selection:
      a new token is appended and then removed again. */
  lemma ToggleTwiceRestores(selectedCards: seq<string>, maxCards: int, rank: string, suit: string)
    requires GetCardNotation(rank, suit) !in selectedCards && |selectedCards| < maxCards
    ensures var once := ToggleCard(selectedCards, maxCards, rank, suit);
            once.Some? && ToggleCard(once.value, maxCards, rank, suit) == Some(selectedCards)
  {
    var token := GetCardNotation(rank, suit);
    RemoveAbsent(selectedCards, token);
    RemoveAppend(selectedCards, token);
  }

  /** Removing every copy of a token from a list ending in it. */
  lemma {:induction false} RemoveAppend(cards: seq<string>, token: string)
    ensures RemoveAll(cards + [token], token) == RemoveAll(cards, token)
  {
    if cards == [] {
      assert [] + [token] == [token];
      assert [token][1..] == [];
    } else {
      assert (cards + [token])[0] == cards[0];
      assert (cards + [token])[1..] == cards[1..] + [token];
      RemoveAppend(cards[1..], token);
    }
  }
}
