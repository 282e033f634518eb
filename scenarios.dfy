/** Client sessions that follow the engine's contracts through whole turns. */
module Scenarios {
  import opened Cards
  import opened Boards
  import opened MemoryGames

  /** A fresh game on two pairs kept in their dealt order. */
  method NewTwoPairGame() returns (game: MemoryGame, a1: Card, a2: Card, b1: Card, b2: Card)
    ensures game.Valid() && game.FreshSession() && game.flipDuration == 1000
    ensures game.board.cards == [a1, a2, b1, b2]
    ensures a1.name == a2.name && b1.name == b2.name && a1.name != b1.name
    ensures fresh(game) && fresh(a1) && fresh(a2) && fresh(b1) && fresh(b2)
    ensures a1 != a2 && a1 != b1 && a1 != b2 && a2 != b1 && a2 != b2 && b1 != b2
  {
    a1 := new Card("Go");
    a2 := new Card("Go");
    b1 := new Card("Ruby");
    b2 := new Card("Ruby");
    var board := new Board([a1, a2, b1, b2]);
    var identity := [0, 1, 2, 3];
    assert multiset(identity)[0] == 1 && multiset(identity)[1] == 1;
    assert multiset(identity)[2] == 1 && multiset(identity)[3] == 1;
    game := new MemoryGame(board, identity, 1000);
    assert board.cards == [a1, a2, b1, b2];
  }

  /** A non-matching turn counts one move and turns both cards face down
      again; a matching turn leaves its pair face up and matched. */
  method MismatchThenMatch() returns (game: MemoryGame, a1: Card, a2: Card, b1: Card, b2: Card)
    ensures game.Valid() && game.moves == 2 && game.matchedCards == [a1, a2]
    ensures game.flippedCards == [] && game.timerRunning && game.timeElapsed == 0
    ensures game.board.cards == [a1, a2, b1, b2] && !b1.isFlipped && !b2.isFlipped
    ensures b1.name == b2.name && b1 != b2
    ensures fresh(game) && fresh(a1) && fresh(a2) && fresh(b1) && fresh(b2)
  {
    game, a1, a2, b1, b2 := NewTwoPairGame();
    var scheduled := game.HandleCardClick(a1);
    assert !scheduled && game.moves == 0 && game.timerRunning;
    scheduled := game.HandleCardClick(b1);
    assert scheduled && game.moves == 1;
    var score := game.CheckForMatch();
    assert score.None? && !a1.isFlipped && !b1.isFlipped && game.matchedCards == [];

    scheduled := game.HandleCardClick(a1);
    scheduled := game.HandleCardClick(a2);
    assert scheduled && game.moves == 2;
    score := game.CheckForMatch();
  }

  /** After two pairs and one mismatch, the last pair completes the board at
      time zero with three moves; a click on a matched card in between is
      ignored. */
  method PlayTwoPairs() returns (score: Option<int>)
    ensures score == Some(Score(0, 3)) && score == Some(9700)
  {
    var game, a1, a2, b1, b2 := MismatchThenMatch();
    var scheduled := game.HandleCardClick(a1);
    assert !scheduled && game.moves == 2 && game.flippedCards == [];

    scheduled := game.HandleCardClick(b2);
    scheduled := game.HandleCardClick(b1);
    assert game.moves == 3;
    score := game.CheckForMatch();
  }

  /** A second reset in a row leaves the same fresh session and the same cards
      as the first, whatever the game's progress was. */
  method ResetTwice(game: MemoryGame, first: seq<int>, second: seq<int>)
    requires game.Valid()
    requires IsPermutation(first, |game.board.cards|) && IsPermutation(second, |game.board.cards|)
    modifies game, game.board, game.board.cards
    ensures game.Valid() && game.FreshSession()
    ensures game.board.cards == Permute(Permute(old(game.board.cards), first), second)
    ensures multiset(game.board.cards) == multiset(old(game.board.cards))
    ensures game.board.gridColumns == IntSqrt(|game.board.cards|)
  {
    game.ResetGame(first);
    game.ResetGame(second);
  }
}
