/** The turn engine of the memory game: which cards are face up, which pairs
    are found, how many moves were made, the timer and the final score. */
module MemoryGames {
  import opened Cards
  import opened Boards

  datatype Option<T> = None | Some(value: T)

  const MinFlipDuration := 350
  const MaxFlipDuration := 3000
  const DefaultFlipDuration := 500

  /** The reveal delay actually used: the requested one brought into
      [MinFlipDuration, MaxFlipDuration]. */
  function ClampFlipDuration(requested: int): (d: int)
    ensures MinFlipDuration <= d <= MaxFlipDuration
    ensures MinFlipDuration <= requested <= MaxFlipDuration ==> d == requested
    ensures requested < MinFlipDuration ==> d == MinFlipDuration
    ensures requested > MaxFlipDuration ==> d == MaxFlipDuration
  {
    var capped := if requested < MaxFlipDuration then requested else MaxFlipDuration;
    if MinFlipDuration > capped then MinFlipDuration else capped
  }

  /** The score reported on completion: 10000 minus 10 per second and 100 per
      move, never below zero. */
  function Score(timeElapsed: nat, moves: nat): (s: int)
    ensures 0 <= s <= 10000
    ensures s == 0 <==> timeElapsed * 10 + moves * 100 >= 10000
    ensures s > 0 ==> s + timeElapsed * 10 + moves * 100 == 10000
  {
    var raw := 10000 - (timeElapsed * 10 + moves * 100);
    if 0 > raw then 0 else raw
  }

  /** A slower game or one with more moves never scores higher. */
  lemma ScoreAntitone(t1: nat, m1: nat, t2: nat, m2: nat)
    requires t1 <= t2 && m1 <= m2
    ensures Score(t2, m2) <= Score(t1, m1)
  {
  }

  lemma ScoreExamples()
    ensures Score(30, 6) == 9100
    ensures Score(1000, 50) == 0
  {
  }

  /** The timer display splits the elapsed seconds into minutes and the
      seconds of the current minute. */
  function TimerParts(timeElapsed: nat): (r: (nat, nat))
    ensures r.1 < 60 && r.0 * 60 + r.1 == timeElapsed
  {
    (timeElapsed / 60, timeElapsed % 60)
  }

  /** The split is the only one with those two properties. */
  lemma TimerPartsUnique(timeElapsed: nat, minutes: nat, seconds: nat)
    requires seconds < 60 && minutes * 60 + seconds == timeElapsed
    ensures TimerParts(timeElapsed) == (minutes, seconds)
  {
  }

  /** `s` holds no card twice. */
  predicate Distinct<T(==)>(s: seq<T>) {
    forall i, j :: 0 <= i < j < |s| ==> s[i] != s[j]
  }

  lemma {:induction false} DistinctSetSize<T>(s: seq<T>)
    requires Distinct(s)
    ensures |set x | x in s| == |s|
  {
    if s != [] {
      var last := s[|s| - 1];
      var init := s[..|s| - 1];
      DistinctSetSize(init);
      assert (set x | x in s) == (set x | x in init) + {last};
      assert last !in init;
    }
  }

  lemma SubsetSize<T>(a: set<T>, b: set<T>)
    requires a <= b
    ensures |a| <= |b|
    ensures a != b ==> |a| < |b|
  {
    assert b == a + (b - a);
    assert a * (b - a) == {};
    if a != b {
      var x :| x in b - a;
    }
  }

  lemma {:induction false} SetSizeAtMost<T>(s: seq<T>)
    ensures |set x | x in s| <= |s|
  {
    if s != [] {
      var init := s[..|s| - 1];
      SetSizeAtMost(init);
      assert (set x | x in s) == (set x | x in init) + {s[|s| - 1]};
    }
  }

  class MemoryGame {
    const board: Board
    var flippedCards: seq<Card>
    var matchedCards: seq<Card>
    var moves: nat
    var timeElapsed: nat
    /** The start time has been taken (the source's `startTime` is set). */
    var timerStarted: bool
    /** The one-second clock is active (the source's `timer` is set). */
    var timerRunning: bool
    const flipDuration: int

    /** The game invariant: every card of the board is face up exactly when it
        is part of the pending pair or already matched; the pending pair has at
        most two distinct cards; no card is both pending and matched. */
    ghost predicate Valid()
      reads this, board, board.cards, flippedCards, matchedCards
    {
      && |flippedCards| <= 2
      && Distinct(flippedCards)
      && Distinct(matchedCards)
      && (forall c :: c in flippedCards ==> c in board.cards && c !in matchedCards)
      && (forall c :: c in matchedCards ==> c in board.cards)
      && (forall c :: c in board.cards ==> (c.isFlipped <==> c in flippedCards || c in matchedCards))
      && (timerRunning ==> timerStarted)
    }

    /** A new session: nothing face up, nothing matched, counters at zero. */
    ghost predicate FreshSession()
      reads this, board, board.cards
    {
      && flippedCards == [] && matchedCards == []
      && moves == 0 && timeElapsed == 0
      && !timerStarted && !timerRunning
      && (forall c :: c in board.cards ==> !c.isFlipped)
    }

    /** The cards that are face up and not yet matched. */
    ghost function FaceUpUnmatched(): set<Card>
      reads this, board, board.cards
    {
      set c | c in board.cards && c.isFlipped && c !in matchedCards
    }

    /** The condition under which the click handler takes a click. */
    ghost predicate AcceptsClick(card: Card)
      reads this, card
    {
      |flippedCards| < 2 && !card.isFlipped
    }

    /** Every pair found: as many matched cards as the board holds. */
    predicate IsComplete()
      reads this, board
    {
      |matchedCards| == |board.cards|
    }

    /** Clamps the reveal delay and resets the board for a first session. */
    constructor (board: Board, order: seq<int>, flipDuration: int := DefaultFlipDuration)
      requires IsPermutation(order, |board.cards|)
      modifies board, board.cards
      ensures this.board == board && this.flipDuration == ClampFlipDuration(flipDuration)
      ensures Valid() && FreshSession()
      ensures board.cards == Permute(old(board.cards), order)
      ensures board.gridColumns == IntSqrt(|board.cards|)
    {
      this.board := board;
      flippedCards := [];
      matchedCards := [];
      moves := 0;
      timerStarted := false;
      timerRunning := false;
      timeElapsed := 0;
      this.flipDuration := ClampFlipDuration(flipDuration);
      new;
      board.Reset(order);
      IntSqrtUnique(|board.cards|, board.gridColumns);
    }

    method StartTimer()
      modifies this`timerStarted, this`timerRunning
      ensures timerStarted && timerRunning
    {
      timerStarted := true;
      timerRunning := true;
    }

    /** Stopping the clock leaves the recorded start time in place. */
    method StopTimer()
      modifies this`timerRunning
      ensures !timerRunning
    {
      if timerRunning {
        timerRunning := false;
      }
    }

    /** The one-second clock tick: records the whole seconds since the start. */
    method Tick(elapsed: nat)
      requires Valid() && timerRunning
      modifies this`timeElapsed
      ensures Valid() && timeElapsed == elapsed
    {
      timeElapsed := elapsed;
    }

    /** A click on a card of the board. It is taken only when fewer than two
        cards are pending and the card is face down; a taken click flips the
        card, adds it to the pending pair and starts the timer on the first
        flip; completing a pair counts one move and schedules the match check
        (`scheduled`). Any other click changes nothing. */
    method HandleCardClick(card: Card) returns (scheduled: bool)
      requires Valid() && card in board.cards
      modifies this`flippedCards, this`moves, this`timerStarted, this`timerRunning, card
      ensures Valid()
      ensures old(AcceptsClick(card)) ==>
        && card.isFlipped
        && flippedCards == old(flippedCards) + [card]
        && timerStarted
        && timerRunning == (old(timerRunning) || !old(timerStarted))
      ensures !old(AcceptsClick(card)) ==>
        && card.isFlipped == old(card.isFlipped)
        && flippedCards == old(flippedCards)
        && timerStarted == old(timerStarted) && timerRunning == old(timerRunning)
      ensures scheduled <==> old(AcceptsClick(card)) && |flippedCards| == 2
      ensures moves == old(moves) + (if scheduled then 1 else 0)
      ensures matchedCards == old(matchedCards) && timeElapsed == old(timeElapsed)
    {
      scheduled := false;
      if |flippedCards| < 2 && !card.isFlipped {
        if !timerStarted {
          StartTimer();
        }
        card.ToggleFlip();
        flippedCards := flippedCards + [card];
        if |flippedCards| == 2 {
          moves := moves + 1;
          scheduled := true;
        }
      }
    }

    /** The delayed match check of a completed pair. A matching pair stays
        face up and joins the matched cards; when that completes the board the
        clock stops and the score is reported. A non-matching pair is turned
        face down again. Either way no card is pending afterwards. */
    method CheckForMatch() returns (score: Option<int>)
      requires Valid() && |flippedCards| == 2
      modifies this`flippedCards, this`matchedCards, this`timerRunning, flippedCards
      ensures Valid() && flippedCards == []
      ensures var c1, c2 := old(flippedCards[0]), old(flippedCards[1]);
        if c1.Matches(c2) then
          && matchedCards == old(matchedCards) + [c1, c2]
          && c1.isFlipped && c2.isFlipped
        else
          && matchedCards == old(matchedCards)
          && !c1.isFlipped && !c2.isFlipped
      ensures score.Some? <==> old(flippedCards[0]).Matches(old(flippedCards[1])) && IsComplete()
      ensures score.Some? ==> score.value == Score(timeElapsed, moves) && !timerRunning
      ensures score.None? ==> timerRunning == old(timerRunning)
      ensures moves == old(moves) && timeElapsed == old(timeElapsed) && timerStarted == old(timerStarted)
    {
      var card1, card2 := flippedCards[0], flippedCards[1];
      score := None;
      if card1.Matches(card2) {
        assert card1 !in matchedCards && card2 !in matchedCards && card1 != card2;
        matchedCards := matchedCards + [card1, card2];
        if |matchedCards| == |board.cards| {
          StopTimer();
          score := Some(Score(timeElapsed, moves));
        }
      } else {
        card1.ToggleFlip();
        card2.ToggleFlip();
      }
      flippedCards := [];
    }

    /** Starts a new session on the same cards: counters and timer cleared,
        nothing pending or matched, the board reshuffled by `order` and every
        card face down. */
    method ResetGame(order: seq<int>)
      requires Valid() && IsPermutation(order, |board.cards|)
      modifies this, board, board.cards
      ensures Valid() && FreshSession()
      ensures board.cards == Permute(old(board.cards), order)
      ensures multiset(board.cards) == multiset(old(board.cards))
      ensures board.gridColumns == IntSqrt(|board.cards|)
    {
      matchedCards := [];
      flippedCards := [];
      moves := 0;
      timeElapsed := 0;
      timerStarted := false;
      StopTimer();
      board.Reset(order);
      IntSqrtUnique(|board.cards|, board.gridColumns);
    }

    /** At most two cards are ever face up without being matched. */
    lemma AtMostTwoFaceUpUnmatched()
      requires Valid()
      ensures FaceUpUnmatched() <= set c | c in flippedCards
      ensures |FaceUpUnmatched()| <= 2
    {
      SetSizeAtMost(flippedCards);
      SubsetSize(FaceUpUnmatched(), set c | c in flippedCards);
    }

    /** Once the board is complete every card is matched and face up, so no
        further click is taken. */
    lemma CompleteMeansAllMatched()
      requires Valid() && IsComplete()
      ensures forall c :: c in board.cards ==> c in matchedCards && c.isFlipped && !AcceptsClick(c)
    {
      var matched := set c | c in matchedCards;
      var all := set c | c in board.cards;
      DistinctSetSize(matchedCards);
      SetSizeAtMost(board.cards);
      SubsetSize(matched, all);
      assert matched == all;
      forall c | c in board.cards ensures c in matchedCards {
        assert c in all;
      }
    }
  }
}
