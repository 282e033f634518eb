# Memory game engine

A Dafny model of the card-matching game in `ejercicio4/memory.js`: a `Card`
that is face up or face down and pairs with the card of the same name; a
`Board` that owns the deck, shuffles it, turns every card face down and lays
it out in floor(sqrt(n)) columns; and a `MemoryGame` that takes clicks on
cards, keeps at most two cards pending, counts a move for every completed
pair, checks the pair after the reveal delay, starts and stops the clock,
resets the session and scores a finished game.

Modules:

- `Cards` (`card.dfy`): the `Card` class and the facts about `Matches`.
- `Boards` (`board.dfy`): index permutations, the integer square root and the `Board` class.
- `MemoryGames` (`game.dfy`): the reveal-delay clamp, the score, the timer arithmetic and the `MemoryGame` class with its invariant `Valid()`.
- `Decks` (`deck.dfy`): the page's deck of six names, each dealt twice.
- `Scenarios` (`scenarios.dfy`): client sessions proved from the contracts alone (a mismatched turn, a matched turn, an ignored click, the completing turn, two resets in a row).

Modelling choices:

- The random comparator of the sort in `shuffleCards` is replaced by a parameter `order`. It is the permutation of positions the sort ends up applying. `IsPermutation` says it lists every position exactly once.
- The timer is two flags. `timerStarted` stands for the source's `startTime` being set. `timerRunning` stands for its interval handle being set. The clock tick is `Tick(elapsed)`, with the elapsed whole seconds given as input.
- The `setTimeout` that delays the pair check becomes the `scheduled` result of `HandleCardClick`. The environment then calls `CheckForMatch`. `CheckForMatch` requires exactly two pending cards. On a shorter list the source's destructuring gives `undefined`, and `card1.matches(card2)` then dereferences it (memory.js:129-130, 44).
- The score that `calculateScore` shows in an alert is returned by `CheckForMatch` as `Some(score)` when the pair completes the board.
- `Board.gridColumns` records the column count that `setGridColumns` writes to the grid style.

Facts about the source that the model keeps:

- `resetGame` keeps the same `Card` objects and reshuffles them (memory.js:143-153).
- The shuffle is the source's sort with a random comparator (memory.js:56).
- Nothing cancels a pending `checkForMatch` when the game is reset (memory.js:123, 143-153).
- After a completed game the start time stays set. A later click is still rejected, because every card is then face up (`CompleteMeansAllMatched`).

## Model

| member | source | states |
|---|---|---|
| `Cards.Card.constructor` | ejercicio4/memory.js:2-7 | a new card has the given name and is face down |
| `Cards.Card.ToggleFlip` | ejercicio4/memory.js:25-31 | the face-up state is inverted |
| `Cards.Card.Flip` | ejercicio4/memory.js:33-36 | the card is face up afterwards, whatever it was before |
| `Cards.Card.Unflip` | ejercicio4/memory.js:38-41 | the card is face down afterwards, whatever it was before |
| `Cards.Card.Matches` | ejercicio4/memory.js:43-45 | two cards match exactly when their names are equal |
| `Cards.MatchesReflexive` | ejercicio4/memory.js:43-45 | every card matches itself |
| `Cards.MatchesSymmetric` | ejercicio4/memory.js:43-45 | a matches b exactly when b matches a |
| `Boards.PermutePreservesMultiset` | ejercicio4/memory.js:55-57 | reordering by a permutation of positions keeps the multiset of cards |
| `Boards.Board.constructor` | ejercicio4/memory.js:49-53 | the board holds exactly the given cards |
| `Boards.Board.ShuffleCards` | ejercicio4/memory.js:55-57 | the deck becomes the chosen reordering of the old deck: same length, same multiset of cards, no card's state touched |
| `Boards.Board.FlipDownAllCards` | ejercicio4/memory.js:59-61 | every card of the deck is face down afterwards |
| `Boards.Board.Reset` | ejercicio4/memory.js:63-68 | the deck is the reordered old deck with the same multiset, every card is face down, and the grid column count is the largest c with c*c at most the number of cards |
| `Boards.Board.SetGridColumns` | ejercicio4/memory.js:70-73 | the column count written to the grid is the one computed for the current deck |
| `Boards.Board.CalculateColumns` | ejercicio4/memory.js:75-77 | the column count c satisfies c*c <= number of cards < (c+1)*(c+1) |
| `Boards.IntSqrt` | ejercicio4/memory.js:76 | floor(sqrt(n)) as an integer: c*c <= n < (c+1)*(c+1) |
| `Boards.IntSqrtIsLargest` | ejercicio4/memory.js:76 | every d with d*d <= n is at most IntSqrt(n) |
| `Boards.IntSqrtUnique` | ejercicio4/memory.js:76 | any c with c*c <= n < (c+1)*(c+1) is IntSqrt(n) |
| `Decks.DuplicateDeck` | ejercicio4/memory.js:202-205 | two distinct new face-down cards per name, both carrying that name, in the order of the names |
| `Decks.StandardDeckColumns` | ejercicio4/memory.js:193-205 | the twelve-card deck of six names is laid out in 3 columns |
| `MemoryGames.ClampFlipDuration` | ejercicio4/memory.js:105 | the delay lies in [350, 3000]; it is the request when the request lies there and the nearer bound otherwise |
| `MemoryGames.Score` | ejercicio4/memory.js:186-187 | the score lies in [0, 10000]; it is 0 exactly when the penalty 10*seconds + 100*moves reaches 10000, and otherwise adds up with the penalty to 10000 |
| `MemoryGames.ScoreAntitone` | ejercicio4/memory.js:187 | more time or more moves never raise the score |
| `MemoryGames.ScoreExamples` | ejercicio4/memory.js:187 | 30 seconds and 6 moves score 9100; 1000 seconds and 50 moves score 0 |
| `MemoryGames.TimerParts` | ejercicio4/memory.js:165-166 | minutes*60 + seconds is the elapsed time and seconds < 60 |
| `MemoryGames.TimerPartsUnique` | ejercicio4/memory.js:165-166 | the minutes and seconds split is the only one with those two properties |
| `MemoryGames.MemoryGame.constructor` | ejercicio4/memory.js:97-110 | the reveal delay is the clamped argument (500 when none is given); the session is fresh; the board is reset with the invariant established |
| `MemoryGames.MemoryGame.StartTimer` | ejercicio4/memory.js:171-177 | afterwards the start time is set and the clock runs |
| `MemoryGames.MemoryGame.StopTimer` | ejercicio4/memory.js:179-184 | afterwards the clock does not run; the start time is left as it was |
| `MemoryGames.MemoryGame.Tick` | ejercicio4/memory.js:173-176 | the elapsed time becomes the given whole seconds and the invariant is kept |
| `MemoryGames.MemoryGame.AcceptsClick` | ejercicio4/memory.js:113 | a click is taken exactly when fewer than two cards are pending and the card is face down |
| `MemoryGames.MemoryGame.IsComplete` | ejercicio4/memory.js:132 | the board is complete exactly when as many cards are matched as the board holds |
| `MemoryGames.MemoryGame.HandleCardClick` | ejercicio4/memory.js:112-126 | a click is taken exactly when fewer than two cards are pending and the card is face down. A taken click flips the card, appends it to the pending cards and starts the timer on the first flip. A rejected click changes nothing. `moves` grows by one exactly when the click completes a pair, which schedules the match check. The invariant, including at most two pending cards, is kept |
| `MemoryGames.MemoryGame.CheckForMatch` | ejercicio4/memory.js:128-141 | the pending pair is cleared. A matching pair is appended to the matched cards and stays face up. A non-matching pair is turned face down and the matched cards stay the same. The score is reported and the clock stopped exactly when a match fills the board. Moves and time are unchanged |
| `MemoryGames.MemoryGame.ResetGame` | ejercicio4/memory.js:143-153 | the session is fresh from any valid state: moves and time 0, timer not started and stopped, nothing pending or matched, every card face down. The board holds the same cards reordered, with the column count recomputed |
| `MemoryGames.MemoryGame.AtMostTwoFaceUpUnmatched` | ejercicio4/memory.js:112-141 | under the invariant the face-up unmatched cards are among the pending ones, so there are at most two |
| `MemoryGames.MemoryGame.CompleteMeansAllMatched` | ejercicio4/memory.js:113-132 | once as many cards are matched as the board holds, every card is matched and face up and no click is taken |
| `Scenarios.MismatchThenMatch` | ejercicio4/memory.js:112-141 | a mismatched turn counts one move and turns both cards face down; a matched turn then leaves two matched cards after two moves |
| `Scenarios.ResetTwice` | ejercicio4/memory.js:143-153 | two resets in a row from any valid state leave the same fresh session as one, with the same cards reordered by both shuffles and the column count recomputed |
| `Scenarios.PlayTwoPairs` | ejercicio4/memory.js:112-141 | after a mismatch, a match, an ignored click on a matched card and the last match, the game reports the score for 0 seconds and 3 moves, 9700 |

## Left out

- DOM work is not modelled, because it is presentation: card elements and their images (`img`), `render`, `class` toggles, the move-counter text, the timer text with its zero-padded seconds, and the `alert`. Only the arithmetic of the timer display is kept.
- `Board.onCardClicked` is not modelled, because it is event wiring. It forwards a click to the registered listener, and the game constructor always registers `HandleCardClick`. Clicks come only from listeners bound to the board's own cards, so `HandleCardClick` requires the card to be on the board. Each `reset` renders again and adds another listener to every card (memory.js:79-87), so after a reset one click runs the handler twice; the second run is always rejected by the guard (memory.js:113), because the first either flipped the card or changed nothing, so the model loses no behaviour.
- Timers and the clock are not modelled, because they are wall-clock behaviour: `setTimeout`, `setInterval`, `clearInterval` and `Date.now`. The started clock is a flag, the elapsed seconds are an input to `Tick`, and the delayed check is an explicit call to `CheckForMatch`.
- `Math.random` is not modelled, because randomness is outside the model. The shuffle takes the permutation it applies as a parameter.
- A stale pair check after `resetGame` is not modelled, because the source does not guard it and would fail on an empty list. `CheckForMatch` requires two pending cards instead.
- `Boards.IntSqrt`: models `Math.floor(Math.sqrt(n))` as the exact integer square root. Floating point is not modelled; the two agree for every deck size a page can hold.
- A `flipDuration` that is not a whole number is not modelled. `ClampFlipDuration` works on integers; JavaScript's `Math.min` and `Math.max` also accept fractional delays, and give NaN for a value that is not a number.
- The reveal delay only sets how long a pair stays up before the check. The model keeps its value and nothing else.
- The page bootstrap and the restart button wiring are not modelled. Only the deck duplication is modelled, as `DuplicateDeck`.
- `ejercicio1/sensors.js` is not part of this model. It only loads, renders and randomly updates sensor readings.
