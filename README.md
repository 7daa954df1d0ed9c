# Memory match: a Dafny model of the game logic

This project models `script.js`, the logic of a browser memory-matching game.
A board holds every symbol of a palette twice, shuffled face down. The player
turns up two cards per move. Equal symbols stay up as a found pair; different
symbols turn back down one second later. The session ends when every pair is
found. At that point the timer stops and the score (moves, then seconds) is
stored if it beats the stored best score.

The model has five modules:

- `Palette` (palette.dfy): the card symbols and their code points, and the
  palette chosen by the difficulty value: "easy", "medium", "hard", and any
  other value falling back to easy.
- `Shuffling` (shuffle.dfy): the in-place Fisher–Yates shuffle on an array.
  It is specified by the pure function `Shuffled`, and it is proved to permute
  its input for every sequence of random draws.
- `BestScore` (best_score.dfy): the stored record and the rule that replaces
  it.
- `Board` (board.dfy): counting facts about a board made of pairs.
- `Game` (game.dfy): the page's state and event handlers.
  - `Session` holds the page's module-level variables as one value. Each
    handler is a function on it: `AfterBuild`, `AfterClick`, `AfterCheck`,
    `AfterTimeout`, `AfterEndGame`, `AfterFirstClick`.
  - `Step` and `Run` apply the events the page reacts to: clicks on a card,
    clicks inside the board that hit no card (only the first-click listener
    sees those), the mismatch timeout firing, timer ticks and restarts. A
    restart in `Step` is the cancelling rebuild of "## Findings".
  - The class `GameController` holds the same state as fields that its methods
    update in place. Each event handler is proved to perform its `Session`
    function (`Snap()` reads the object back as a `Session`).

The main invariant is `Consistent`:

- The board is the palette twice.
- The face-up cards are exactly the matched cards and the pending ones.
- Matched cards come in whole pairs, and there are twice as many as the pairs
  found.
- The lock is set exactly while a mismatching pair is pending.
- The only scheduled callback is the one for that pair.

Every event preserves `Consistent` when a restart cancels the pending
callback (`RunKeepsConsistent`). The source's restart does not cancel it;
see "## Findings".

A weaker invariant, `Tally`, holds with either rebuild (`BuildTally`, `RunTally`). Under it,
the matched cards are face up and number twice the pairs found. It is what
shows that a card stranded by a stale callback keeps the session from ever
ending (`RunStranded`, `StaleBoardNeverEnds`).

How the environment is represented:

- The card elements are indices into `cards`, and their `is-flipped` class is
  `isFlipped`.
- The callbacks scheduled with `setTimeout` form the queue `scheduled`. Each
  callback is tagged with the number of the board it was scheduled on, since
  the callback keeps references to that board's elements.
- `Math.random` becomes the draws `picks`, where `picks[i]` is the index
  drawn when the loop index is `i`.
- The difficulty select's value and the contents of the key-value store are
  parameters.

## Model

| member | source | states |
|---|---|---|
| Palette.EmojisByDifficulty | script.js:49-63 | "easy", "medium" and "hard" give 4, 8 and 12 distinct symbols, each palette extending the smaller ones; every other value gives the easy palette |
| Palette.GlyphInjective | script.js:53-59 | two card faces show the same string exactly when they are the same symbol, so comparing symbols is comparing the emoji strings |
| Shuffling.Swap | script.js:43 | the destructuring swap exchanges the two positions and leaves every other position alone |
| Shuffling.StepsPermutes | script.js:41-44 | the remaining loop iterations from index i keep the length and the multiset of elements |
| Shuffling.ShuffledIsPermutation | script.js:40-46 | for every choice of random draws, the shuffle's result is a permutation of its input |
| Shuffling.Shuffle | script.js:40-46 | the in-place loop leaves the array equal to `Shuffled` of its old contents, and a permutation of them |
| BestScore.SaveBest | script.js:171-176 | the record changes exactly when there is none or the session has fewer moves, or as many moves in fewer seconds; it then becomes the session's score; afterwards it is no worse than the session and no worse than before |
| BestScore.OrderFacts | script.js:173 | the replacement test is the strict part of a total lexicographic order on (moves, time) |
| BestScore.SaveAllIsMinimum | script.js:171-176 | after any sequence of finished sessions, the record is the best of the old record and all of them, and is one of them |
| Board.PairBoard | script.js:80-82 | a shuffle of the palette laid out twice has twice the palette's length and holds each palette symbol exactly twice |
| Board.PairPartnerUnique | script.js:82 | on such a board, the two cards of a matching pair are the only cards with their symbol |
| Board.IndexSetBound | script.js:137 | a set of card indices has at most as many elements as the board, and that many only when it holds every card |
| Game.ShuffledDeck | script.js:82 | the new deck is the palette laid out twice, then shuffled with the draws |
| Game.FreshSelection | script.js:67-94 | a fresh board, face down with nothing pending or matched, satisfies the selection invariant |
| Game.FlipFirst | script.js:112-113 | turning up a face-down card with nothing pending makes it the one pending card and keeps the invariant |
| Game.FlipSecond | script.js:112-120 | turning up a second face-down card makes a pending pair, counts a move, and keeps pairs found below moves |
| Game.MatchPair | script.js:128-136 | a pending pair of equal symbols becomes matched and keeps the invariant; the pairs found never exceed the palette |
| Game.UnflipPair | script.js:141-146 | the pending pair turns face down and nothing is pending, keeping the invariant |
| Game.BuildAsWrittenFresh | script.js:67-105 | a build leaves a face-down board with each symbol of the chosen palette exactly twice, nothing pending or matched, zero counters, the timer stopped, the first-click listener armed, and the record and pending callbacks unchanged |
| Game.BuildConsistent | script.js:67-105 | a build that cancels the pending callbacks leaves a consistent session with nothing scheduled |
| Game.BuildPlayable | script.js:67-105 | the build as written leaves a playable session with card 0 face down, nothing pending or matched, the pending callbacks kept, and a board number newer than theirs |
| Game.AllMatched | script.js:137-139 | the pairs found never exceed the palette; when they reach it, every card is matched and face up |
| Game.FirstPick | script.js:106-124 | a click on a face-down card with nothing pending can occur, makes that card the one pending card, changes nothing else of the play, and keeps the session playable and consistent |
| Game.SecondPickMismatch | script.js:106-148 | a second card of another symbol counts one move, leaves both cards up and pending under the lock, schedules the callback for them, and keeps consistency |
| Game.SecondPickMatch | script.js:106-139 | a second card of the same symbol counts one move and one pair and clears the selection; the session ends (timer stopped, score offered to the record) exactly when this was the last pair |
| Game.MatchKeeps | script.js:128-139 | the match branch of `checkForMatch` keeps the session playable and consistent, including when it ends the session |
| Game.MismatchKeeps | script.js:140-147 | the mismatch branch keeps the session playable, and its callback is then the only one pending |
| Game.ClickKeeps | script.js:106-124 | every click keeps a playable session playable and a consistent one consistent; a click under the lock or on a face-up card only runs the first-click listener |
| Game.TimeoutKeeps | script.js:141-146 | the pending pair's callback turns both cards down, clears the lock and the selection, and leaves a consistent session with nothing scheduled |
| Game.ClickValid | script.js:106-148 | a click keeps the handler's shape, and keeps a consistent session consistent |
| Game.TimeoutValid | script.js:141-146 | a firing callback keeps the handler's shape, and keeps a consistent session consistent |
| Game.ConsistentWellformed | script.js:106-124 | a consistent session meets what the click handler relies on |
| Game.ClickWellformed | script.js:106-148 | every click keeps that shape, whatever the board holds |
| Game.TimeoutWellformed | script.js:141-146 | a firing callback keeps that shape, whether it belongs to the current board or an earlier one |
| Game.BuildWellformed | script.js:67-105 | both builds, cancelling or not, leave a session of that shape |
| Game.StepKeeps | script.js:190-206 | with the cancelling rebuild, every event that can occur keeps a consistent session consistent (for the rebuild as written this fails while a callback is pending, see `StaleTimeout`) |
| Game.RunKeepsConsistent | script.js:190-206 | with the cancelling rebuild, whatever sequence of events occurs, a consistent session stays consistent |
| Game.RunAppend | script.js:190-206 | running two event sequences one after the other is running their concatenation |
| Game.MismatchPicks | script.js:106-148 | two face-down cards of different symbols: one move more, both up and pending under the lock, and exactly one callback scheduled, for that pair on this board |
| Game.MismatchRound | script.js:106-148 | two face-down cards of different symbols, then their callback: one move more, and the board is as before |
| Game.MatchRound | script.js:106-139 | two face-down cards of one symbol: one move and one pair more, nothing pending |
| Game.MismatchThenMatch | script.js:106-148 | on a fresh board, a mismatch, its callback and a match give two moves, one pair and a consistent session |
| Game.StaleTimeout | script.js:67-105 | restarting while a mismatch callback is pending keeps the callback; when it fires after a card of the new board was turned up, that card is stranded: face up, neither matched nor pending, named by no callback of its board, and the next click on it is refused |
| Game.StrandedStep | script.js:106-124 | a stranded card stays stranded under every event but a rebuild, and a click on it only runs the first-click listener |
| Game.RunStranded | script.js:106-146 | after any events short of a rebuild, from a session that keeps the pair count (`Tally`), a stranded card is still stranded, the handler refuses a click on it, and fewer pairs than the palette has are found, so the session never reaches its end |
| Game.BuildTally | script.js:67-105 | a board build, as written, starts the pair count afresh: nothing matched, nothing pending, every surviving callback belongs to an older board |
| Game.TallyPair | script.js:126-139 | taking the two pending cards as a pair adds exactly two distinct, previously unmatched cards to the matched set, so the matched cards stay twice the pairs found |
| Game.TallySecondMismatch | script.js:112-146 | a second card of another symbol keeps the pair count: its callback names two distinct face-up, unmatched cards that no other callback of the board names |
| Game.TallySecondMatch | script.js:112-139 | a second card of the same symbol keeps the pair count, whether or not it ends the session |
| Game.TallyEndGame | script.js:150-160 | ending the session touches neither the board nor the selection, so it keeps the pair count |
| Game.TallyClick | script.js:106-148 | every click keeps the pair count |
| Game.TallyTimeout | script.js:141-146 | a firing callback keeps the pair count, on its own board or a stale one |
| Game.TallyStep | script.js:67-148 | every event, the rebuild included, keeps the pair count |
| Game.RunTally | script.js:67-148 | every run of events keeps the pair count |
| Game.TallyIncomplete | script.js:129-139 | while some card is unmatched, fewer pairs than the palette has are found, so the end-of-game branch cannot run |
| Game.StaleBoardNeverEnds | script.js:67-146 | restart while a mismatch callback is pending, turn up the first card and let the old callback fire: whatever events follow short of another rebuild, that card stays face up and refused, and the session never finds its last pair |
| Game.RestartCancelsTimeout | script.js:67-105 | with the cancelling rebuild, from any state, a restart and a click leave a consistent session with no callback left to fire |
| Game.GameController.constructor | script.js:12-19 | page load: the module-level initial values with the stored record, then a board built; the object is consistent |
| Game.GameController.StopTimer | script.js:36-38 | the interval is cleared |
| Game.GameController.StartTimer | script.js:28-34 | any running interval is cleared and one is armed |
| Game.GameController.Tick | script.js:30-33 | a tick adds one second and changes nothing else, so a valid object stays valid |
| Game.GameController.CreateBoardAsWritten | script.js:67-105 | the fields become `AfterBuildAsWritten` of their old values: counters reset, new shuffled face-down board, listener armed, pending callbacks kept |
| Game.GameController.CreateBoard | script.js:67-105 | the corrected build: the fields become `AfterBuild` of their old values, with the pending callbacks cancelled, and the object is valid afterwards from any state |
| Game.GameController.OnBoardClick | script.js:96-104 | the first click after a build starts the timer and disarms the listener; later clicks change nothing |
| Game.GameController.EndGame | script.js:150-160 | the timer stops and the record becomes `SaveBest` of the old record and the session's score |
| Game.GameController.CheckForMatch | script.js:126-148 | the fields become `AfterCheck` of their old values |
| Game.GameController.HandleCardClick | script.js:106-124 | the card's own handler, with the first-click listener already disarmed: the fields become `AfterClick` of their old values |
| Game.GameController.ClickCard | script.js:96-124 | the capture listener and then the card's handler: the fields become `AfterClick` of their old values, the shape the handler relies on is kept, and a valid object stays valid |
| Game.GameController.FireMismatchTimeout | script.js:141-146 | the fields become `AfterTimeout` of their old values; the shape is kept, and a valid object stays valid |

## Left out

- Rendering: the board's elements, their classes other than `is-flipped`, the move and time counters and the best-score text (`getBestScore`, script.js:162-169) are display only and not modelled.
- The win message box and its text are not modelled. Its restart button is modelled as a restart event.
- Sound effects are not modelled.
- The key-value store and JSON are not modelled. The stored record is `Option<Score>`; a malformed stored string would make the page throw, and that path is not modelled.
- Real time is not modelled. The one-second interval is the `TimerTick` event, and the 1000 ms callback is a queue entry fired by the `TimeoutFires` event in scheduling order. Timings, and the interleaving of a tick with other events, are not modelled.
- `endGame` is defined twice with identical bodies (script.js:150-160 and 178-188); the later definition is the one that runs. It is modelled once.
- `Math.random` is replaced by the draws `picks` (picks[0] is never drawn). The model does not say the draws are uniform.
- The difficulty select is the string parameter `difficulty`, read when a build starts.
- Each build adds a first-click capture listener to the same board element, and the first click after a build runs every armed listener, each of which removes itself. The model keeps one flag, `firstClick`. The extra listeners only re-run `startTimer`, which clears the running interval first, so at most one interval is ever armed.
- Game.GameController.ClickCard: requires `Wellformed`, a shape that holds in every reachable state (`ConsistentWellformed`, `ClickWellformed`, `TimeoutWellformed`, `BuildWellformed`). The page itself has no such guard.
- Game.GameController.HandleCardClick: requires the first-click listener to be disarmed, because in the page the capture listener always runs before the card's handler (`ClickCard` calls them in that order).

## Findings

| source | as written | input that shows it | evidently intended | confidence | as-written member | corrected member |
|---|---|---|---|---|---|---|
| script.js:67-105, 141-146 | `createBoard` resets the lock and the selection but does not cancel a pending mismatch callback. When that callback fires on the new board, it clears the lock and the selection of the new session. | turn up two cards of different symbols, press restart within one second, then turn up one card of the new board before the callback fires | a restart cancels the pending callback, so no callback outlives its board | not executed | Game.StaleTimeout, Game.StaleBoardNeverEnds, Game.GameController.CreateBoardAsWritten | Game.RestartCancelsTimeout, Game.RunKeepsConsistent, Game.GameController.CreateBoard |
