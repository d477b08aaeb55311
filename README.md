# Tic-tac-toe turn logic of duo-shack, in Dafny

This project models the game core of duo-shack. A human plays X against a
remote language model that plays O and comments on each move. The model
covers four parts:

- **Types** (`types.dfy`): the data shapes. A board is nine cells, each empty
  or holding X or O. A status holds a winner, a draw flag and a winning
  line. A chat message has a role and a text.
- **Rules** (`rules.dfy`): the rule evaluator `checkWinner`. `Evaluate` is
  the specification. It scans the eight lines in order (rows, columns,
  diagonals), and the first complete line wins. Otherwise a full board is a
  draw and any other board is still running. `CheckWinner` is the source's
  loop with its early return, and it is proved equal to `Evaluate`. Lemmas
  prove the first-match, draw and neutral outcomes, and that the status
  fields are consistent.
- **Chat** (`chat.dfy`): `addMessage`, which keeps the last four entries
  and appends the new one. A lemma proves that the log is always the
  last five messages of everything appended.
- **Ai** (`ai.dfy`): the two AI requests of services/ai.ts. The
  remote call is an oracle: a `Reply` that either carries an answer or
  fails. A successful move answer is passed on unchecked. A failed move
  request falls back to the first empty cell, or -1 when the board is
  full. A failed commentary request falls back to a fixed phrase.
- **Controller** (`controller.dfy`): the component state. The class `Game`
  has the fields `board`, `turn`, `status`, `isProcessing`, `messages` and
  `pending`.
  - `handleUserMove` is split at its suspension points into steps:
    `PlaceHumanMove` (guard, X placement, re-evaluation, hand-over to the
    AI), `ReceiveCommentary`, `ReceiveMove` and `FireTimer` (the 800 ms
    timer).
  - `pending` holds the suspended plies, so `ResetGame` can happen between
    steps. `HandleUserMove` runs all the steps with nothing in between.
  - The source has no stale-response guard. A reset does not cancel a
    waiting ply, and a timer that fires after a reset still writes its
    board. `StaleTimerAfterReset` shows this: the old game's board
    overwrites an X placed in the new game.

Two points of the code are worth stating plainly:
- There is no stale-response guard. A reply that arrives after a reset is
  applied to the new game; the model does the same.
- The AI's index is not range-checked: the guard at App.tsx:67 tests only
  for -1 and for an occupied cell. This is recorded under Findings.

## Model

| member | source | states |
|---|---|---|
| Rules.FirstCompleted | App.tsx:26-36 | the position found is the first line, in table order, whose three cells hold the same symbol; None means no line is complete |
| Rules.CheckWinner | App.tsx:25-41 | the loop over the line table with its early return, followed by the fullness test, computes exactly Evaluate |
| Rules.EvaluateFirstMatch | App.tsx:31-35 | if line k is complete and no earlier line is, the status has that line's symbol as winner, isDraw false and line k as winningLine |
| Rules.EvaluateDraw | App.tsx:37-38 | no complete line and no empty cell gives winner null, isDraw true and winningLine null |
| Rules.EvaluateNeutral | App.tsx:40 | no complete line and some empty cell gives the neutral status |
| Rules.Evaluate | App.tsx:25-41 | the status of a board is never both a winner and a draw; it has a winning line exactly when it has a winner; that line is one of the eight, is complete and holds the winner's symbol; a draw only on a full board |
| Rules.TerminalIff | App.tsx:31-40 | a status is terminal exactly when some line is complete or the board is full |
| Rules.NonTerminalHasEmptyCell | App.tsx:37-40 | while the game is still running some cell is empty |
| Rules.EvaluateInitial | App.tsx:11 | the initial all-null board evaluates to the neutral status |
| Rules.ExampleDiagonal | App.tsx:29 | X on the diagonal 0, 4, 8 wins with that line and isDraw false |
| Rules.ExampleDraw | App.tsx:37-38 | the full board X O X / X O O / O X X is a draw with no winner |
| Chat.AppendCapped | App.tsx:43-45 | the new log has at most five entries, ends with the new message, and before it keeps the last entries of the old log in their order |
| Chat.AppendCappedKeepsRecent | App.tsx:44 | appending to the last five of a history gives the last five of the extended history, so the log is always the tail of all messages added |
| Ai.FindEmpty | services/ai.ts:44 | findIndex over null cells: -1 exactly when no cell from the start position on is null; otherwise a null cell with every cell before it non-null |
| Ai.FallbackMove | services/ai.ts:41-44 | the move fallback is the first empty cell, and every cell before it is taken; it is -1 exactly when the board is full |
| Ai.GetAIMove | services/ai.ts:39-44 | an answered request yields the parsed integer unvalidated; a failed one yields the move fallback: the first empty cell, or -1 exactly on a full board |
| Ai.GetAICommentary | services/ai.ts:55-62 | the answered text, or on failure the fixed phrase "Nice move! Let's see what I can do." |
| Controller.AsWrittenGuardAdmitsOffBoard | App.tsx:67 | the AI-move guard as written accepts indices 9 and -2, which name no cell of the board |
| Controller.GuardIsAsWrittenOnBoard | App.tsx:67 | the guard the model uses is the written guard restricted to indices 0..8; an index it accepts names an empty cell |
| Controller.FallbackIsLegal | services/ai.ts:44 | when the game is still running (the only case in which the move is requested) the fallback names an empty cell and passes the guard |
| Controller.Game.constructor | App.tsx:17-21 | the initial state: empty board, neutral status, X to move, not processing, empty log, no ply waiting |
| Controller.Game.AddMessage | App.tsx:43-45 | the log becomes AppendCapped of the old log and the new message, and nothing else changes |
| Controller.Game.PlaceHumanMove | App.tsx:47-60 | a move is rejected with no change if the cell is taken, there is a winner, it is a draw, it is not X's turn or a ply is in progress; an accepted move sets exactly cell idx to X and stores the new status; if that status is terminal, turn, processing flag and waiting plies are untouched; otherwise it is O's turn, the flag is set and one ply waits for its commentary |
| Controller.Game.ReceiveCommentary | App.tsx:63-64 | the commentary, or the stock phrase, is appended to the log and the ply goes on to wait for its move |
| Controller.Game.ReceiveMove | App.tsx:66-80 | a move on an empty cell is held for the timer with O placed; any other index forfeits the ply, so turn becomes X and the flag is cleared at once; the fallback always passes the guard |
| Controller.Game.FireTimer | App.tsx:70-76 | the held board replaces the current board unconditionally and is re-evaluated; turn becomes X and the flag is cleared |
| Controller.Game.ResetGame | App.tsx:83-89 | all-null board, neutral status, X to move, empty log, flag cleared; waiting plies are left in place |
| Controller.Game.HandleUserMove | App.tsx:47-81 | run with nothing in between, a rejected move changes nothing; a terminal X move stops before the AI; otherwise the log gains the commentary, O lands on the AI's index exactly when that index passes the guard, the status is that of the final board, and turn returns to X with the flag cleared |
| Controller.StaleTimerAfterReset | App.tsx:70-76 | for any distinct cells a, c, d: X takes a, the AI answers c, the game is reset, X takes d; the old ply's timer then writes the old game's board, so d, taken in the new game, is cleared |

## Findings

| source | as written | input that shows it | evidently intended | confidence | as-written member | corrected member |
|---|---|---|---|---|---|---|
| App.tsx:67 | the AI index is accepted when it is not -1 and the cell it names is falsy; an index outside the board reads undefined, which is falsy | an answered move of 9 passes the guard, and `finalBoard[9] = 'O'` gives a ten-cell board (-2 passes too and sets a non-index property) | accept only an index 0..8 naming an empty cell; any other index forfeits the ply | medium, not executed | Controller.AsWrittenGuardAdmitsOffBoard | Controller.GuardIsAsWrittenOnBoard |

## Left out

- The Gemini requests, prompt text and JSON parsing in services/ai.ts are left out. They are foreign network calls, modelled as the `Reply` oracle.
- Ai.GetAICommentary: the `.trim()` of an answered text is treated as part of the oracle's answer. String trimming is not modelled.
- The player's name and the board passed to the commentary and move requests are not modelled, because they only shape the prompt.
- Controller.Game.ReceiveMove: an out-of-range AI index forfeits the ply, as the corrected guard says. What the code does instead is not modelled: it grows the array to a tenth cell, or sets a non-index property for a negative index (see Findings).
- Controller.Game.HandleUserMove: it covers only an uninterrupted run. Interleavings with a reset go through the step methods.
- The 800 ms delay is a discrete step (FireTimer), not real time.
- React closure staleness is not modelled. The guard reads the current state.
- Animations, the 3D scene (components/Scene.tsx), the LOGIN/ROOM view toggle, name and room uppercasing, and all layout are left out as presentation.
- The `user` role is declared but never used by the core, which only appends AI messages.
