# Othello game-session controller, modelled in Dafny

This project models the game-session controller of an AlphaZero Othello web
service (`othello-alphazero-docker/app.py`). The controller keeps one game's
state in module-level variables:

- the live board;
- the player to move (1 = Human/white, -1 = AI/black);
- the last move;
- a history stack of (board, player) snapshots;
- the first player of the current game.

Its handlers start a new game, play a Human move, play the AI's move and undo.
The rules engine (`OthelloGame`) and the move oracle (network-guided tree
search at temperature 0) are uninterpreted collaborators. They are the
function-valued fields of `Rules.Engine`. The model assumes nothing about them
beyond their signatures, except that the engine built for size n has size n.

Layout:

- `basics.dfy`: `Option` and `Result`.
- `boards.dfy`: boards; `Flip`, which reverses the row order (`np.flip(board, 0)`); disc counts.
- `actions.dfy`: action indices (`n*x + y`, with Pass = `n*n`) and their decoding; Python's
  sequence indexing; the legal-move list.
- `game_end.dfy`: the end-of-game status. The winner is re-derived from the disc counts.
- `rules.dfy`: the engine and oracle interface.
- `controller.dfy`: each handler as a pure transition over the controller state. A request
  either commits a new state with the status it reports, or is rejected with an error.
- `controller_facts.dfy`: properties that relate the transitions.
- `session.dfy`: class `App.Session`. It holds the module-level variables as fields. Each
  handler is a method that updates them in place and is proved to perform the matching
  transition.

Behaviours of the code a reader may not expect, which the model reproduces:

- After a new game with the Human first (any first player other than -1), the live board
  is the flipped initial board, while the history holds the unflipped one.
- The initial snapshot is saved before the new first player is assigned, so it records the
  previous game's player.
- When the AI moves first, the history is cleared before its opening move, so the depth
  after that move is 1 and undo is unavailable. The source's own comments
  (app.py:165-167, 320-321) describe a depth of 2 that undo pops once; the comment at
  app.py:314 describes depth 2 with undo refused. If the flipped initial position is
  already over, the history stays empty and the live board is the unflipped initial board.
- Undo re-flips the restored board only when one snapshot remains and the game's first
  player is 1.
- The board in the Human-move response is not flipped: the flip at app.py:232 is commented
  out, although the comment at app.py:234 says the response board is flipped.
- "Not your turn" and "game over" are one error with one message (app.py:199-200).
- Coordinates are not range-checked. A column past the edge selects a cell of the next
  row (on the last row: Pass, or past the end of the valid-move vector). An index outside the valid-move vector raises an error without changing state.
  Negative indices wrap around as in Python.
- Undo takes back a Human move and the AI's reply, restoring the history, board and player,
  whenever the live state is the top snapshot and that snapshot is not the sole one of a
  Human-first game (`ControllerFacts.UndoTakesBackPair`). At the start of a Human-first
  game, undo restores the board the new game left live and the history, but the player
  comes from the initial snapshot: the one to move before the new game started, which may
  or may not be 1 (`ControllerFacts.UndoToStartOfHumanFirstGame`).

## Model

| member | source | states |
|---|---|---|
| Boards.Flip | othello-alphazero-docker/app.py:171 | the flipped board has the same rows in reverse order |
| Boards.FlipInvolution | othello-alphazero-docker/app.py:339-340 | flipping twice gives back the original board |
| Boards.CountFlip | othello-alphazero-docker/app.py:126-127 | the white and black disc counts do not depend on the board's orientation |
| GameEnd.CheckGameEnd | othello-alphazero-docker/app.py:117-139 | Ongoing iff the engine reports no result; otherwise Draw iff the result is 0 or the counts are equal, Human wins iff white > black, AI wins iff black > white |
| GameEnd.StatusIgnoresOrientation | othello-alphazero-docker/app.py:125-137 | the reported status is the same on the flipped board |
| GameEnd.NonZeroOutcomeIgnored | othello-alphazero-docker/app.py:130-135 | any two non-zero engine outcomes give the same status, because the winner is recomputed from the counts |
| Actions.Decode | othello-alphazero-docker/app.py:260-261 | the decoded row is non-negative and the column lies in [0, n) |
| Actions.DecodeEncode | othello-alphazero-docker/app.py:213 | every on-board cell encodes to an index below Pass, and decoding that index gives the cell back |
| Actions.EncodeDecode | othello-alphazero-docker/app.py:259-262 | encoding a decoded action gives the action back, and the decoded cell is on the board iff the action is below Pass |
| Actions.PyIndex | othello-alphazero-docker/app.py:216 | the lookup succeeds iff -len <= i < len, and then yields element i, counted from the end when i is negative |
| Actions.MovesUpToMember | othello-alphazero-docker/app.py:110-114 | a cell is collected from the first k flags iff it decodes a set flag below k |
| Actions.MovesUpToOrdered | othello-alphazero-docker/app.py:110-114 | the collected cells encode to indices below k, in strictly increasing order |
| Actions.MoveListExact | othello-alphazero-docker/app.py:103-115 | with a vector of length n*n+1, a cell is listed iff it is on the board and its flag is set; Pass is never listed |
| Actions.MoveListOrdered | othello-alphazero-docker/app.py:110-114 | the move list is in strictly increasing action-index order |
| Controller.SaveState | othello-alphazero-docker/app.py:62-67 | the history grows by exactly one snapshot, equal to the live board and player, and nothing else changes |
| Controller.NewGame | othello-alphazero-docker/app.py:156-181 | the new game records the requested first player as the game's first player |
| Controller.RequestAction | othello-alphazero-docker/app.py:203-213 | a request names no action iff a coordinate is missing and it is not a pass; with both coordinates the action is n*x + y; otherwise it is Pass (n*n) |
| Controller.HumanMove | othello-alphazero-docker/app.py:199-223 | rejected with the turn/game-over error whenever it is not the Human's turn or the game has ended; an accepted move keeps the earlier snapshots and adds exactly one, equal to the new live state |
| Controller.AiMoveLogic | othello-alphazero-docker/app.py:245-270 | the AI move appends exactly one snapshot, equal to the new live state, and keeps the earlier ones and the first player |
| Controller.AiMove | othello-alphazero-docker/app.py:290-293 | rejected iff the player to move is not -1 |
| Controller.UndoHistory | othello-alphazero-docker/app.py:322-333 | at depth 2 the history keeps its first snapshot; from depth 3 it loses its top two |
| Controller.Undo | othello-alphazero-docker/app.py:313-347 | rejected iff the depth is below 2; after an undo the history is non-empty and the last move is cleared |
| ControllerFacts.NewGameHumanFirst | othello-alphazero-docker/app.py:156-181 | with the Human first: one snapshot (initial board, previous player), player = first, no last move, and the live board is that snapshot's board flipped |
| ControllerFacts.NewGameAiFirst | othello-alphazero-docker/app.py:164-176 | with the AI first and the game ongoing: the oracle's move is played on the flipped initial board, the history holds only the resulting state (depth 1), and undo is unavailable |
| ControllerFacts.NewGameAiFirstOver | othello-alphazero-docker/app.py:164-181 | with the AI first and the flipped initial board already over: the history is empty, the board is flipped back to the initial board, and the AI is to move |
| ControllerFacts.HumanMoveAccepted | othello-alphazero-docker/app.py:199-217 | a Human move is accepted iff the Human is to move, the game is not over, the request names an action, and that action's flag is set |
| ControllerFacts.HumanMoveRejected | othello-alphazero-docker/app.py:206-217 | once the turn check passes, a missing coordinate gives InvalidCoordinates, an index outside the vector gives ActionOutOfRange, and a clear flag gives IllegalMove |
| ControllerFacts.HumanMoveCommits | othello-alphazero-docker/app.py:209-228 | an accepted move plays n*x + y (n*n for Pass) for player 1, appends exactly the new (board, player), and records (x, y), or nothing when the action is Pass |
| ControllerFacts.OffBoardColumnAliases | othello-alphazero-docker/app.py:213-226 | a request (x, y + n) is accepted or rejected exactly like (x + 1, y) and commits the same board, player and history, and records (x, y + n) as the last move unless that action is Pass |
| ControllerFacts.AiMoveCommits | othello-alphazero-docker/app.py:249-270 | on the AI's turn the oracle's action a is played for player -1 and exactly the new state is appended; the last move is None for Pass and (a / n, a % n) otherwise, which encodes back to a and lies on the board when a is below Pass |
| ControllerFacts.UndoRestores | othello-alphazero-docker/app.py:313-347 | undo pops one snapshot at depth 2 and two from depth 3, restores the new top's player, and restores its board flipped iff one snapshot remains and the Human moved first |
| ControllerFacts.UndoTakesBackPair | othello-alphazero-docker/app.py:328-344 | from a state equal to its top snapshot, a Human move, the AI's reply and an undo restore the history, board and player, except at the sole snapshot of a Human-first game |
| ControllerFacts.UndoToStartOfHumanFirstGame | othello-alphazero-docker/app.py:156-181 | in a Human-first game, undoing the first pair restores the new game's history and live board, but the player recorded before the new game started |
| ControllerFacts.PlayDepth | othello-alphazero-docker/app.py:220-270 | over any sequence of Human and AI requests without undo, the depth grows by exactly the number of accepted moves, and the earlier snapshots are kept |
| App.Session.constructor | othello-alphazero-docker/app.py:53-100 | start-up state: the engine for size 8, its initial board, the Human to move, and one snapshot of that board |
| App.Session.SaveState | othello-alphazero-docker/app.py:62-67 | pushes the live board and player in place, as Controller.SaveState |
| App.Session.InitGameAndAi | othello-alphazero-docker/app.py:69-100 | rebuilds the engine for the size and resets the history to one snapshot of the initial board with the current player |
| App.Session.NewGame | othello-alphazero-docker/app.py:142-191 | a missing size means 8 and a missing first player means 1; rebuilds the engine only when the size changes, then performs Controller.NewGame on the fields and returns its status |
| App.Session.HumanMove | othello-alphazero-docker/app.py:195-242 | updates the fields as Controller.HumanMove commits them, or leaves them unchanged and returns its error |
| App.Session.AiMoveLogic | othello-alphazero-docker/app.py:245-280 | updates the fields as Controller.AiMoveLogic and returns its status |
| App.Session.AiMove | othello-alphazero-docker/app.py:285-301 | updates the fields as Controller.AiMove, or leaves them unchanged with NotAiTurn |
| App.Session.UndoMove | othello-alphazero-docker/app.py:307-359 | pops the history in place and restores the fields as Controller.Undo, or leaves them unchanged with UndoUnavailable |
| App.Session.ApiMoves | othello-alphazero-docker/app.py:103-115 | the loop returns exactly the decoded set flags among all but the last entry of the valid-move vector, in index order |

## Left out

- HTTP routing, `request.json`, `jsonify`, CORS, status codes and logging are I/O plumbing. Handlers return a `Result` of status or error. The response body is not assembled; its board, player, last move and history length are the session's fields, and its move list is `App.Session.ApiMoves`.
- The neural network, the tree search, `np.argmax`, the CUDA setup and checkpoint loading are foreign code. The oracle is a function from the canonical board to an action. The search tree that the search object keeps between calls is not modelled.
- The internals of `OthelloGame` are not part of this model. Its operations are uninterpreted. Only `Actions.MoveListExact` assumes the valid-move vector has length n*n + 1.
- The valid-move vector is a sequence of booleans. The engine's 0/1 entries are read as false/true, so `== 0` and `== 1` are complementary.
- The terminal result is `Option<int>`: None while the game goes on. Non-integer outcome values are not modelled. Only "equal to 0" matters to the status.
- Request fields (`x`, `y`, `size`, `first_player`) are modelled as optional integers, with the defaults of 8 and 1 for a missing size and first player. JSON strings, floats or an explicit null (which `data.get` returns as None instead of the default) in those fields are not modelled.
- The engine factory is assumed to build an engine of the size it is asked for (`OthelloGame(n).n == n`); this is `App.Session.Valid`, required by the constructor and by `App.Session.NewGame`.
- Board size 0 is not modelled: sizes are positive (`Actions.PosNat`).
- The `game is None` branches are not modelled: start-up always builds an engine. This covers `get_api_moves` returning `[]` and `new_game` initialising on the first call.
- The 0.5-second minimum latency of the AI move handler is wall-clock timing with no effect on state.
- Concurrency and the process-wide singleton are not modelled: each method runs alone. The server start in the `__main__` block is out of scope; only its `init_game_and_ai(8)` call appears, as `App.Session.constructor`.
- Status messages are modelled only by their class; the score strings are not.
- `np.copy` needs no counterpart: boards are immutable values.
- `othello-frontend/vue.config.js` is build configuration with no logic.
