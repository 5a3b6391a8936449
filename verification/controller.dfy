/**
 * The game-session controller as pure transitions over the session's state:
 * the live board, the player to move (1 = Human, -1 = AI), the last move, the
 * history stack of (board, player) snapshots and the first player of the
 * current game. Each request either commits a new state with the status it
 * reports, or is rejected and leaves the state as it was.
 */
module Controller {
  import opened Basics
  import opened Boards
  import opened Actions
  import opened GameEnd
  import opened Rules

  datatype Snapshot = Snapshot(board: Board, player: int)

  datatype State = State(
    board: Board,
    player: int,
    lastMove: Option<Coord>,
    history: seq<Snapshot>,
    firstPlayerGame: int)

  /** A committed request: the new state and the status it reports. */
  datatype Reply = Reply(state: State, status: Status)

  datatype ApiError =
    | NotYourTurnOrGameOver
    | InvalidCoordinates
    | ActionOutOfRange     // `valids[action]` raises IndexError
    | IllegalMove
    | NotAiTurn
    | UndoUnavailable

  /** A Human move request: the optional `x` and `y`, and whether `action` is 'pass'. */
  datatype MoveRequest = MoveRequest(x: Option<int>, y: Option<int>, pass: bool)

  /** The state after a request: the committed one, or the old one on rejection. */
  function After(res: Result<Reply, ApiError>, s: State): State
  {
    if res.Ok? then res.value.state else s
  }

  /** What a request answers: the status of the committed state, or the error. */
  function Answer(res: Result<Reply, ApiError>): Result<Status, ApiError>
  {
    if res.Ok? then Ok(res.value.status) else Err(res.error)
  }

  /** `check_game_end(board, player)`. */
  function StatusOf(e: Engine, b: Board, p: int): Status
  {
    CheckGameEnd(e.gameEnded(b, p), b)
  }

  /** The live board and player are the top snapshot of the history. */
  predicate Synced(s: State)
  {
    |s.history| > 0 && s.history[|s.history| - 1] == Snapshot(s.board, s.player)
  }

  /** `save_state`: push one copy of the live board and player. */
  function SaveState(s: State): (t: State)
    ensures |t.history| == |s.history| + 1
    ensures t.history[..|s.history|] == s.history
    ensures Synced(t)
    ensures t.(history := s.history) == s
  {
    s.(history := s.history + [Snapshot(s.board, s.player)])
  }

  /**
   * `new_game` for engine `e` (already rebuilt if the size changed). The initial
   * snapshot is saved before the player is set, so it records the previous
   * game's player; the live board is then the flipped initial board.
   * If the AI moves first the history is cleared, the board flipped, and the
   * AI plays at once unless that position is already over.
   */
  function NewGame(e: Engine, s: State, first: int): (r: Reply)
    ensures r.state.firstPlayerGame == first
  {
    var saved := SaveState(s.(firstPlayerGame := first, history := [], board := e.initBoard));
    var started := saved.(player := first, lastMove := None);
    if first == -1 then
      var flipped := started.(history := [], board := Flip(started.board));
      var status := StatusOf(e, flipped.board, flipped.player);
      if status == Ongoing then AiMoveLogic(e, flipped)
      else Reply(flipped.(board := Flip(flipped.board)), status)
    else
      Reply(started.(board := Flip(started.board)), StatusOf(e, started.board, started.player))
  }

  /** The action index of a Human request: n*x + y, Pass = n*n, or none if a coordinate is missing. */
  function RequestAction(n: PosNat, req: MoveRequest): (a: Option<int>)
    ensures a.None? <==> (req.x.None? || req.y.None?) && !req.pass
    ensures a.Some? && (req.x.None? || req.y.None?) ==> a.value == PassAction(n)
    ensures req.x.Some? && req.y.Some? ==> a == Some(Encode(n, Coord(req.x.value, req.y.value)))
  {
    if req.x.None? || req.y.None? then
      if req.pass then Some(PassAction(n)) else None
    else
      Some(n * req.x.value + req.y.value)
  }

  /**
   * `human_move`: rejected unless it is the Human's turn and the game goes on,
   * the request names an action, and that action's valid-move flag is set.
   * Otherwise the engine plays it for player 1 and the new state is saved.
   */
  function HumanMove(e: Engine, s: State, req: MoveRequest): (r: Result<Reply, ApiError>)
    ensures s.player != 1 || e.gameEnded(s.board, s.player).Some? ==> r == Err(NotYourTurnOrGameOver)
    ensures r.Ok? ==> Synced(r.value.state) && |r.value.state.history| == |s.history| + 1
    ensures r.Ok? ==> r.value.state.history[..|s.history|] == s.history
  {
    if s.player != 1 || StatusOf(e, s.board, s.player) != Ongoing then Err(NotYourTurnOrGameOver)
    else match RequestAction(e.n, req)
      case None => Err(InvalidCoordinates)
      case Some(a) =>
        match PyIndex(e.validMoves(s.board, 1), a)
        case None => Err(ActionOutOfRange)
        case Some(legal) =>
          if !legal then Err(IllegalMove)
          else
            var (b, p) := e.nextState(s.board, 1, a);
            var moved := SaveState(s.(board := b, player := p));
            var last := if a != PassAction(e.n) then Some(Coord(req.x.value, req.y.value)) else None;
            Ok(Reply(moved.(lastMove := last), StatusOf(e, b, p)))
  }

  /** The action the oracle picks for the AI (player -1) in the current position. */
  function OracleAction(e: Engine, s: State): nat
  {
    e.bestAction(e.canonicalForm(s.board, -1))
  }

  /**
   * `ai_move_logic`: the engine plays the oracle's action for player -1, the
   * move is recorded as its decoded cell (none for Pass) and the state saved.
   */
  function AiMoveLogic(e: Engine, s: State): (r: Reply)
    ensures Synced(r.state) && |r.state.history| == |s.history| + 1
    ensures r.state.history[..|s.history|] == s.history
    ensures r.state.firstPlayerGame == s.firstPlayerGame
  {
    var a := OracleAction(e, s);
    var (b, p) := e.nextState(s.board, -1, a);
    var last := if a != PassAction(e.n) then Some(Decode(e.n, a)) else None;
    Reply(SaveState(s.(board := b, player := p, lastMove := last)), StatusOf(e, b, p))
  }

  /** `ai_move`: only on the AI's turn. */
  function AiMove(e: Engine, s: State): (r: Result<Reply, ApiError>)
    ensures r.Err? <==> s.player != -1
  {
    if s.player != -1 then Err(NotAiTurn) else Ok(AiMoveLogic(e, s))
  }

  /** The history after an undo: one snapshot fewer at depth 2, two fewer from depth 3. */
  function UndoHistory(h: seq<Snapshot>): (u: seq<Snapshot>)
    requires |h| >= 2
    ensures |u| == if |h| == 2 then 1 else |h| - 2
    ensures u == h[..|u|]
  {
    if |h| == 2 then h[..1] else h[..|h| - 2]
  }

  /**
   * `undo_move`: rejected below depth 2; otherwise pops, restores board and
   * player from the new top snapshot, re-flipping the board only when one
   * snapshot is left and the Human moved first, and clears the last move.
   */
  function Undo(e: Engine, s: State): (r: Result<Reply, ApiError>)
    ensures r.Err? <==> |s.history| < 2
    ensures r.Ok? ==> |r.value.state.history| >= 1 && r.value.state.lastMove.None?
  {
    if |s.history| < 2 then Err(UndoUnavailable)
    else
      var h := UndoHistory(s.history);
      var top := h[|h| - 1];
      var b := if |h| == 1 && s.firstPlayerGame == 1 then Flip(top.board) else top.board;
      Ok(Reply(State(b, top.player, None, h, s.firstPlayerGame), StatusOf(e, b, top.player)))
  }
}
