/**
 * Properties of the controller's transitions: what each request accepts and
 * rejects, what a committed request does to the history stack, and how undo
 * relates to the moves it takes back.
 */
module ControllerFacts {
  import opened Basics
  import opened Boards
  import opened Actions
  import opened GameEnd
  import opened Rules
  import opened Controller

  /**
   * A new game with the Human first (any first player other than -1) leaves one
   * snapshot, the unflipped initial board with the previous game's player, and
   * a live board that is that snapshot's board flipped.
   */
  lemma NewGameHumanFirst(e: Engine, s: State, first: int)
    requires first != -1
    ensures var t := NewGame(e, s, first).state;
      && t.history == [Snapshot(e.initBoard, s.player)]
      && t.player == first
      && t.lastMove.None?
      && t.board == Flip(t.history[0].board)
  {
  }

  /**
   * A new game with the AI first plays the oracle's move on the flipped initial
   * board and leaves a history of depth 1, holding only the state after that
   * move; undo is then unavailable.
   */
  lemma NewGameAiFirst(e: Engine, s: State)
    requires StatusOf(e, Flip(e.initBoard), -1) == Ongoing
    ensures var t := NewGame(e, s, -1).state;
      var start := Flip(e.initBoard);
      var a := e.bestAction(e.canonicalForm(start, -1));
      && (t.board, t.player) == e.nextState(start, -1, a)
      && t.history == [Snapshot(t.board, t.player)]
      && t.lastMove == (if a == PassAction(e.n) then None else Some(Decode(e.n, a)))
      && Undo(e, t) == Err(UndoUnavailable)
  {
  }

  /**
   * A new game with the AI first whose flipped initial board is already over:
   * the board is flipped back, the history is left empty and the AI is to move.
   */
  lemma NewGameAiFirstOver(e: Engine, s: State)
    requires StatusOf(e, Flip(e.initBoard), -1) != Ongoing
    ensures var r := NewGame(e, s, -1);
      && r.state.history == []
      && r.state.board == e.initBoard
      && r.state.player == -1
      && r.state.lastMove.None?
      && r.status != Ongoing
  {
    FlipInvolution(e.initBoard);
  }

  /** A Human move is accepted exactly when every guard of the handler passes. */
  lemma HumanMoveAccepted(e: Engine, s: State, req: MoveRequest)
    ensures HumanMove(e, s, req).Ok? <==>
      && s.player == 1
      && e.gameEnded(s.board, 1).None?
      && RequestAction(e.n, req).Some?
      && PyIndex(e.validMoves(s.board, 1), RequestAction(e.n, req).value) == Some(true)
  {
  }

  /** Each rejected Human move reports the first guard that failed. */
  lemma HumanMoveRejected(e: Engine, s: State, req: MoveRequest)
    requires s.player == 1 && e.gameEnded(s.board, 1).None?
    ensures RequestAction(e.n, req).None? ==> HumanMove(e, s, req) == Err(InvalidCoordinates)
    ensures RequestAction(e.n, req).Some? ==>
      var flag := PyIndex(e.validMoves(s.board, 1), RequestAction(e.n, req).value);
      && (flag.None? ==> HumanMove(e, s, req) == Err(ActionOutOfRange))
      && (flag == Some(false) ==> HumanMove(e, s, req) == Err(IllegalMove))
  {
  }

  /**
   * An accepted Human move plays action n*x + y (n*n for Pass) for player 1,
   * pushes exactly the new state, and records (x, y), or nothing for Pass.
   */
  lemma HumanMoveCommits(e: Engine, s: State, req: MoveRequest)
    requires HumanMove(e, s, req).Ok?
    ensures var t := HumanMove(e, s, req).value.state;
      var a := if req.x.Some? && req.y.Some? then Encode(e.n, Coord(req.x.value, req.y.value))
               else PassAction(e.n);
      && (t.board, t.player) == e.nextState(s.board, 1, a)
      && t.history == s.history + [Snapshot(t.board, t.player)]
      && t.lastMove == (if a == PassAction(e.n) then None else Some(Coord(req.x.value, req.y.value)))
      && t.firstPlayerGame == s.firstPlayerGame
  {
  }

  /**
   * Coordinates are not range-checked: a column past the board's edge selects the
   * first cell of the next row. Both requests are judged and played alike; only
   * the recorded last move differs.
   */
  lemma OffBoardColumnAliases(e: Engine, s: State, x: int, y: int, pass: bool)
    ensures var wide := HumanMove(e, s, MoveRequest(Some(x), Some(y + e.n), pass));
      var next := HumanMove(e, s, MoveRequest(Some(x + 1), Some(y), pass));
      && (wide.Ok? <==> next.Ok?)
      && (wide.Err? ==> wide == next)
      && (wide.Ok? ==> wide.value.state.(lastMove := None) == next.value.state.(lastMove := None))
      && (wide.Ok? && Encode(e.n, Coord(x + 1, y)) != PassAction(e.n) ==>
            wide.value.state.lastMove == Some(Coord(x, y + e.n)))
  {
    assert Encode(e.n, Coord(x, y + e.n)) == Encode(e.n, Coord(x + 1, y));
  }

  /**
   * An accepted AI move plays the oracle's action for player -1, pushes exactly
   * the new state, and records (a / n, a % n), or nothing for Pass; the
   * recorded cell encodes back to the action, and lies on the board when the
   * action is below Pass.
   */
  lemma AiMoveCommits(e: Engine, s: State)
    requires s.player == -1
    ensures AiMove(e, s).Ok?
    ensures var t := AiMove(e, s).value.state;
      var a := OracleAction(e, s);
      && (t.board, t.player) == e.nextState(s.board, -1, a)
      && t.history == s.history + [Snapshot(t.board, t.player)]
      && t.lastMove == (if a == PassAction(e.n) then None else Some(Decode(e.n, a)))
      && (t.lastMove.Some? ==> Encode(e.n, t.lastMove.value) == a)
      && (a < PassAction(e.n) ==> OnBoard(e.n, t.lastMove.value))
      && t.firstPlayerGame == s.firstPlayerGame
  {
    var a := OracleAction(e, s);
    EncodeDecode(e.n, a);
  }

  /**
   * An accepted undo restores the new top snapshot's player and board; the
   * board is flipped exactly when a single snapshot remains and the Human
   * moved first, and at every other depth it is the snapshot's own board.
   */
  lemma UndoRestores(e: Engine, s: State)
    requires |s.history| >= 2
    ensures var t := Undo(e, s).value.state;
      var top := t.history[|t.history| - 1];
      && t.history == s.history[..if |s.history| == 2 then 1 else |s.history| - 2]
      && t.player == top.player
      && t.lastMove.None?
      && t.firstPlayerGame == s.firstPlayerGame
      && (if |t.history| == 1 && s.firstPlayerGame == 1 then t.board == Flip(top.board)
          else t.board == top.board && Synced(t))
  {
  }

  /**
   * Undo takes back a Human move and the AI's reply together: from any state
   * whose live board and player are its top snapshot, the history, board and
   * player come back, unless that snapshot is the only one of a Human-first game.
   */
  lemma UndoTakesBackPair(e: Engine, s: State, req: MoveRequest)
    requires Synced(s) && (|s.history| >= 2 || s.firstPlayerGame != 1)
    requires HumanMove(e, s, req).Ok?
    requires AiMove(e, HumanMove(e, s, req).value.state).Ok?
    ensures var t := Undo(e, AiMove(e, HumanMove(e, s, req).value.state).value.state).value.state;
      t.history == s.history && t.board == s.board && t.player == s.player && t.lastMove.None?
  {
    var s1 := HumanMove(e, s, req).value.state;
    var s2 := AiMove(e, s1).value.state;
    assert s2.history[..|s.history|] == s.history;
  }

  /**
   * In a Human-first game, undoing the first Human move and the AI's reply
   * gives back the board the new game left live (the flip is re-applied), but
   * the player stored in the initial snapshot: the one to move before the new
   * game was started, not necessarily the Human.
   */
  lemma UndoToStartOfHumanFirstGame(e: Engine, s: State, req: MoveRequest)
    requires HumanMove(e, NewGame(e, s, 1).state, req).Ok?
    requires AiMove(e, HumanMove(e, NewGame(e, s, 1).state, req).value.state).Ok?
    ensures var g := NewGame(e, s, 1).state;
      var t := Undo(e, AiMove(e, HumanMove(e, g, req).value.state).value.state).value.state;
      && t.history == g.history
      && t.board == g.board
      && t.player == s.player
      && g.player == 1
  {
    var g := NewGame(e, s, 1).state;
    var s1 := HumanMove(e, g, req).value.state;
    var s2 := AiMove(e, s1).value.state;
    assert s2.history[..1] == g.history;
  }

  /** A request the frontend can issue between undos. */
  datatype Move = HumanPlays(req: MoveRequest) | AiPlays

  function Step(e: Engine, s: State, m: Move): Result<Reply, ApiError>
  {
    match m
    case HumanPlays(req) => HumanMove(e, s, req)
    case AiPlays => AiMove(e, s)
  }

  /** The state after a sequence of moves, and how many of them were accepted. */
  function Play(e: Engine, s: State, ms: seq<Move>): (State, nat)
    decreases |ms|
  {
    if ms == [] then (s, 0)
    else
      var res := Step(e, s, ms[0]);
      var (t, k) := Play(e, After(res, s), ms[1..]);
      (t, k + if res.Ok? then 1 else 0)
  }

  /**
   * Without undo, the history only grows: its depth is the starting depth plus
   * the number of accepted moves, and the earlier snapshots are untouched.
   */
  lemma {:induction false} PlayDepth(e: Engine, s: State, ms: seq<Move>)
    ensures var (t, k) := Play(e, s, ms);
      && k <= |ms|
      && |t.history| == |s.history| + k
      && t.history[..|s.history|] == s.history
      && (k > 0 ==> Synced(t))
      && (k == 0 ==> t == s)
    decreases |ms|
  {
    if ms != [] {
      var res := Step(e, s, ms[0]);
      var s1 := After(res, s);
      PlayDepth(e, s1, ms[1..]);
      var (t, k) := Play(e, s1, ms[1..]);
      if res.Ok? {
        assert Synced(s1);
        assert |s1.history| == |s.history| + 1 && s1.history[..|s.history|] == s.history;
        assert t.history[..|s.history|] == t.history[..|s1.history|][..|s.history|];
      }
    }
  }
}
