/**
 * The Flask application's module-level game state as one object: the engine
 * (`game`, with its oracle), the live board, the player to move, the last move,
 * the history stack and the first player of the current game. Every handler is
 * a method that updates these fields in place and is proved to perform the
 * corresponding transition of module Controller.
 */
module App {
  import opened Basics
  import opened Boards
  import opened Actions
  import opened GameEnd
  import opened Rules
  import opened Controller

  class Session {
    /** Builds the engine and oracle for a board size (`OthelloGame(n)` with its network and search). */
    const factory: PosNat -> Engine

    var engine: Engine
    var board: Board
    var player: int
    var lastMove: Option<Coord>
    var history: seq<Snapshot>
    var firstPlayerGame: int

    /** The factory builds an engine of the size it is asked for. */
    ghost predicate Valid()
    {
      forall k: PosNat :: factory(k).n == k
    }

    /** The controller state held in the fields. */
    function Current(): State
      reads this
    {
      State(board, player, lastMove, history, firstPlayerGame)
    }

    /** The module's initial values followed by `init_game_and_ai(8)`. */
    constructor (factory: PosNat -> Engine)
      requires forall k: PosNat :: factory(k).n == k
      ensures Valid() && engine == factory(8)
      ensures Current() == State(engine.initBoard, 1, None, [Snapshot(engine.initBoard, 1)], 1)
    {
      this.factory := factory;
      player := 1;
      lastMove := None;
      firstPlayerGame := 1;
      new;
      InitGameAndAi(8);
    }

    /** `save_state`: push the live board and player onto the history. */
    method SaveState()
      modifies this
      ensures engine == old(engine)
      ensures Current() == Controller.SaveState(old(Current()))
    {
      history := history + [Snapshot(board, player)];
    }

    /**
     * `init_game_and_ai(n)`: rebuild the engine for size n, clear the history
     * and save the initial board with whatever player is current.
     */
    method InitGameAndAi(n: PosNat)
      modifies this
      ensures engine == factory(n)
      ensures Current() == old(Current()).(board := engine.initBoard, history := [Snapshot(engine.initBoard, old(player))])
    {
      engine := factory(n);
      history := [];
      board := engine.initBoard;
      SaveState();
    }

    /**
     * `new_game`: a missing size means 8 and a missing first player means the
     * Human; rebuild the engine only when the size changes, then reset the
     * game; if the AI moves first it plays at once.
     */
    method NewGame(requestedSize: Option<PosNat>, requestedFirst: Option<int>) returns (status: Status)
      requires Valid()
      modifies this
      ensures var size := if requestedSize.Some? then requestedSize.value else 8;
        && Valid() && engine.n == size
        && engine == if size != old(engine.n) then factory(size) else old(engine)
      ensures var first := if requestedFirst.Some? then requestedFirst.value else 1;
        Reply(Current(), status) == Controller.NewGame(engine, old(Current()), first)
    {
      var size: PosNat := if requestedSize.Some? then requestedSize.value else 8;
      var first := if requestedFirst.Some? then requestedFirst.value else 1;
      firstPlayerGame := first;
      if size != engine.n {
        InitGameAndAi(size);
      }
      history := [];
      board := engine.initBoard;
      SaveState();
      player := first;
      lastMove := None;
      if player == -1 {
        history := [];
        board := Flip(board);
        status := StatusOf(engine, board, player);
        if status == Ongoing {
          status := AiMoveLogic();
          return;
        }
      }
      status := StatusOf(engine, board, player);
      board := Flip(board);
    }

    /** `human_move`: check the turn, encode the request, check legality, then play and save. */
    method HumanMove(req: MoveRequest) returns (r: Result<Status, ApiError>)
      modifies this
      ensures engine == old(engine)
      ensures Current() == After(Controller.HumanMove(engine, old(Current()), req), old(Current()))
      ensures r == Answer(Controller.HumanMove(engine, old(Current()), req))
    {
      if player != 1 || StatusOf(engine, board, player) != Ongoing {
        return Err(NotYourTurnOrGameOver);
      }
      var action: int;
      if req.x.None? || req.y.None? {
        if req.pass {
          action := PassAction(engine.n);
        } else {
          return Err(InvalidCoordinates);
        }
      } else {
        action := engine.n * req.x.value + req.y.value;
      }
      var flag := PyIndex(engine.validMoves(board, 1), action);
      if flag.None? {
        return Err(ActionOutOfRange);
      }
      if !flag.value {
        return Err(IllegalMove);
      }
      var (b, p) := engine.nextState(board, 1, action);
      board, player := b, p;
      SaveState();
      if action != PassAction(engine.n) {
        lastMove := Some(Coord(req.x.value, req.y.value));
      } else {
        lastMove := None;
      }
      r := Ok(StatusOf(engine, board, player));
    }

    /** `ai_move_logic`: play the oracle's action for the AI, record it, save. */
    method AiMoveLogic() returns (status: Status)
      modifies this
      ensures engine == old(engine)
      ensures Reply(Current(), status) == Controller.AiMoveLogic(engine, old(Current()))
    {
      var canonical := engine.canonicalForm(board, -1);
      var action := engine.bestAction(canonical);
      var (b, p) := engine.nextState(board, -1, action);
      board, player := b, p;
      if action != PassAction(engine.n) {
        lastMove := Some(Coord(action / engine.n, action % engine.n));
      } else {
        lastMove := None;
      }
      status := StatusOf(engine, board, player);
      SaveState();
    }

    /** `ai_move`: only on the AI's turn. */
    method AiMove() returns (r: Result<Status, ApiError>)
      modifies this
      ensures engine == old(engine)
      ensures Current() == After(Controller.AiMove(engine, old(Current())), old(Current()))
      ensures r == Answer(Controller.AiMove(engine, old(Current())))
    {
      if player != -1 {
        return Err(NotAiTurn);
      }
      var status := AiMoveLogic();
      r := Ok(status);
    }

    /** `undo_move`: pop once at depth 2, twice from depth 3, then restore the top snapshot. */
    method UndoMove() returns (r: Result<Status, ApiError>)
      modifies this
      ensures engine == old(engine)
      ensures Current() == After(Controller.Undo(engine, old(Current())), old(Current()))
      ensures r == Answer(Controller.Undo(engine, old(Current())))
    {
      if |history| < 2 {
        return Err(UndoUnavailable);
      }
      if |history| == 2 {
        history := history[..|history| - 1];
      } else if |history| >= 3 {
        history := history[..|history| - 1];
        history := history[..|history| - 1];
      }
      var top := history[|history| - 1];
      var restored := top.board;
      if |history| == 1 && firstPlayerGame == 1 {
        restored := Flip(restored);
      }
      board := restored;
      player := top.player;
      lastMove := None;
      r := Ok(StatusOf(engine, board, player));
    }

    /** `get_api_moves`: the cells whose valid-move flag is set, Pass left out. */
    method ApiMoves(b: Board, p: int) returns (moves: seq<Coord>)
      ensures moves == MoveList(engine.n, engine.validMoves(b, p))
    {
      var n, valids := engine.n, engine.validMoves(b, p);
      moves := [];
      var i := 0;
      while i < |valids| - 1
        invariant 0 <= i <= |valids| && (valids != [] ==> i <= |valids| - 1)
        invariant moves == MovesUpTo(n, valids, i)
      {
        if valids[i] {
          moves := moves + [Decode(n, i)];
        }
        i := i + 1;
      }
      assert valids != [] ==> i == |valids| - 1;
    }
  }
}
