/**
 * The collaborators the controller consumes but does not define: the Othello
 * rules engine (`OthelloGame`) and the move oracle (network-guided tree search
 * taking the arg-max at temperature 0). They are kept uninterpreted: the model
 * assumes nothing about them beyond their signatures, except that the engine
 * built for size n has size n (App.Session.Valid).
 */
module Rules {
  import opened Basics
  import opened Boards
  import opened Actions

  datatype Engine = Engine(
    /** the board size `game.n` */
    n: PosNat,
    /** `getInitBoard()` */
    initBoard: Board,
    /** `getValidMoves(board, player)`: one flag per action index, Pass last */
    validMoves: (Board, int) -> seq<bool>,
    /** `getNextState(board, player, action)`: the next board and player to move */
    nextState: (Board, int, int) -> (Board, int),
    /** `getGameEnded(board, player)`: None while the game goes on */
    gameEnded: (Board, int) -> Option<int>,
    /** `getCanonicalForm(board, player)` */
    canonicalForm: (Board, int) -> Board,
    /** the oracle's chosen action on a canonical board */
    bestAction: Board -> nat)
}
