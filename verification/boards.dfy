/**
 * Boards of the Othello session: an n-by-n grid of cells, each 0 (empty),
 * 1 (a Human disc, white) or -1 (an AI disc, black), stored row by row.
 */
module Boards {
  type Row = seq<int>
  type Board = seq<Row>

  /** np.flip(board, 0): the same rows in reverse order. */
  function Flip(b: Board): (r: Board)
    ensures |r| == |b|
    ensures forall i :: 0 <= i < |b| ==> r[i] == b[|b| - 1 - i]
  {
    if b == [] then [] else Flip(b[1..]) + [b[0]]
  }

  /** Flipping twice gives the board back: the orientation transform is an involution. */
  lemma {:induction false} FlipInvolution(b: Board)
    ensures Flip(Flip(b)) == b
  {
    var r := Flip(Flip(b));
    forall i | 0 <= i < |b|
      ensures r[i] == b[i]
    {
      assert r[i] == Flip(b)[|b| - 1 - i];
    }
  }

  /** Number of cells of `row` holding `v`. */
  function CountRow(row: Row, v: int): nat
  {
    if row == [] then 0 else (if row[0] == v then 1 else 0) + CountRow(row[1..], v)
  }

  /** np.sum(board == v): number of cells of the whole board holding `v`. */
  function Count(b: Board, v: int): nat
  {
    if b == [] then 0 else CountRow(b[0], v) + Count(b[1..], v)
  }

  lemma {:induction false} CountConcat(a: Board, b: Board, v: int)
    ensures Count(a + b, v) == Count(a, v) + Count(b, v)
  {
    if a == [] {
      assert a + b == b;
    } else {
      assert (a + b)[1..] == a[1..] + b;
      CountConcat(a[1..], b, v);
    }
  }

  /** Disc counts do not depend on the orientation of the board. */
  lemma {:induction false} CountFlip(b: Board, v: int)
    ensures Count(Flip(b), v) == Count(b, v)
  {
    if b != [] {
      CountFlip(b[1..], v);
      CountConcat(Flip(b[1..]), [b[0]], v);
      assert [b[0]][1..] == [];
    }
  }
}
