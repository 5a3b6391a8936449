/**
 * Action indices. A move on an n-by-n board is one index: n*x + y for the
 * cell in row x and column y, and n*n for Pass.
 */
module Actions {
  import opened Basics

  /** A board size; the engine is only ever built for a positive size. */
  type PosNat = n: nat | n > 0 witness 1

  /** The {x, y} pair the controller reports for a move. */
  datatype Coord = Coord(x: int, y: int)

  /** The index reserved for Pass (the last entry of the valid-move vector). */
  function PassAction(n: PosNat): nat
  {
    n * n
  }

  predicate OnBoard(n: PosNat, c: Coord)
  {
    0 <= c.x < n && 0 <= c.y < n
  }

  /** `game.n * x + y`, the index the Human move handler computes. */
  function Encode(n: PosNat, c: Coord): int
  {
    n * c.x + c.y
  }

  /** `(a // n, a % n)`, the coordinates the AI move handler reports. */
  function Decode(n: PosNat, a: nat): (c: Coord)
    ensures c.x >= 0 && 0 <= c.y < n
  {
    Coord(a / n, a % n)
  }

  /** Decoding undoes encoding for every cell of the board, and no cell encodes to Pass. */
  lemma DecodeEncode(n: PosNat, c: Coord)
    requires OnBoard(n, c)
    ensures 0 <= Encode(n, c) < PassAction(n)
    ensures Decode(n, Encode(n, c)) == c
  {
    var a := n * c.x + c.y;
    assert n * c.x <= n * (n - 1) by { MulMonotone(n, c.x, n - 1); }
    assert a < n * n;
    DivModUnique(n, a, c.x, c.y);
  }

  /** Encoding undoes decoding, and every index below Pass decodes to a cell of the board. */
  lemma EncodeDecode(n: PosNat, a: nat)
    ensures Encode(n, Decode(n, a)) == a
    ensures a < PassAction(n) <==> OnBoard(n, Decode(n, a))
  {
    var q, r := a / n, a % n;
    assert n * q + r == a;
    if q < n {
      MulMonotone(n, q, n - 1);
    } else {
      MulMonotone(n, n, q);
    }
  }

  lemma MulMonotone(n: nat, p: int, q: int)
    requires p <= q
    ensures n * p <= n * q
  {
    assert n * q - n * p == n * (q - p);
  }

  lemma DivModUnique(n: PosNat, a: int, q: int, r: int)
    requires 0 <= r < n && a == n * q + r
    ensures a / n == q && a % n == r
  {
    var q', r' := a / n, a % n;
    assert n * q' + r' == a;
    assert n * (q - q') == r' - r;
    if q > q' {
      MulMonotone(n, 1, q - q');
      assert false;
    } else if q < q' {
      MulMonotone(n, 1, q' - q);
      assert false;
    }
  }

  /** Python's `s[i]`: negative indices count from the end; anything else raises IndexError. */
  function PyIndex<T>(s: seq<T>, i: int): (r: Option<T>)
    ensures r.Some? <==> -|s| <= i < |s|
    ensures r.Some? ==> r.value == s[if i < 0 then i + |s| else i]
  {
    if 0 <= i < |s| then Some(s[i])
    else if -|s| <= i < 0 then Some(s[i + |s|])
    else None
  }

  /** Flag `i` of a valid-move vector is present and set. */
  predicate Flag(v: seq<bool>, i: int)
  {
    0 <= i < |v| && v[i]
  }

  /** The cells of the set flags among the first k, in index order, as the handler's loop collects them. */
  function MovesUpTo(n: PosNat, v: seq<bool>, k: nat): seq<Coord>
    requires k <= |v|
  {
    if k == 0 then [] else MovesUpTo(n, v, k - 1) + (if v[k - 1] then [Decode(n, k - 1)] else [])
  }

  /** The move list: `range(len(valids) - 1)` filtered by the flag, each index decoded. */
  function MoveList(n: PosNat, v: seq<bool>): seq<Coord>
  {
    if v == [] then [] else MovesUpTo(n, v, |v| - 1)
  }

  /** A collected cell is the decoding of a set flag below k, and every such flag is collected. */
  lemma {:induction false} MovesUpToMember(n: PosNat, v: seq<bool>, k: nat, c: Coord)
    requires k <= |v|
    ensures c in MovesUpTo(n, v, k) <==> exists i :: 0 <= i < k && v[i] && Decode(n, i) == c
  {
    if k > 0 {
      MovesUpToMember(n, v, k - 1, c);
      var prev := MovesUpTo(n, v, k - 1);
      var found := if v[k - 1] then [Decode(n, k - 1)] else [];
      assert MovesUpTo(n, v, k) == prev + found;
      assert c in prev + found <==> c in prev || c in found;
    }
  }

  /**
   * For a valid-move vector of the engine's length n*n + 1, the move list holds
   * exactly the cells whose flag is set, and never Pass.
   */
  lemma MoveListExact(n: PosNat, v: seq<bool>, c: Coord)
    requires |v| == PassAction(n) + 1
    ensures c in MoveList(n, v) <==> OnBoard(n, c) && Flag(v, Encode(n, c))
  {
    MovesUpToMember(n, v, |v| - 1, c);
    if c in MoveList(n, v) {
      var i :| 0 <= i < |v| - 1 && v[i] && Decode(n, i) == c;
      EncodeDecode(n, i);
    }
    if OnBoard(n, c) && Flag(v, Encode(n, c)) {
      DecodeEncode(n, c);
      var i: nat := Encode(n, c);
      assert 0 <= i < |v| - 1 && v[i] && Decode(n, i) == c;
    }
  }

  /** The j-th collected cell decodes an index below k, and the cells are in increasing index order. */
  lemma {:induction false} MovesUpToOrdered(n: PosNat, v: seq<bool>, k: nat, p: nat, q: nat)
    requires k <= |v| && p <= q < |MovesUpTo(n, v, k)|
    ensures 0 <= Encode(n, MovesUpTo(n, v, k)[q]) < k
    ensures p < q ==> Encode(n, MovesUpTo(n, v, k)[p]) < Encode(n, MovesUpTo(n, v, k)[q])
  {
    var prev := MovesUpTo(n, v, k - 1);
    if q < |prev| {
      MovesUpToOrdered(n, v, k - 1, p, q);
    } else {
      EncodeDecode(n, k - 1);
      assert MovesUpTo(n, v, k)[q] == Decode(n, k - 1);
      if p < q {
        MovesUpToOrdered(n, v, k - 1, p, p);
      }
    }
  }

  /** The move list is in strictly increasing action-index order, so it has no repeats. */
  lemma MoveListOrdered(n: PosNat, v: seq<bool>, p: nat, q: nat)
    requires p < q < |MoveList(n, v)|
    ensures Encode(n, MoveList(n, v)[p]) < Encode(n, MoveList(n, v)[q])
  {
    MovesUpToOrdered(n, v, |v| - 1, p, q);
  }
}
