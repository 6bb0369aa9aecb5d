/** The chess board shared by the browser's move-candidate generator and the server's
    move validator: an 8x8 grid of cells, row 0 at the top, each empty or holding a piece. */
module ChessBoard {

  datatype Color = White | Black

  datatype Kind = Pawn | Knight | Bishop | Rook | Queen | King

  /** The two-character piece code ("wP", "bK", ...) as a tagged value. */
  datatype Piece = Piece(color: Color, kind: Kind)

  /** The empty string of the source becomes Empty. */
  datatype Cell = Empty | Holds(piece: Piece)

  datatype Square = Square(r: int, c: int)

  type Board = seq<seq<Cell>>

  predicate ValidBoard(b: Board)
  {
    |b| == 8 && forall i :: 0 <= i < 8 ==> |b[i]| == 8
  }

  predicate OnBoard(r: int, c: int)
  {
    0 <= r < 8 && 0 <= c < 8
  }

  function Abs(x: int): nat
  {
    if x < 0 then -x else x
  }

  function Sign(x: int): int
  {
    if x < 0 then -1 else if x == 0 then 0 else 1
  }

  /** Chebyshev distance of a displacement: the number of king steps it takes. */
  function Distance(dr: int, dc: int): nat
  {
    if Abs(dr) < Abs(dc) then Abs(dc) else Abs(dr)
  }

  function Opponent(c: Color): Color
  {
    if c == White then Black else White
  }

  /** The row direction in which pawns of colour c advance: White towards row 0. */
  function Forward(c: Color): int
  {
    if c == White then -1 else 1
  }

  predicate OwnedBy(cell: Cell, c: Color)
  {
    cell.Holds? && cell.piece.color == c
  }

  /** A displacement along a rank, a file or a diagonal. */
  predicate IsLine(dr: int, dc: int)
  {
    dr == 0 || dc == 0 || Abs(dr) == Abs(dc)
  }

  predicate EmptyAt(b: Board, r: int, c: int)
    requires ValidBoard(b)
  {
    OnBoard(r, c) && b[r][c] == Empty
  }

  /** The square s steps from (r1, c1) towards a displacement (dr, dc), one king step at a time,
      is on the board and empty. */
  predicate StepEmpty(b: Board, r1: int, c1: int, dr: int, dc: int, s: int)
    requires ValidBoard(b)
  {
    EmptyAt(b, r1 + s * Sign(dr), c1 + s * Sign(dc))
  }

  /** Every square strictly between (r1, c1) and (r2, c2) is empty. Meant for displacements
      that satisfy IsLine, which are the only ones either game ever asks about. */
  predicate PathClear(b: Board, r1: int, c1: int, r2: int, c2: int)
    requires ValidBoard(b)
  {
    var dr, dc := r2 - r1, c2 - c1;
    forall s :: 0 < s < Distance(dr, dc) ==> StepEmpty(b, r1, c1, dr, dc, s)
  }

  /** On a line every square strictly between two on-board squares is on the board, and the
      non-zero row or column displacement equals the line's length. */
  lemma {:induction false} BetweenIsOnBoard(r1: int, c1: int, r2: int, c2: int, s: int)
    requires OnBoard(r1, c1) && OnBoard(r2, c2) && IsLine(r2 - r1, c2 - c1)
    requires 0 < s < Distance(r2 - r1, c2 - c1)
    ensures OnBoard(r1 + s * Sign(r2 - r1), c1 + s * Sign(c2 - c1))
  {
    var dr, dc := r2 - r1, c2 - c1;
    var n := Distance(dr, dc);
    assert dr != 0 ==> Abs(dr) == n;
    assert dc != 0 ==> Abs(dc) == n;
    if dr > 0 { assert s * Sign(dr) == s; } else if dr < 0 { assert s * Sign(dr) == -s; } else { assert s * Sign(dr) == 0; }
    if dc > 0 { assert s * Sign(dc) == s; } else if dc < 0 { assert s * Sign(dc) == -s; } else { assert s * Sign(dc) == 0; }
  }

  /** One occupied square strictly between the ends blocks the path. */
  lemma BlockedPath(b: Board, r1: int, c1: int, r2: int, c2: int, s: int)
    requires ValidBoard(b) && 0 < s < Distance(r2 - r1, c2 - c1)
    requires !StepEmpty(b, r1, c1, r2 - r1, c2 - c1, s)
    ensures !PathClear(b, r1, c1, r2, c2)
  {
  }
}
