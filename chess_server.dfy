/** The server's chess rules (server.py): the starting position, the colour assignment, the
    clear-path test and the authoritative move validator, which updates the stored board and
    turn in place and reports a winner when a king is taken. */
module ChessServer {
  import opened Common
  import opened ChessBoard
  import ChessClient

  /** Back-rank pieces from column 0 to column 7. */
  const BackRank: seq<Kind> := [Rook, Knight, Bishop, Queen, King, Bishop, Knight, Rook]

  /** The starting position: black on rows 0 and 1, white on rows 6 and 7. */
  function StartCell(r: int, c: int): Cell
    requires OnBoard(r, c)
  {
    if r == 0 then Holds(Piece(Black, BackRank[c]))
    else if r == 1 then Holds(Piece(Black, Pawn))
    else if r == 6 then Holds(Piece(White, Pawn))
    else if r == 7 then Holds(Piece(White, BackRank[c]))
    else Empty
  }

  /** The board part of init_chess_state: an empty 8x8 grid, then the pawn rows, then the back
      ranks. */
  method InitChessBoard() returns (board: Board)
    ensures ValidBoard(board)
    ensures forall r, c :: OnBoard(r, c) ==> board[r][c] == StartCell(r, c)
  {
    board := seq(8, _ => seq(8, _ => Empty));
    for c := 0 to 8
      invariant ValidBoard(board)
      invariant forall r, c' :: OnBoard(r, c') ==>
        board[r][c'] == if (r == 1 || r == 6) && c' < c then StartCell(r, c') else Empty
    {
      board := board[1 := board[1][c := Holds(Piece(Black, Pawn))]];
      board := board[6 := board[6][c := Holds(Piece(White, Pawn))]];
    }
    for c := 0 to 8
      invariant ValidBoard(board)
      invariant forall r, c' :: OnBoard(r, c') ==>
        board[r][c'] == if r == 1 || r == 6 || ((r == 0 || r == 7) && c' < c) then StartCell(r, c') else Empty
    {
      var kind := BackRank[c];
      board := board[0 := board[0][c := Holds(Piece(Black, kind))]];
      board := board[7 := board[7][c := Holds(Piece(White, kind))]];
    }
  }

  /** The starting position has one king per side, on column 4 of its back rank, and a full
      row of pawns in front of each back rank. */
  lemma StartingPosition(r: int, c: int)
    requires OnBoard(r, c)
    ensures StartCell(r, c) == Holds(Piece(White, King)) <==> r == 7 && c == 4
    ensures StartCell(r, c) == Holds(Piece(Black, King)) <==> r == 0 && c == 4
    ensures OwnedBy(StartCell(r, c), White) <==> r >= 6
    ensures OwnedBy(StartCell(r, c), Black) <==> r <= 1
  {
  }

  /** The colour part of init_chess_state: the first player plays white, the second black. */
  function ColorAssignment(players: seq<Sid>): (colorOf: map<Sid, Color>)
    ensures forall p :: p in colorOf <==> p in players[..if |players| < 2 then |players| else 2]
    ensures |players| >= 2 ==> colorOf[players[1]] == Black
    ensures |players| >= 1 && (|players| == 1 || players[0] != players[1]) ==> colorOf[players[0]] == White
    ensures forall a, a' :: a in colorOf && a' in colorOf && colorOf[a] == colorOf[a'] ==> a == a'
  {
    var first: map<Sid, Color> := if |players| >= 1 then map[players[0] := White] else map[];
    if |players| >= 2 then first[players[1] := Black] else first
  }

  /** clear_path: the same walk as the client's, but with the step computed by Python's floor
      division dr // steps, which Dafny's `/` matches for the positive divisor. */
  method ClearPath(b: Board, r1: int, c1: int, r2: int, c2: int) returns (clear: bool)
    requires ValidBoard(b) && OnBoard(r1, c1) && OnBoard(r2, c2)
    requires IsLine(r2 - r1, c2 - c1)
    ensures clear == PathClear(b, r1, c1, r2, c2)
  {
    var dr, dc := r2 - r1, c2 - c1;
    var steps := Distance(dr, dc);
    if steps == 0 {
      return true;
    }
    var sr, sc := dr / steps, dc / steps;
    LineStepIsSign(dr, dc);
    for s := 1 to steps
      invariant forall t :: 0 < t < s ==> StepEmpty(b, r1, c1, dr, dc, t)
    {
      BetweenIsOnBoard(r1, c1, r2, c2, s);
      var rr, cc := r1 + sr * s, c1 + sc * s;
      assert rr == r1 + s * Sign(dr) && cc == c1 + s * Sign(dc);
      if b[rr][cc] != Empty {
        BlockedPath(b, r1, c1, r2, c2, s);
        return false;
      }
      assert StepEmpty(b, r1, c1, dr, dc, s);
    }
    return true;
  }

  /** On a line the floor-divided step is the sign of each displacement, so both clear-path
      routines visit the same squares. */
  lemma LineStepIsSign(dr: int, dc: int)
    requires IsLine(dr, dc) && Distance(dr, dc) > 0
    ensures dr / Distance(dr, dc) == Sign(dr) && dc / Distance(dr, dc) == Sign(dc)
  {
    var n: int := Distance(dr, dc);
    if dr == n { assert dr / n == 1; } else if dr == -n { assert dr / n == -1; } else { assert dr == 0; }
    if dc == n { assert dc / n == 1; } else if dc == -n { assert dc / n == -1; } else { assert dc == 0; }
  }

  /** The row a pawn of colour c starts on. */
  function PawnRow(c: Color): int
  {
    if c == White then 6 else 1
  }

  /** The piece-movement test of apply_chess_move for piece p on (r1, c1) going to (r2, c2). */
  predicate ServerGeometry(b: Board, p: Piece, r1: int, c1: int, r2: int, c2: int)
    requires ValidBoard(b) && OnBoard(r1, c1) && OnBoard(r2, c2)
  {
    var dr, dc := r2 - r1, c2 - c1;
    var dir := Forward(p.color);
    match p.kind
    case Pawn =>
      (dc == 0 && dr == dir && b[r2][c2] == Empty)
      || (Abs(dc) == 1 && dr == dir && b[r2][c2].Holds? && b[r2][c2].piece.color != p.color)
      || (dc == 0 && ((r1 == 6 && p.color == White) || (r1 == 1 && p.color == Black)) && dr == 2 * dir
          && b[r2][c2] == Empty && b[r1 + dir][c1] == Empty)
    case Knight => (Abs(dr) == 2 && Abs(dc) == 1) || (Abs(dr) == 1 && Abs(dc) == 2)
    case Bishop => Abs(dr) == Abs(dc) && PathClear(b, r1, c1, r2, c2)
    case Rook => (dr == 0 || dc == 0) && PathClear(b, r1, c1, r2, c2)
    case Queen => (Abs(dr) == Abs(dc) || dr == 0 || dc == 0) && PathClear(b, r1, c1, r2, c2)
    case King => Distance(dr, dc) == 1
  }

  /** The pawn's two-square advance from its starting row over an empty square onto an empty
      square. */
  predicate PawnDoubleStep(b: Board, p: Piece, r1: int, c1: int, r2: int, c2: int)
    requires ValidBoard(b) && OnBoard(r1, c1) && OnBoard(r2, c2)
  {
    p.kind == Pawn && c2 == c1 && r1 == PawnRow(p.color) && r2 == r1 + 2 * Forward(p.color)
    && b[r2][c2] == Empty && b[r1 + Forward(p.color)][c1] == Empty
  }

  /** The server's geometry is the client's plus the pawn double step, and nothing else. */
  lemma ServerGeometryExtendsClient(b: Board, p: Piece, r1: int, c1: int, r2: int, c2: int)
    requires ValidBoard(b) && OnBoard(r1, c1) && OnBoard(r2, c2)
    ensures ServerGeometry(b, p, r1, c1, r2, c2)
        <==> ChessClient.ClientGeometry(b, p, r1, c1, r2, c2) || PawnDoubleStep(b, p, r1, c1, r2, c2)
  {
  }

  /** The piece-movement part of apply_chess_move, branch by branch. */
  method CheckGeometry(b: Board, piece: Piece, r1: int, c1: int, r2: int, c2: int) returns (legal: bool)
    requires ValidBoard(b) && OnBoard(r1, c1) && OnBoard(r2, c2)
    ensures legal == ServerGeometry(b, piece, r1, c1, r2, c2)
  {
    var color, target := piece.color, b[r2][c2];
    var dr, dc := r2 - r1, c2 - c1;
    legal := false;
    if piece.kind == Pawn {
      var dir := if color == White then -1 else 1;
      if dc == 0 && dr == dir && target == Empty {
        legal := true;
      }
      if Abs(dc) == 1 && dr == dir && target.Holds? && target.piece.color != color {
        legal := true;
      }
      if dc == 0 && ((r1 == 6 && color == White) || (r1 == 1 && color == Black)) && dr == 2 * dir && target == Empty {
        var mid := r1 + dir;
        if b[mid][c1] == Empty {
          legal := true;
        }
      }
    } else if piece.kind == Knight {
      if (Abs(dr) == 2 && Abs(dc) == 1) || (Abs(dr) == 1 && Abs(dc) == 2) {
        legal := true;
      }
    } else if piece.kind == Bishop {
      if Abs(dr) == Abs(dc) {
        legal := ClearPath(b, r1, c1, r2, c2);
      }
    } else if piece.kind == Rook {
      if dr == 0 || dc == 0 {
        legal := ClearPath(b, r1, c1, r2, c2);
      }
    } else if piece.kind == Queen {
      if Abs(dr) == Abs(dc) || dr == 0 || dc == 0 {
        legal := ClearPath(b, r1, c1, r2, c2);
      }
    } else if piece.kind == King {
      if Distance(dr, dc) == 1 {
        legal := true;
      }
    }
  }

  /** The winner loop of apply_chess_move: the last player whose colour is c. */
  method FindWinner(players: seq<Sid>, colorOf: map<Sid, Color>, c: Color) returns (winner: Option<Sid>)
    ensures winner == LastOfColor(players, colorOf, c)
  {
    winner := None;
    for i := 0 to |players|
      invariant winner == LastOfColor(players[..i], colorOf, c)
    {
      assert players[..i + 1][..i] == players[..i];
      if players[i] in colorOf && colorOf[players[i]] == c {
        winner := Some(players[i]);
      }
    }
    assert players[..|players|] == players;
  }

  /** The reasons apply_chess_move gives for refusing a move ('out', 'no piece', 'not yours',
      'not your turn', 'own capture', 'illegal'). */
  datatype MoveError = OutOfRange | NoPiece | NotYours | NotYourTurn | OwnCapture | Illegal

  /** Every condition the server demands of a move. */
  predicate Permitted(b: Board, turn: Color, colorOf: map<Sid, Color>, sid: Sid, r1: int, c1: int, r2: int, c2: int)
    requires ValidBoard(b)
  {
    && OnBoard(r1, c1) && OnBoard(r2, c2)
    && b[r1][c1].Holds?
    && sid in colorOf && colorOf[sid] == b[r1][c1].piece.color
    && turn == b[r1][c1].piece.color
    && !OwnedBy(b[r2][c2], b[r1][c1].piece.color)
    && ServerGeometry(b, b[r1][c1].piece, r1, c1, r2, c2)
  }

  /** The verdict of apply_chess_move: None when the move is made, otherwise the first failed
      check in the order the server makes them. */
  function MoveVerdict(b: Board, turn: Color, colorOf: map<Sid, Color>, sid: Sid, r1: int, c1: int, r2: int, c2: int)
    : (v: Option<MoveError>)
    requires ValidBoard(b)
    ensures v.None? <==> Permitted(b, turn, colorOf, sid, r1, c1, r2, c2)
    ensures v == Some(OutOfRange) <==> !(OnBoard(r1, c1) && OnBoard(r2, c2))
    ensures v == Some(NoPiece) <==> OnBoard(r1, c1) && OnBoard(r2, c2) && b[r1][c1] == Empty
    ensures v == Some(NotYours) <==> OnBoard(r1, c1) && OnBoard(r2, c2) && b[r1][c1].Holds?
                                     && !(sid in colorOf && colorOf[sid] == b[r1][c1].piece.color)
    ensures v == Some(NotYourTurn) <==> OnBoard(r1, c1) && OnBoard(r2, c2) && b[r1][c1].Holds?
                                        && sid in colorOf && colorOf[sid] == b[r1][c1].piece.color != turn
    ensures v == Some(OwnCapture) <==> OnBoard(r1, c1) && OnBoard(r2, c2) && b[r1][c1].Holds?
                                       && sid in colorOf && colorOf[sid] == b[r1][c1].piece.color == turn
                                       && OwnedBy(b[r2][c2], turn)
    ensures v == Some(Illegal) <==> OnBoard(r1, c1) && OnBoard(r2, c2) && b[r1][c1].Holds?
                                    && sid in colorOf && colorOf[sid] == b[r1][c1].piece.color == turn
                                    && !OwnedBy(b[r2][c2], turn)
                                    && !ServerGeometry(b, b[r1][c1].piece, r1, c1, r2, c2)
  {
    if !(OnBoard(r1, c1) && OnBoard(r2, c2)) then Some(OutOfRange)
    else if b[r1][c1] == Empty then Some(NoPiece)
    else
      var p := b[r1][c1].piece;
      if !(sid in colorOf && colorOf[sid] == p.color) then Some(NotYours)
      else if turn != p.color then Some(NotYourTurn)
      else if OwnedBy(b[r2][c2], p.color) then Some(OwnCapture)
      else if !ServerGeometry(b, p, r1, c1, r2, c2) then Some(Illegal)
      else None
  }

  /** The board after the piece on (r1, c1) moves to (r2, c2): the destination takes the piece,
      the origin is emptied, every other square is as before. */
  function MovePiece(b: Board, r1: int, c1: int, r2: int, c2: int): (moved: Board)
    requires ValidBoard(b) && OnBoard(r1, c1) && OnBoard(r2, c2)
    ensures ValidBoard(moved)
    ensures moved[r1][c1] == Empty
    ensures (r1, c1) != (r2, c2) ==> moved[r2][c2] == b[r1][c1]
    ensures forall r, c :: OnBoard(r, c) && (r, c) != (r1, c1) && (r, c) != (r2, c2) ==> moved[r][c] == b[r][c]
  {
    var placed := b[r2 := b[r2][c2 := b[r1][c1]]];
    placed[r1 := placed[r1][c1 := Empty]]
  }

  /** The winner search of apply_chess_move: it walks the players in order and keeps the last
      one whose colour is c. */
  function LastOfColor(players: seq<Sid>, colorOf: map<Sid, Color>, c: Color): (w: Option<Sid>)
    ensures w.Some? ==> w.value in players && w.value in colorOf && colorOf[w.value] == c
    ensures w.None? <==> forall p :: p in players ==> !(p in colorOf && colorOf[p] == c)
  {
    if players == [] then None
    else
      var last := players[|players| - 1];
      if last in colorOf && colorOf[last] == c then Some(last)
      else LastOfColor(players[..|players| - 1], colorOf, c)
  }

  /** When no two players share a colour, the winner reported for the mover's colour is the
      mover. */
  lemma WinnerIsMover(players: seq<Sid>, colorOf: map<Sid, Color>, sid: Sid)
    requires sid in players && sid in colorOf
    requires forall a, a' :: a in colorOf && a' in colorOf && colorOf[a] == colorOf[a'] ==> a == a'
    ensures LastOfColor(players, colorOf, colorOf[sid]) == Some(sid)
  {
  }

  class ChessGame {
    var board: Board
    var turn: Color
    var colorOf: map<Sid, Color>

    ghost predicate Valid()
      reads this
    {
      ValidBoard(board)
    }

    /** init_chess_state: the starting position, white to move, colours by joining order. */
    constructor (players: seq<Sid>)
      ensures Valid()
      ensures forall r, c :: OnBoard(r, c) ==> board[r][c] == StartCell(r, c)
      ensures turn == White && colorOf == ColorAssignment(players)
    {
      var b := InitChessBoard();
      board := b;
      turn := White;
      colorOf := ColorAssignment(players);
    }

    /** apply_chess_move: refuses the move with the first failed check and changes nothing, or
        moves the piece, hands the turn over and, when a king was taken, names the winner. */
    method ApplyMove(sid: Sid, r1: int, c1: int, r2: int, c2: int, players: seq<Sid>)
      returns (ok: bool, winner: Option<Sid>, err: Option<MoveError>)
      requires Valid()
      modifies this
      ensures Valid() && colorOf == old(colorOf)
      ensures err == MoveVerdict(old(board), old(turn), colorOf, sid, r1, c1, r2, c2)
      ensures ok <==> err.None?
      ensures !ok ==> board == old(board) && turn == old(turn) && winner.None?
      ensures ok ==> board == MovePiece(old(board), r1, c1, r2, c2) && turn == Opponent(old(turn))
      ensures ok ==> (winner ==
        if OwnedBy(old(board)[r2][c2], Opponent(old(turn))) && old(board)[r2][c2].piece.kind == King
        then LastOfColor(players, colorOf, old(turn))
        else None)
    {
      if !(OnBoard(r1, c1) && OnBoard(r2, c2)) {
        return false, None, Some(OutOfRange);
      }
      var cell := board[r1][c1];
      if cell == Empty {
        return false, None, Some(NoPiece);
      }
      var piece := cell.piece;
      var color := piece.color;
      if !(sid in colorOf && colorOf[sid] == color) {
        return false, None, Some(NotYours);
      }
      if turn != color {
        return false, None, Some(NotYourTurn);
      }
      var target := board[r2][c2];
      if target.Holds? && target.piece.color == color {
        return false, None, Some(OwnCapture);
      }
      var legal := CheckGeometry(board, piece, r1, c1, r2, c2);
      if !legal {
        return false, None, Some(Illegal);
      }
      var captured := board[r2][c2];
      board := board[r2 := board[r2][c2 := cell]];
      board := board[r1 := board[r1][c1 := Empty]];
      turn := if turn == White then Black else White;
      if captured.Holds? && captured.piece.kind == King {
        winner := FindWinner(players, colorOf, color);
        return true, winner, None;
      }
      return true, None, None;
    }
  }

  // ---------------------------------------------------------------------------------------
  // Client against server

  /** Every square the browser highlights for a piece whose owner is on turn is a move the
      server accepts. */
  lemma ClientCandidatesAreAccepted(b: Board, turn: Color, colorOf: map<Sid, Color>, sid: Sid,
                                    r1: int, c1: int, r2: int, c2: int)
    requires ValidBoard(b) && OnBoard(r1, c1) && b[r1][c1].Holds?
    requires sid in colorOf && colorOf[sid] == b[r1][c1].piece.color && turn == b[r1][c1].piece.color
    requires Square(r2, c2) in ChessClient.Candidates(b, r1, c1)
    ensures MoveVerdict(b, turn, colorOf, sid, r1, c1, r2, c2) == None
  {
    ChessClient.CandidateIff(b, r1, c1, r2, c2);
    ServerGeometryExtendsClient(b, b[r1][c1].piece, r1, c1, r2, c2);
  }

  /** The server is strictly more permissive: from the starting position white's king's pawn
      may advance two squares, which the browser never highlights. */
  lemma PawnDoubleStepOnlyOnServer(b: Board, sid: Sid)
    requires ValidBoard(b) && forall r, c :: OnBoard(r, c) ==> b[r][c] == StartCell(r, c)
    ensures MoveVerdict(b, White, map[sid := White], sid, 6, 4, 4, 4) == None
    ensures Square(4, 4) !in ChessClient.Candidates(b, 6, 4)
  {
    assert b[6][4] == StartCell(6, 4) && b[5][4] == StartCell(5, 4) && b[4][4] == StartCell(4, 4);
    assert PawnDoubleStep(b, b[6][4].piece, 6, 4, 4, 4);
    ServerGeometryExtendsClient(b, b[6][4].piece, 6, 4, 4, 4);
    ChessClient.NoPawnDoubleStep(b, 6, 4);
  }
}
