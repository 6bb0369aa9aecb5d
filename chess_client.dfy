/** The browser's move-candidate generator (app.js): given a board snapshot and a selected
    square it lists, in row-major order, the squares the piece there could reach by geometry
    alone, for highlighting. It never checks turn, check, castling, en passant or promotion. */
module ChessClient {
  import opened ChessBoard

  /** client_clear_path: walks the squares strictly between the two ends, one king step at a
      time, and reports false at the first occupied one. */
  method ClientClearPath(b: Board, r1: int, c1: int, r2: int, c2: int) returns (clear: bool)
    requires ValidBoard(b) && OnBoard(r1, c1) && OnBoard(r2, c2)
    requires IsLine(r2 - r1, c2 - c1)
    ensures clear == PathClear(b, r1, c1, r2, c2)
  {
    var dr, dc := r2 - r1, c2 - c1;
    var steps := Distance(dr, dc);
    if steps == 0 {
      return true;
    }
    var stepR, stepC := Sign(dr), Sign(dc);
    var s := 1;
    while s < steps
      invariant 1 <= s <= steps
      invariant forall t :: 0 < t < s ==> StepEmpty(b, r1, c1, dr, dc, t)
    {
      BetweenIsOnBoard(r1, c1, r2, c2, s);
      var rr, cc := r1 + s * stepR, c1 + s * stepC;
      if b[rr][cc] != Empty {
        BlockedPath(b, r1, c1, r2, c2, s);
        return false;
      }
      assert StepEmpty(b, r1, c1, dr, dc, s);
      s := s + 1;
    }
    return true;
  }

  /** The piece-movement test of computePossibleMoves for piece p standing on (r1, c1) and the
      destination (r, c): pawn single step or diagonal capture, knight jump, bishop/rook/queen
      line with a clear path, king step. */
  predicate ClientGeometry(b: Board, p: Piece, r1: int, c1: int, r: int, c: int)
    requires ValidBoard(b) && OnBoard(r, c)
  {
    var dr, dc := r - r1, c - c1;
    match p.kind
    case Pawn =>
      (dc == 0 && dr == Forward(p.color) && b[r][c] == Empty)
      || (Abs(dc) == 1 && dr == Forward(p.color) && b[r][c].Holds? && b[r][c].piece.color != p.color)
    case Knight => (Abs(dr) == 2 && Abs(dc) == 1) || (Abs(dr) == 1 && Abs(dc) == 2)
    case Bishop => Abs(dr) == Abs(dc) && PathClear(b, r1, c1, r, c)
    case Rook => (dr == 0 || dc == 0) && PathClear(b, r1, c1, r, c)
    case Queen => (Abs(dr) == Abs(dc) || dr == 0 || dc == 0) && PathClear(b, r1, c1, r, c)
    case King => Distance(dr, dc) == 1
  }

  /** (r, c) is offered for the piece on (r1, c1): the origin holds a piece, the destination
      does not hold a piece of that piece's colour, and the geometry allows it. */
  predicate ClientAccepts(b: Board, r1: int, c1: int, r: int, c: int)
    requires ValidBoard(b) && OnBoard(r1, c1) && OnBoard(r, c)
  {
    b[r1][c1].Holds?
    && !OwnedBy(b[r][c], b[r1][c1].piece.color)
    && ClientGeometry(b, b[r1][c1].piece, r1, c1, r, c)
  }

  /** Row-major position of a square: the order in which the scan visits it. */
  function Index(sq: Square): int
  {
    8 * sq.r + sq.c
  }

  /** The square the scan visits at position k. */
  function SquareAt(k: int): Square
  {
    Square(k / 8, k % 8)
  }

  lemma SquareAtIndex(r: int, c: int)
    requires OnBoard(r, c)
    ensures SquareAt(8 * r + c) == Square(r, c)
  {
  }

  /** One more step of the scan: square (r, c) is appended when the rules accept it. */
  lemma CandidatesStep(b: Board, r1: int, c1: int, r: int, c: int)
    requires ValidBoard(b) && OnBoard(r1, c1) && OnBoard(r, c)
    ensures CandidatesBefore(b, r1, c1, 8 * r + c + 1)
      == CandidatesBefore(b, r1, c1, 8 * r + c) + (if ClientAccepts(b, r1, c1, r, c) then [Square(r, c)] else [])
  {
    SquareAtIndex(r, c);
  }

  /** The candidates among the first k squares of the row-major scan. */
  function CandidatesBefore(b: Board, r1: int, c1: int, k: nat): seq<Square>
    requires ValidBoard(b) && OnBoard(r1, c1) && k <= 64
  {
    if k == 0 then []
    else
      var sq := SquareAt(k - 1);
      CandidatesBefore(b, r1, c1, k - 1) + (if ClientAccepts(b, r1, c1, sq.r, sq.c) then [sq] else [])
  }

  /** The full result of computePossibleMoves. */
  function Candidates(b: Board, r1: int, c1: int): seq<Square>
    requires ValidBoard(b) && OnBoard(r1, c1)
  {
    CandidatesBefore(b, r1, c1, 64)
  }

  /** The per-piece branch of computePossibleMoves' scan for a destination that does not hold
      a piece of the mover's colour. */
  method PieceAllows(b: Board, piece: Piece, r1: int, c1: int, r: int, c: int) returns (legal: bool)
    requires ValidBoard(b) && OnBoard(r1, c1) && OnBoard(r, c)
    ensures legal == ClientGeometry(b, piece, r1, c1, r, c)
  {
    var dr, dc := r - r1, c - c1;
    var target := b[r][c];
    var color, kind := piece.color, piece.kind;
    legal := false;
    if kind == Pawn {
      var dir := if color == White then -1 else 1;
      if dc == 0 && dr == dir && target == Empty {
        legal := true;
      }
      if Abs(dc) == 1 && dr == dir && target.Holds? && target.piece.color != color {
        legal := true;
      }
    } else if kind == Knight {
      if (Abs(dr) == 2 && Abs(dc) == 1) || (Abs(dr) == 1 && Abs(dc) == 2) {
        legal := true;
      }
    } else if kind == Bishop {
      if Abs(dr) == Abs(dc) {
        legal := ClientClearPath(b, r1, c1, r, c);
      }
    } else if kind == Rook {
      if dr == 0 || dc == 0 {
        legal := ClientClearPath(b, r1, c1, r, c);
      }
    } else if kind == Queen {
      if Abs(dr) == Abs(dc) || dr == 0 || dc == 0 {
        legal := ClientClearPath(b, r1, c1, r, c);
      }
    } else if kind == King {
      if Distance(dr, dc) == 1 {
        legal := true;
      }
    }
  }

  /** computePossibleMoves: scans all 64 squares row by row and keeps those the selected piece
      could move to. The board is a value and is left as it is. */
  method ComputePossibleMoves(b: Board, r1: int, c1: int) returns (moves: seq<Square>)
    requires ValidBoard(b) && OnBoard(r1, c1)
    ensures moves == Candidates(b, r1, c1)
  {
    if b[r1][c1] == Empty {
      EmptyOriginHasNoCandidates(b, r1, c1);
      return [];
    }
    moves := [];
    for r := 0 to 8
      invariant moves == CandidatesBefore(b, r1, c1, 8 * r)
    {
      moves := ScanRow(b, r1, c1, r, moves);
    }
  }

  /** The inner loop of computePossibleMoves: the eight squares of row r, left to right. */
  method ScanRow(b: Board, r1: int, c1: int, r: int, before: seq<Square>) returns (moves: seq<Square>)
    requires ValidBoard(b) && OnBoard(r1, c1) && b[r1][c1].Holds? && 0 <= r < 8
    requires before == CandidatesBefore(b, r1, c1, 8 * r)
    ensures moves == CandidatesBefore(b, r1, c1, 8 * (r + 1))
  {
    var piece := b[r1][c1].piece;
    moves := before;
    for c := 0 to 8
      invariant moves == CandidatesBefore(b, r1, c1, 8 * r + c)
    {
      CandidatesStep(b, r1, c1, r, c);
      var target := b[r][c];
      if target.Holds? && target.piece.color == piece.color {
        continue;
      }
      var legal := PieceAllows(b, piece, r1, c1, r, c);
      if legal {
        moves := moves + [Square(r, c)];
      }
    }
    assert 8 * r + 8 == 8 * (r + 1);
  }

  // ---------------------------------------------------------------------------------------
  // What the scan returns

  /** A square is among the first k candidates exactly when it is on the board, the scan has
      reached it, and the piece's rules accept it. */
  lemma {:induction false} CandidatesBeforeMembership(b: Board, r1: int, c1: int, k: nat, sq: Square)
    requires ValidBoard(b) && OnBoard(r1, c1) && k <= 64
    ensures sq in CandidatesBefore(b, r1, c1, k)
        <==> OnBoard(sq.r, sq.c) && Index(sq) < k && ClientAccepts(b, r1, c1, sq.r, sq.c)
  {
    if k > 0 {
      CandidatesBeforeMembership(b, r1, c1, k - 1, sq);
      if OnBoard(sq.r, sq.c) {
        SquareAtIndex(sq.r, sq.c);
      }
    }
  }

  /** The first k candidates are on the board, were visited before position k, and are listed
      in strictly increasing row-major order (so none is listed twice). */
  lemma {:induction false} CandidatesBeforeOrdered(b: Board, r1: int, c1: int, k: nat)
    requires ValidBoard(b) && OnBoard(r1, c1) && k <= 64
    ensures forall i :: 0 <= i < |CandidatesBefore(b, r1, c1, k)| ==>
      OnBoard(CandidatesBefore(b, r1, c1, k)[i].r, CandidatesBefore(b, r1, c1, k)[i].c)
      && Index(CandidatesBefore(b, r1, c1, k)[i]) < k
    ensures forall i, j :: 0 <= i < j < |CandidatesBefore(b, r1, c1, k)| ==>
      Index(CandidatesBefore(b, r1, c1, k)[i]) < Index(CandidatesBefore(b, r1, c1, k)[j])
  {
    if k > 0 {
      CandidatesBeforeOrdered(b, r1, c1, k - 1);
    }
  }

  /** app.js:359 — an empty origin yields no candidates. */
  lemma EmptyOriginHasNoCandidates(b: Board, r1: int, c1: int)
    requires ValidBoard(b) && OnBoard(r1, c1) && b[r1][c1] == Empty
    ensures Candidates(b, r1, c1) == []
  {
    if Candidates(b, r1, c1) != [] {
      var sq := Candidates(b, r1, c1)[0];
      CandidatesBeforeMembership(b, r1, c1, 64, sq);
    }
  }

  /** Destination (r, c) is a candidate exactly when it is on the board and accepted. */
  lemma CandidateIff(b: Board, r1: int, c1: int, r: int, c: int)
    requires ValidBoard(b) && OnBoard(r1, c1)
    ensures Square(r, c) in Candidates(b, r1, c1) <==> OnBoard(r, c) && ClientAccepts(b, r1, c1, r, c)
  {
    CandidatesBeforeMembership(b, r1, c1, 64, Square(r, c));
  }

  /** Every candidate is on the board; the list is strictly row-major, hence free of duplicates;
      no candidate holds a piece of the mover's colour, so the origin is never offered. */
  lemma CandidatesWellFormed(b: Board, r1: int, c1: int)
    requires ValidBoard(b) && OnBoard(r1, c1)
    ensures forall sq :: sq in Candidates(b, r1, c1) ==>
      OnBoard(sq.r, sq.c) && b[r1][c1].Holds? && !OwnedBy(b[sq.r][sq.c], b[r1][c1].piece.color)
    ensures Square(r1, c1) !in Candidates(b, r1, c1)
    ensures forall i, j :: 0 <= i < j < |Candidates(b, r1, c1)| ==>
      Index(Candidates(b, r1, c1)[i]) < Index(Candidates(b, r1, c1)[j])
    ensures forall i, j :: 0 <= i < j < |Candidates(b, r1, c1)| ==>
      Candidates(b, r1, c1)[i] != Candidates(b, r1, c1)[j]
  {
    CandidatesBeforeOrdered(b, r1, c1, 64);
    forall sq | sq in Candidates(b, r1, c1)
      ensures OnBoard(sq.r, sq.c) && b[r1][c1].Holds? && !OwnedBy(b[sq.r][sq.c], b[r1][c1].piece.color)
    {
      CandidatesBeforeMembership(b, r1, c1, 64, sq);
    }
    CandidatesBeforeMembership(b, r1, c1, 64, Square(r1, c1));
  }

  // ---------------------------------------------------------------------------------------
  // Per piece kind

  /** A pawn is offered the square one row ahead in its colour's direction when that square is
      empty, and a forward diagonal only when it holds an opposing piece; nothing else. */
  lemma PawnCandidates(b: Board, r1: int, c1: int, r: int, c: int)
    requires ValidBoard(b) && OnBoard(r1, c1) && b[r1][c1].Holds? && b[r1][c1].piece.kind == Pawn
    ensures var color := b[r1][c1].piece.color;
      Square(r, c) in Candidates(b, r1, c1) <==>
        OnBoard(r, c) && r - r1 == Forward(color)
        && ((c == c1 && b[r][c] == Empty) || (Abs(c - c1) == 1 && OwnedBy(b[r][c], Opponent(color))))
  {
    CandidateIff(b, r1, c1, r, c);
  }

  /** There is no two-square pawn advance on the client. */
  lemma NoPawnDoubleStep(b: Board, r1: int, c1: int)
    requires ValidBoard(b) && OnBoard(r1, c1) && b[r1][c1].Holds? && b[r1][c1].piece.kind == Pawn
    ensures Square(r1 + 2 * Forward(b[r1][c1].piece.color), c1) !in Candidates(b, r1, c1)
  {
    PawnCandidates(b, r1, c1, r1 + 2 * Forward(b[r1][c1].piece.color), c1);
  }

  /** A knight is offered exactly the on-board L-shaped jumps not onto its own colour, whatever
      stands in between. */
  lemma KnightCandidates(b: Board, r1: int, c1: int, r: int, c: int)
    requires ValidBoard(b) && OnBoard(r1, c1) && b[r1][c1].Holds? && b[r1][c1].piece.kind == Knight
    ensures Square(r, c) in Candidates(b, r1, c1) <==>
      OnBoard(r, c) && !OwnedBy(b[r][c], b[r1][c1].piece.color)
      && ((Abs(r - r1) == 2 && Abs(c - c1) == 1) || (Abs(r - r1) == 1 && Abs(c - c1) == 2))
  {
    CandidateIff(b, r1, c1, r, c);
  }

  /** A king is offered exactly the on-board squares at Chebyshev distance one not holding its
      own colour. */
  lemma KingCandidates(b: Board, r1: int, c1: int, r: int, c: int)
    requires ValidBoard(b) && OnBoard(r1, c1) && b[r1][c1].Holds? && b[r1][c1].piece.kind == King
    ensures Square(r, c) in Candidates(b, r1, c1) <==>
      OnBoard(r, c) && !OwnedBy(b[r][c], b[r1][c1].piece.color) && Distance(r - r1, c - c1) == 1
  {
    CandidateIff(b, r1, c1, r, c);
  }

  /** The unit directions a sliding piece moves along. */
  predicate Slides(kind: Kind, ur: int, uc: int)
  {
    -1 <= ur <= 1 && -1 <= uc <= 1 && (ur, uc) != (0, 0)
    && match kind
       case Bishop => ur != 0 && uc != 0
       case Rook => ur == 0 || uc == 0
       case Queen => true
       case _ => false
  }

  /** Stepping s > 0 times along a unit direction is a line of length s in that direction. */
  lemma {:induction false} RayGeometry(ur: int, uc: int, s: int)
    requires -1 <= ur <= 1 && -1 <= uc <= 1 && (ur, uc) != (0, 0) && s > 0
    ensures Distance(s * ur, s * uc) == s && Sign(s * ur) == ur && Sign(s * uc) == uc
    ensures IsLine(s * ur, s * uc)
    ensures (ur == 0 || uc == 0) <==> (s * ur == 0 || s * uc == 0)
    ensures (ur != 0 && uc != 0) <==> Abs(s * ur) == Abs(s * uc)
  {
    if ur == 1 { assert s * ur == s; } else if ur == -1 { assert s * ur == -s; } else { assert s * ur == 0; }
    if uc == 1 { assert s * uc == s; } else if uc == -1 { assert s * uc == -s; } else { assert s * uc == 0; }
  }

  /** The square t steps from (r1, c1) along the unit direction (ur, uc) is on the board and
      empty. */
  predicate RayEmpty(b: Board, r1: int, c1: int, ur: int, uc: int, t: int)
    requires ValidBoard(b)
  {
    EmptyAt(b, r1 + t * ur, c1 + t * uc)
  }

  /** The path to the square s steps out along a unit direction is clear exactly when each of
      the squares before it on that ray is empty. */
  lemma RayPathClear(b: Board, r1: int, c1: int, ur: int, uc: int, s: int)
    requires ValidBoard(b)
    requires -1 <= ur <= 1 && -1 <= uc <= 1 && (ur, uc) != (0, 0) && s > 0
    ensures PathClear(b, r1, c1, r1 + s * ur, c1 + s * uc)
        <==> forall t :: 0 < t < s ==> RayEmpty(b, r1, c1, ur, uc, t)
  {
    var dr, dc := s * ur, s * uc;
    RayGeometry(ur, uc, s);
    assert (r1 + s * ur) - r1 == dr && (c1 + s * uc) - c1 == dc;
    assert PathClear(b, r1, c1, r1 + s * ur, c1 + s * uc)
        <==> forall t :: 0 < t < s ==> StepEmpty(b, r1, c1, dr, dc, t);
    forall t
      ensures StepEmpty(b, r1, c1, dr, dc, t) <==> RayEmpty(b, r1, c1, ur, uc, t)
    {
      assert Sign(dr) == ur && Sign(dc) == uc;
    }
  }

  /** Along a ray of a bishop, rook or queen, the square s steps out is a candidate exactly
      when it is on the board, every square before it on the ray is empty, and it does not hold
      a piece of the mover's colour. */
  lemma RayCandidates(b: Board, r1: int, c1: int, ur: int, uc: int, s: int)
    requires ValidBoard(b) && OnBoard(r1, c1) && b[r1][c1].Holds?
    requires Slides(b[r1][c1].piece.kind, ur, uc) && s > 0
    ensures Square(r1 + s * ur, c1 + s * uc) in Candidates(b, r1, c1) <==>
      OnBoard(r1 + s * ur, c1 + s * uc)
      && (forall t :: 0 < t < s ==> RayEmpty(b, r1, c1, ur, uc, t))
      && !OwnedBy(b[r1 + s * ur][c1 + s * uc], b[r1][c1].piece.color)
  {
    var r, c := r1 + s * ur, c1 + s * uc;
    RayGeometry(ur, uc, s);
    RayPathClear(b, r1, c1, ur, uc, s);
    assert r - r1 == s * ur && c - c1 == s * uc;
    CandidateIff(b, r1, c1, r, c);
    if OnBoard(r, c) {
      assert ClientGeometry(b, b[r1][c1].piece, r1, c1, r, c) <==> PathClear(b, r1, c1, r, c);
    }
  }

  /** A sliding piece stops at the first occupied square of a ray: that square is offered when
      it holds an opponent, and no square beyond it is offered. */
  lemma RayStopsAtFirstPiece(b: Board, r1: int, c1: int, ur: int, uc: int, k: int, s: int)
    requires ValidBoard(b) && OnBoard(r1, c1) && b[r1][c1].Holds?
    requires Slides(b[r1][c1].piece.kind, ur, uc) && 0 < k
    requires OnBoard(r1 + k * ur, c1 + k * uc) && b[r1 + k * ur][c1 + k * uc].Holds?
    requires forall t :: 0 < t < k ==> RayEmpty(b, r1, c1, ur, uc, t)
    ensures Square(r1 + k * ur, c1 + k * uc) in Candidates(b, r1, c1)
        <==> OwnedBy(b[r1 + k * ur][c1 + k * uc], Opponent(b[r1][c1].piece.color))
    ensures k < s ==> Square(r1 + s * ur, c1 + s * uc) !in Candidates(b, r1, c1)
  {
    RayCandidates(b, r1, c1, ur, uc, k);
    if k < s {
      RayCandidates(b, r1, c1, ur, uc, s);
      assert !RayEmpty(b, r1, c1, ur, uc, k);
    }
  }
}
