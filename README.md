# gameq rules, modelled in Dafny

gameq is a two-player party game site with two games: a Ludo variant and chess. The winner of
a game gets to see a secret. Its browser page (`app.js`) draws the boards. For chess, it
highlights the squares the selected piece could move to, and it escapes the revealed secret
before putting it into the page. The server (`server.py`) holds the game state and is the
authority on the rules.

This project models that rule logic:

- **`ChessBoard`** (`chess_board.dfy`): the shared chess vocabulary. Pieces are tagged values
  instead of the two-character codes `'wP'`, `'bK'`, ….
  - `PathClear` is the single specification that both clear-path loops are proved against.
- **`ChessClient`** (`chess_client.dfy`): `computePossibleMoves` and `client_clear_path`, as
  nested loops over the 64 squares and a walk along a line.
  - They are proved against the row-major scan `Candidates`.
  - The per-kind lemmas characterise what a pawn, knight, king and sliding piece is offered.
- **`HtmlEscape`** (`html_escape.dfy`): `escapeHtml`, the chain of three `replaceAll` calls.
  - Proved: no `<` or `>` survives.
  - Proved: the chain escapes character by character.
  - Proved: a reference unescaper gives the input back.
- **`ChessServer`** (`chess_server.dfy`): the server's chess rules.
  - `init_chess_state` (the start position and the colour assignment) and `clear_path`.
  - `apply_chess_move`, as the class `ChessGame`, whose `ApplyMove` updates the stored board and
    turn in place.
  - Lemmas that relate the client's highlights to the server's verdict.
- **`Ludo`** (`ludo.dfy`): the server's Ludo rules and the class `LudoGame`.
  - The rules: `steps_to_board_index`, `move_token`, `check_ludo_winner`.
  - `LudoGame` holds the state of `init_ludo_state`: the token lists, the seating order, the
    turn index and the last dice.
  - Its methods model the roll handler and the move handler's turn and dice transition, without
    the socket emits.
  - Each token is modelled by its step count:
    - -1: at home;
    - 0-51: on the 52-square ring;
    - 52-57: in the home stretch;
    - 999: finished.
  - Dice values are parameters.

The two clear-path routines are both proved equal to `PathClear` on every line they are asked
about. They compute the unit step differently:
- the browser divides by the step count as a float and rounds. On a line each displacement
  divided by the step count is exactly -1, 0 or 1, so rounding changes nothing. `ClientClearPath`
  is therefore written with the sign of each displacement directly; no lemma covers this float
  step, since the model has no floating point;
- the server floor-divides. `ChessServer.LineStepIsSign` proves that on a line this also gives
  the sign of each displacement.

## Model

| member | source | states |
|---|---|---|
| ChessClient.ClientClearPath | app.js:387-396 | the walk returns true exactly when every square strictly between the two ends of the line is empty (`PathClear`) |
| ChessClient.PieceAllows | app.js:366-381 | the per-kind branch accepts exactly the client geometry: pawn single step onto an empty square or diagonal onto an opposing piece, knight L, bishop/rook/queen line with a clear path, king at Chebyshev distance 1 |
| ChessClient.ScanRow | app.js:363-383 | scanning row r appends, left to right, exactly the squares of that row the piece is offered |
| ChessClient.ComputePossibleMoves | app.js:358-385 | the result is the row-major list of accepted squares (`Candidates`), the empty list for an empty origin; the board is a value and is not changed |
| ChessClient.CandidatesBeforeMembership | app.js:362-384 | after k squares of the scan, a square is listed iff it is on the board, was visited, and is accepted |
| ChessClient.CandidatesBeforeOrdered | app.js:362-384 | the squares listed so far are on the board, were visited, and are in strictly increasing row-major order |
| ChessClient.EmptyOriginHasNoCandidates | app.js:359 | an empty origin yields the empty list |
| ChessClient.CandidateIff | app.js:358-385 | a destination is returned iff it is on the board, the origin holds a piece, the destination does not hold that piece's colour, and the geometry allows it |
| ChessClient.CandidatesWellFormed | app.js:362-385 | every returned square is on the board and not own-colour; the origin is never returned; the list is strictly row-major and has no duplicates |
| ChessClient.PawnCandidates | app.js:367-370 | a pawn is offered exactly the square one row ahead (-1 for white, +1 for black) in its column when empty, and a forward diagonal exactly when it holds an opposing piece |
| ChessClient.NoPawnDoubleStep | app.js:367-370 | the two-square advance is never offered |
| ChessClient.KnightCandidates | app.js:371-372 | a knight is offered exactly the on-board (2,1)/(1,2) jumps not onto its own colour, whatever lies between |
| ChessClient.KingCandidates | app.js:379-380 | a king is offered exactly the on-board non-own-colour squares at Chebyshev distance 1 |
| ChessClient.RayPathClear | app.js:387-396 | along a unit direction, the path to step s is clear iff every earlier square of the ray is empty |
| ChessClient.RayCandidates | app.js:373-378 | a bishop, rook or queen is offered the square s steps along one of its directions iff it is on the board, every earlier square of the ray is empty, and it is not own-colour |
| ChessClient.RayStopsAtFirstPiece | app.js:373-378 | along a ray, the first occupied square is offered iff it holds an opponent, and no square beyond it is offered |
| HtmlEscape.ReplaceAll | app.js:422 | every character of the result is either a character of the input other than the pattern, or a character of the replacement |
| HtmlEscape.EscapeHtml | app.js:420-423 | the empty input gives the empty string; the result contains no '<' and no '>' |
| HtmlEscape.EscapeChainIsPerCharacter | app.js:422 | the three chained replacements, '&' first, equal escaping each character on its own, so no entity is escaped twice |
| HtmlEscape.EscapeHtmlRoundTrip | app.js:420-423 | unescaping the output gives the input back: escaping loses no information |
| ChessServer.InitChessBoard | server.py:99-107 | the grid is 8x8 and holds the standard starting position: black pawns on row 1, white pawns on row 6, back ranks R N B Q K B N R on rows 0 and 7 |
| ChessServer.StartingPosition | server.py:99-107 | in the start position each side has exactly one king, on column 4 of its back rank; white owns exactly rows 6-7, black rows 0-1 |
| ChessServer.ColorAssignment | server.py:108-111 | only the first two players get a colour: the second is black, the first is white unless it is the same sid; no two sids share a colour |
| ChessServer.ChessGame.constructor | server.py:98-112 | the board is the starting position, white is to move, and the colours are ColorAssignment of the players |
| ChessServer.ClearPath | server.py:113-121 | the floor-divided walk returns true exactly when every square strictly between the two ends of the line is empty (`PathClear`), the same as the client |
| ChessServer.LineStepIsSign | server.py:117 | on a line, floor division by the step count yields the sign of each displacement |
| ChessServer.CheckGeometry | server.py:137-154 | the server's per-kind branch accepts exactly `ServerGeometry` |
| ChessServer.ServerGeometryExtendsClient | server.py:137-154 | the server's geometry is the client's geometry plus the pawn two-step from the start row over an empty square onto an empty square, and nothing else |
| ChessServer.MoveVerdict | server.py:129-155 | a move is made iff every check passes; 'out' is given exactly for an off-board square and 'no piece' exactly for an empty origin on the board; 'not yours', 'not your turn', 'own capture' and 'illegal' are each given exactly when that check is the first to fail, all earlier ones passing |
| ChessServer.MovePiece | server.py:156-157 | the destination holds the moved piece, the origin is emptied, every other square is unchanged |
| ChessServer.LastOfColor | server.py:159-163 | the winner reported is a player with the given colour, and there is none only when no player has it |
| ChessServer.FindWinner | server.py:159-163 | the loop over the players returns the last player whose colour is the mover's |
| ChessServer.WinnerIsMover | server.py:158-164 | when colours are unique and the mover is among the players, the winner reported after a king capture is the mover |
| ChessServer.ChessGame.ApplyMove | server.py:123-165 | a refused move returns its reason and changes neither board nor turn; an accepted move sets the board to MovePiece, flips the turn, and, when an opposing king was captured, reports the last listed player holding the mover's colour (none if no listed player holds it); otherwise no winner |
| ChessServer.ClientCandidatesAreAccepted | server.py:129-155 | every square the browser highlights for a piece whose owner is on turn is accepted by the server |
| ChessServer.PawnDoubleStepOnlyOnServer | server.py:142-144 | from the start position the server accepts e2-e4 while the browser does not highlight it: the server is strictly more permissive |
| Ludo.StepsToBoardIndex | server.py:50-54 | a ring square, in [0,52), is returned exactly when 0 <= steps < 52, otherwise None |
| Ludo.RingSquaresDistinct | server.py:50-54 | different step counts on the ring map to different squares |
| Ludo.NextRingSquare | server.py:50-54 | step 0 is the start square and each further step is the next square, wrapping from 51 to 0 |
| Ludo.StartSquaresAreSafe | server.py:23-25 | every player's start square is in the safe set |
| Ludo.IndexOf | server.py:74 | list.index returns the position of the first occurrence |
| Ludo.StartOf | server.py:74-75 | a player's start square is one of the four start squares |
| Ludo.PyIndex | server.py:59 | Python list indexing: an index in [-n, n) selects a token, counting from the end when negative; anything else raises |
| Ludo.SendHome | server.py:82-88 | the tokens of one opponent on the ring that stand on the landing square become -1; the others keep their steps |
| Ludo.SendHomeAll | server.py:82-88 | the token loop computes SendHome |
| Ludo.CaptureAt | server.py:80-88 | every player but the mover has SendHome applied; the mover's tokens are untouched; no player is added or removed |
| Ludo.CaptureAll | server.py:80-88 | the loop over the players computes CaptureAt |
| Ludo.Advance | server.py:69-88 | the on-board branch keeps every player's token list; what it does to the lists is stated by AdvanceRule |
| Ludo.AdvanceRule | server.py:69-88 | the moved token advances by exactly the dice and becomes 999 at 58 or more with no capture; otherwise each opponent token goes home exactly when the landing square is not safe and that token is on it; list lengths are kept |
| Ludo.AdvanceTokens | server.py:69-88 | the on-board branch computes Advance |
| Ludo.MoveOnRing | server.py:72-88 | a move that stays short of 58 computes Advance |
| Ludo.MoveResult | server.py:56-89 | rejection for an unknown sid, an index out of range and a finished token; a home token moves to 0 only on a 6 and is rejected otherwise; an on-board token moves by Advance |
| Ludo.MoveKeepsTokenStates | server.py:56-89 | with a dice of 1-6, every token keeps a possible step count (-1, 0-57 or 999) |
| Ludo.LudoWinner | server.py:91-95 | a sid is returned only if all its tokens are 999, and no earlier player in the order is finished; None exactly when no player is finished |
| Ludo.NextTurnIndex | server.py:241-242 | the turn index stays in range; it is unchanged after a 6 and, with two or more players, changes after any other roll |
| Ludo.TwoPlayersAlternate | server.py:241-242 | with two players any roll but a 6 hands the turn to the other player, and a second such roll hands it back |
| Ludo.LudoGame.constructor | server.py:36-48 | seats follow the players' order; each player has four tokens at home; the first seat is to roll; no dice has been rolled |
| Ludo.LudoGame.Roll | server.py:216-225 | only the player on turn may roll; the roll records the value and the roller; nothing else changes |
| Ludo.LudoGame.MoveToken | server.py:56-89 | the stored tokens become MoveResult's when it accepts and are untouched when it rejects; seating, turn and dice are unchanged; the state invariant holds |
| Ludo.LudoGame.OnMoveToken | server.py:228-252 | moving refused: not on turn (not_your_turn), no own roll (no_dice), refused by move_token (invalid_move), with nothing changed in each case. A valid move: sets the tokens, passes the turn unless the roll was a 6, clears the dice and roller, and reports the winner check |

## Left out

- Socket.IO and Flask wiring: the event handlers' message parsing, `emit`, `join_room`/`leave_room`, the static routes, and the room and host lifecycle. This is network I/O and per-connection state.
- `gen_code` and `random.randint`: randomness. The dice is a parameter of `LudoGame.Roll`.
- The DOM, drawing and token pixel layout in `app.js`: floating-point UI with no rule content.
- ChessClient.ClientClearPath: requires the line geometry. The float division and `Math.round` for displacements that are not lines are not modelled, because the caller only asks about lines.
- ChessServer.ClearPath: requires the line geometry. The negative-index wrap-around Python would allow for displacements that are not lines is not modelled, because the caller only asks about lines.
- The `int()` parsing of the move coordinates and its `'invalid'` reply are not modelled: coordinates are integers in the model.
- The string form of the state is not modelled: piece codes (`'wP'`), colours (`'w'`/`'b'`), token dicts (`{'steps': n}`) and error strings are represented by tagged values and integers.
- Ludo.LudoGame.MoveToken: a token index outside [-4, 4) makes Python raise `IndexError`, which ends the handler without a reply. The model rejects such a move with no change, and `OnMoveToken` reports `InvalidMove`.
- Ludo.LudoGame.MoveToken: requires a dice of 1 to 6, which is what the roll handler stores.
- Ludo.LudoGame.OnMoveToken: reports `Moved(Some(sid))` even for an empty sid. The handler's `if winner:` would treat an empty sid as no winner; socket ids are never empty.
- Ludo.LudoGame.constructor: requires at least one player. The start handler only starts a game with two.
- Ludo.LudoWinner: scans the seating order. Python's dict keeps the players in that order, so this is the same as iterating the token dict.
- HtmlEscape.EscapeHtml: takes a string. JavaScript's `null`/`undefined` inputs, which are falsy and give `''`, are not modelled.
- The roll handler lets the player on turn roll again before moving; the model keeps this (the new roll replaces the old one).
- Check, checkmate, castling, en passant and promotion: neither the browser nor the server implements them.
