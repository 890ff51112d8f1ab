# Chessbot core in Dafny

Chessbot watches a physical chess board through a camera. It finds the board
in the picture, cuts it into 64 tiles and classifies the piece on each one.
From the difference between the board it last knew and the one it now sees,
it infers the move that was just played. This project models the
deterministic logic in that pipeline and proves what it does:

- **Move inference** (`MoveHeuristics`, src/chessbot_move_heuristics.py).
  The input is a list of atomic differences, each of which adds or removes one
  piece on one square. A plain move is two differences and a capture is
  three. The class `ChessbotMoveHeuristics` holds the board it shares with
  its owner. It recognises the shape, asks the chess rules for the move and
  pushes that move onto the board. When it declines, the board is left as it
  was.
- **Board resync from text** (`ChessStuff`, src/utils/chess_stuff.py).
  The input is an arrangement of up to eight lines, top line first, written
  with piece letters, `.` and `?`. The board is cleared, each token is written
  to its square, and the method returns the set of `?` squares.
- **Corner pruning** (`MathStuff`, src/utils/math_stuff.py). An outline's
  vertices are reduced to the four closest to right angles, keeping their
  order.
- **Tile bounds** (`Cv2Stuff`, src/utils/cv2_stuff.py). This is the
  floor-division arithmetic that cuts a board image into a rows×cols grid of
  tiles.

The supporting modules are:

- `Chess` models the parts of python-chess the core uses. These are squares,
  pieces, `Piece.from_symbol`, the `BB_SQUARES` lookup, and a `Board` class
  with `find_move`, `push`, `clear`, `set_piece_at` and `remove_piece_at`.
  Chess legality is an abstract oracle (`Rules`).
- `PyText` models Python's `str.strip`, `str.split('\n')` and `str.split()`.
- `Wrappers` holds `Option` and `Result`.

The model follows the code wherever the code is more specific than its
comments or annotations:

- **The difference's piece.** `ChessboardDifference.piece` is annotated as a
  piece type, but the code reads its colour. It is modelled as a whole piece,
  a type and a colour, and two pieces are equal when both agree.
- **Malformed arrangements.** `chess.square` does not check its arguments,
  so the token in line r, column c (both counted from 0) goes to index
  8·(7−r) + c. The library's table lookup accepts -64..63, with negative
  indices counting from the end as Python list indexing does, and raises
  IndexError outside that range. A ninth token on the first line gives
  index 64 and raises. A ninth token on lines 2 to 8 lands on file a of the
  rank above. Lines 9 to 16 wrap round to ranks 8 down to 1. The first
  token of line 17 or later gives index -72 or less and raises. The model
  keeps all of this (`Chess.SquareAt`). The square-by-square lemmas are
  stated for arrangements of at most eight lines of at most eight tokens.
- **A failing sync.** When a token raises, the board keeps what was written
  before that token. The model returns that partial state with the error.
- **The Kelvin sign.** `Piece.from_symbol` lower-cases its token. The KELVIN
  SIGN (U+212A) lower-cases to `k` and counts as upper case, so it reads as
  a white king.
- **The last step of pruning.** shapely's `Polygon` refuses a shell of one or
  two points. The model returns None there.
- **Tile edges.** A zero grid dimension raises ZeroDivisionError. The model
  returns None there, and Python's `//` is modelled as floor division.

## Model

| member | source | states |
|---|---|---|
| Chess.SquareAt | src/utils/chess_stuff.py:25-30 | a computed index names a square exactly when it is in -64..63, and that square is the index modulo 64 (negative indices count from the end) |
| Chess.Symbol | src/utils/chess_stuff.py:26 | every piece has a symbol that parses back to it, upper case exactly for white |
| Chess.FromSymbolOnlySymbols | src/utils/chess_stuff.py:26 | a token parses as piece p exactly when it is p's own symbol, or the Kelvin sign and p is the white king |
| Chess.Board.constructor | src/chessbot.py:21-22 | a new board has the given pieces, game state and rules, and an empty move stack |
| Chess.Board.FindMove | src/chessbot_move_heuristics.py:51 | the move found is the rules' answer for the current position, and the board is not changed |
| Chess.Board.Push | src/chessbot_move_heuristics.py:53 | the pieces are placed and the game state (side to move, castling rights, en passant square, clocks) is advanced as the rules say, and exactly the pushed move is appended to the stack |
| Chess.Board.Clear | src/utils/chess_stuff.py:20 | no piece is left on the board, the move stack is empty, and the game state is reset: white to move, no castling rights, no en passant square, halfmove clock 0 and fullmove number 1 |
| Chess.Board.SetPieceAt | src/utils/chess_stuff.py:26 | it succeeds exactly for indices in -64..63; then only that square changes, to the piece, the stack is emptied and the game state is kept; otherwise nothing changes |
| Chess.Board.RemovePieceAt | src/utils/chess_stuff.py:30 | it succeeds exactly for indices in -64..63; then only that square changes, to empty, the stack is emptied and the game state is kept; otherwise nothing changes |
| PyText.TrimStart | src/utils/chess_stuff.py:21 | the result is a suffix of the input that starts with a non-space, and everything dropped is whitespace |
| PyText.TrimEnd | src/utils/chess_stuff.py:21 | the result is a prefix of the input that ends with a non-space, and everything dropped is whitespace |
| PyText.SplitLines | src/utils/chess_stuff.py:21 | there is at least one line, no line holds a newline, and joining the lines with newlines gives the input back |
| PyText.Words | src/utils/chess_stuff.py:23 | every word is non-empty and free of whitespace, and a line starting with a non-space starts with its first word |
| PyText.WordsCollapse | src/utils/chess_stuff.py:23 | joining the words with single spaces gives the text with its outer whitespace dropped and each inner whitespace run reduced to one space; with the words non-empty and whitespace-free, this fixes them |
| PyText.WordsOfJoin | src/utils/chess_stuff.py:23 | splitting words joined by single spaces gives the same words back |
| PyText.SplitLinesOfJoin | src/utils/chess_stuff.py:21 | splitting lines joined by newlines gives the same lines back |
| ChessStuff.BoardSyncFromArrangement | src/utils/chess_stuff.py:9-31 | the board ends with an empty move stack, the game state of a cleared board and the pieces that the token-by-token fold from a cleared board produces, and it returns that fold's `?` squares or its first error |
| ChessStuff.SyncLines | src/utils/chess_stuff.py:22-30 | the lines are written top to bottom and the sync stops at the first failing token, reaching the pieces and the result the fold gives; the game state and the empty move stack are kept |
| ChessStuff.SyncLine | src/utils/chess_stuff.py:23-30 | one line's tokens are written left to right, and the line stops at the first failing token, as the fold says |
| ChessStuff.WriteToken | src/utils/chess_stuff.py:24-30 | a letter puts its piece on its square; `.` and `?` empty the square and `?` adds it to the unknown set; a bad symbol or index fails with the board unchanged |
| ChessStuff.SyncTwice | src/utils/chess_stuff.py:20-31 | syncing the same arrangement twice gives the same result both times, and the board after the first sync is the board after the second: pieces, game state and move stack |
| ChessStuff.TokenOnSquare | src/utils/chess_stuff.py:25-30 | the token in line r, column c is written to square c + 8·(7−r), which is in range for an 8×8 grid |
| ChessStuff.StepExpected | src/utils/chess_stuff.py:24-30 | in a well-shaped grid, writing a valid token extends the expected state by that one cell, and an invalid token fails |
| ChessStuff.RowExpected | src/utils/chess_stuff.py:23-30 | a line succeeds exactly when all its remaining tokens are valid, and it then reaches the state expected after the line |
| ChessStuff.RowsExpected | src/utils/chess_stuff.py:22-30 | the remaining lines succeed exactly when all their tokens are valid, and they then reach the state expected after the grid |
| ChessStuff.SyncWellShaped | src/utils/chess_stuff.py:19-31 | for at most 8 lines of at most 8 tokens, the sync succeeds exactly when every token is a piece symbol, `.` or `?`; then each square holds the piece its token names, squares with `.`, `?` or no token are empty, and the unknown squares are exactly the `?` ones |
| ChessStuff.InvalidTokenFails | src/utils/chess_stuff.py:26 | any token that is neither a piece symbol nor `.` nor `?` makes the sync fail, whatever the arrangement's shape |
| ChessStuff.RowsOfRender | src/utils/chess_stuff.py:21-23 | the canonical 8×8 text, lines joined by newlines and tokens by spaces, splits back into its 64 tokens |
| ChessStuff.SyncOfRender | src/utils/chess_stuff.py:20-31 | canonical text syncs without error: cell (r, c) lands on c + 8·(7−r), the first line being rank 8 and the first token file a; letters give their piece, `.` and `?` give empty squares, and a square is unknown exactly when its token is `?` |
| MoveHeuristics.FilterKeeps | src/chessbot_move_heuristics.py:37-42 | the filter holds each difference that passes the test exactly as often as the list does, and no other |
| MoveHeuristics.FilterFirst | src/chessbot_move_heuristics.py:37-42 | the filter is non-empty exactly when some difference passes, and its element `[0]` is the first difference of the list that passes |
| MoveHeuristics.FilterKeepsOrder | src/chessbot_move_heuristics.py:37-42 | the filter keeps the list's order: filtering a concatenation concatenates the filtered parts |
| MoveHeuristics.SquareFilterKeeps | src/chessbot_move_heuristics.py:87-90 | the square filter holds each removal on (or off) the given square exactly as often as the list does, and no other |
| MoveHeuristics.SquareFilterFirst | src/chessbot_move_heuristics.py:87-90 | the square filter is non-empty exactly when some removal is on (or off) the square, and its element `[0]` is the first such removal |
| MoveHeuristics.SquareFilterKeepsOrder | src/chessbot_move_heuristics.py:87-90 | the square filter keeps the list's order: filtering a concatenation concatenates the filtered parts |
| MoveHeuristics.MoveCandidateExactly | src/chessbot_move_heuristics.py:30-51 | a move is proposed exactly when there are two differences, one removal and one addition of the same piece, and the move runs from the removal's square to the addition's |
| MoveHeuristics.MoveDeclines | src/chessbot_move_heuristics.py:37-47 | two removals, two additions, or a removal and an addition of different pieces (type or colour) never make a move |
| MoveHeuristics.MoveOrderIrrelevant | src/chessbot_move_heuristics.py:37-42 | swapping the two differences does not change the proposed move |
| MoveHeuristics.CaptureCandidateExactly | src/chessbot_move_heuristics.py:75-104 | a capture is proposed exactly when there are three differences: an addition, a removal of the same piece elsewhere, and a removal on the addition's square of a piece of the other colour; it runs from the capturing removal's square to the addition's square |
| MoveHeuristics.CaptureDeclines | src/chessbot_move_heuristics.py:87-100 | three differences in one colour, or on three different squares, never make a capture |
| MoveHeuristics.CaptureOrderIrrelevant | src/chessbot_move_heuristics.py:82-90 | every rearrangement of the three differences proposes the same capture, or none |
| MoveHeuristics.BoardUpdateExactly | src/chessbot_move_heuristics.py:116-128 | the board update pushes move m exactly when the differences have a move or a capture shape whose squares the rules turn into m; an empty list pushes nothing |
| MoveHeuristics.ChessbotMoveHeuristics.constructor | src/chessbot_move_heuristics.py:14-15 | the heuristics hold the very board they were given, shared with it |
| MoveHeuristics.ChessbotMoveHeuristics.TryUpdateWithMove | src/chessbot_move_heuristics.py:19-61 | it returns the rules' move for a plain-move shape and pushes exactly that move; it returns None, with the board unchanged, for any other shape or when the rules reject the move |
| MoveHeuristics.ChessbotMoveHeuristics.TryUpdateWithCapture | src/chessbot_move_heuristics.py:63-114 | it returns the rules' move for a capture shape and pushes exactly that move; it returns None, with the board unchanged, for any other shape or when the rules reject the move |
| MoveHeuristics.ChessbotMoveHeuristics.TryUpdateBoard | src/chessbot_move_heuristics.py:116-128 | the board ends in the position that the update specification gives: a move first, a capture only if the move declines, nothing for an empty list; the old stack stays a prefix and at most one move is added |
| MathStuff.Deviation | src/utils/math_stuff.py:47 | the distance from 90 degrees is non-negative and zero exactly at 90 |
| MathStuff.OpenRing | src/utils/math_stuff.py:33 | the ring minus its repeated closing point, empty for an empty ring |
| MathStuff.Prev | src/utils/math_stuff.py:37 | the Python index i − 1 is the vertex before i on the ring, (i − 1) mod n, whose successor is i |
| MathStuff.Next | src/utils/math_stuff.py:39 | the successor index is i + 1, and the first vertex for the last |
| MathStuff.VertexAngles | src/utils/math_stuff.py:36-41 | the first loop gives one entry per point, in order, each holding its own point |
| MathStuff.VertexNeighbours | src/utils/math_stuff.py:33-41 | one entry per vertex, without the closing point, and the angle at vertex i is measured between vertices i − 1 and i + 1, wrapping cyclically |
| MathStuff.WorstIndex | src/utils/math_stuff.py:46-49 | the scan picks a vertex of maximal deviation from 90 degrees, and every earlier vertex deviates strictly less, so it is the first maximum |
| MathStuff.WorstIndexStep | src/utils/math_stuff.py:47-49 | one more step of the scan moves to the new vertex exactly when it is strictly worse |
| MathStuff.WorstAngleIndex | src/utils/math_stuff.py:46-49 | the loop's result is the first vertex of maximal deviation |
| MathStuff.RemoveAt | src/utils/math_stuff.py:50 | popping index k leaves the other entries in order, shifted down past k |
| MathStuff.Survivors | src/utils/math_stuff.py:45-50 | the kept positions are min(n, 4) positions of the original list, in strictly increasing order |
| MathStuff.PruneLength | src/utils/math_stuff.py:45-50 | min(n, 4) entries remain, and four or fewer entries are kept unchanged |
| MathStuff.PruneSelects | src/utils/math_stuff.py:44-53 | the kept entries are the original entries at the survivor positions, so their relative order is kept |
| MathStuff.DropsWorstStep | src/utils/math_stuff.py:46-50 | removing a worst entry keeps every dropped entry at least as far from 90 degrees as every kept one |
| MathStuff.PruneDropsWorst | src/utils/math_stuff.py:41-50 | every removed vertex deviates from 90 degrees at least as much as every surviving vertex |
| MathStuff.ClosestToRightAnglesSpec | src/utils/math_stuff.py:32-54 | there is no polygon for one or two points; otherwise the polygon goes through min(n, 4) of the points in ring order, none further from a right angle than a dropped point, and through all of them when there are at most four |
| MathStuff.FindClosestToRightAngles | src/utils/math_stuff.py:32-54 | the angle loop, the pruning loop and the final polygon compute exactly the function that the summary lemma describes |
| Cv2Stuff.FloorDiv | src/utils/cv2_stuff.py:54-57 | Python's `//`: the quotient rounded toward minus infinity, for either sign of the divisor |
| Cv2Stuff.TileBounds | src/utils/cv2_stuff.py:52-57 | the bounds are defined unless a grid dimension is zero (ZeroDivisionError) |
| Cv2Stuff.OwnerExactly | src/utils/cv2_stuff.py:54-57 | along one axis, pixel p lies in tile i exactly when i is p's owner index |
| Cv2Stuff.OwnerInRange | src/utils/cv2_stuff.py:54-57 | the owner of a pixel inside the image is a tile inside the grid |
| Cv2Stuff.TileInside | src/utils/cv2_stuff.py:54-57 | every tile of the grid lies in the image: 0 ≤ x0 ≤ x1 ≤ W and 0 ≤ y0 ≤ y1 ≤ H |
| Cv2Stuff.TileEdges | src/utils/cv2_stuff.py:54-57 | the first tile starts at 0, the last ends at W and H, and neighbouring tiles share their edges |
| Cv2Stuff.SpanWidth | src/utils/cv2_stuff.py:54-57 | along one axis, a tile is size // count or one more pixels long |
| Cv2Stuff.TileSize | src/utils/cv2_stuff.py:54-57 | every tile is W // cols or W // cols + 1 wide and H // rows or H // rows + 1 high |
| Cv2Stuff.TilesPartition | src/utils/cv2_stuff.py:54-58 | every pixel lies in exactly one tile: in tile (row, col) exactly when these are its owners, which are inside the grid |
| Cv2Stuff.TileOfIndex | src/train/gather_piece_images2.py:120-121 | index i of 0..63 is enumerated as tile (i // 8, i % 8), inside the 8×8 grid, with i = 8·row + col |
| Cv2Stuff.TileOfIndexOnto | src/train/gather_piece_images2.py:120-121 | every tile of the 8×8 grid comes from exactly one index, 8·row + col |

## Left out

- `find_chessboard_differences` (src/utils/chess_stuff.py:46-47) has the body `pass`, so it returns None. The difference list is an input of the model. In src/chessbot.py:37-38 that None reaches `try_update_board`, whose `len(None)` would raise TypeError. That call path is not modelled.
- Promotion, castling and en passant are only TODO comments in the source (src/chessbot_move_heuristics.py:49, 102, 129), so no behaviour is modelled for them.
- Chess legality is not modelled. `find_move`, the piece placement after `push` and the new game state after `push` come from an abstract `Rules` oracle. The game state (side to move, castling rights, en passant square, move clocks) is part of the position, and `clear` resets it, but how a move changes it is left to the oracle.
- The logging and the `pprint` of the differences are I/O. They are left out.
- `angle_between_points` is floating-point vector arithmetic with `arccos`. The angles are an abstract function returning reals, and NaN angles are not modelled.
- `get_tile_in_image`'s numpy slice `image[y0:y1, x0:x1]` is not modelled. A tile is its four bounds, and the image is only its width and height.
- src/cv/pieces.py:61-64 applies the same tile formula to a square board image. It is covered by `Cv2Stuff.TileBounds` with rows = cols = 8 and width = height.
- The ML models, the perspective warp, the rendering (`draw_polygon`, `write_text`, `svg_to_numpy`), the camera, the CLI and the training scripts are not modelled. They are not part of this model.
- The orchestration in src/chessbot.py is not modelled. It feeds only the top classification candidate to the heuristics (src/chessbot.py:66) and clears the board when no chessboard is found (src/chessbot.py:77-79).
- `PyText`: Python's full Unicode case mapping is not modelled. Only the Kelvin sign's lower-casing is modelled, because it is the one non-ASCII character `Piece.from_symbol` accepts. The whitespace set is the one `str.isspace()` accepts; the model treats Python strings as sequences of code points.
- Words: its own contract says only that the words are non-empty and free of whitespace. `PyText.WordsCollapse` gives the full characterisation of `str.split()`.
- `MathStuff.VertexNeighbours` states the neighbours through the abstract angle function. It does not state that the angle is the geometric angle at the vertex, because that computation is left out.
