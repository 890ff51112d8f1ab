/** Board differences and the resynchronisation of a board from a textual
    arrangement (src/utils/chess_stuff.py). */
module ChessStuff {
  import opened Wrappers
  import opened Chess
  import opened PyText

  datatype DifferenceType = Add | Remove

  /** One atomic difference between two boards: a piece added to, or removed
      from, one square. The piece is a whole piece, type and colour. */
  datatype Difference = Difference(kind: DifferenceType, square: Square, piece: Piece)

  /** Why a sync stops: `Piece.from_symbol` raised ValueError on a token, or
      the computed square index was outside the library's table (IndexError). */
  datatype SyncError = InvalidSymbol(token: string) | SquareOutOfRange(index: int)

  /** What a sync has built so far: the board's pieces and the unknown squares. */
  datatype SyncState = SyncState(placement: map<Square, Piece>, unknown: set<Square>)

  /** The state a sync leaves behind, and the error that stopped it, if any. */
  datatype SyncRun = SyncRun(state: SyncState, error: Option<SyncError>)

  const Cleared := SyncState(map[], {})

  /** The token grid: `arrangement.strip().split('\n')`, each line split on
      whitespace. */
  function Rows(arrangement: string): seq<seq<string>>
  {
    Grid(SplitLines(Strip(arrangement)))
  }

  /** Each line split on whitespace. */
  function Grid(lines: seq<string>): (rows: seq<seq<string>>)
    ensures |rows| == |lines|
  {
    seq(|lines|, i requires 0 <= i < |lines| => Words(lines[i]))
  }

  /** The index written for the token of line `row`, column `col`:
      `chess.square(col, 7 - row)`. */
  function CellIndex(row: int, col: int): int
  {
    SquareIndex(col, 7 - row)
  }

  /** One token of the arrangement: a piece symbol puts that piece on its
      square; `.` and `?` empty the square, and `?` also records it as
      unknown. */
  function SyncToken(st: SyncState, row: int, col: int, token: string): Result<SyncState, SyncError>
  {
    var index := CellIndex(row, col);
    if token != "." && token != "?" then
      match FromSymbol(token)
      case None => Failure(InvalidSymbol(token))
      case Some(piece) =>
        match SquareAt(index)
        case None => Failure(SquareOutOfRange(index))
        case Some(square) => Success(st.(placement := st.placement[square := piece]))
    else
      match SquareAt(index)
      case None => Failure(SquareOutOfRange(index))
      case Some(square) =>
        Success(SyncState(st.placement - {square},
                          if token == "?" then st.unknown + {square} else st.unknown))
  }

  /** The tokens of line `row` from column `col` on, stopping at the first error. */
  function SyncRow(st: SyncState, row: int, tokens: seq<string>, col: nat): SyncRun
    decreases |tokens| - col
  {
    if col >= |tokens| then SyncRun(st, None)
    else match SyncToken(st, row, col, tokens[col])
      case Failure(e) => SyncRun(st, Some(e))
      case Success(next) => SyncRow(next, row, tokens, col + 1)
  }

  /** The lines from `row` on, stopping at the first error. */
  function SyncRows(st: SyncState, rows: seq<seq<string>>, row: nat): SyncRun
    decreases |rows| - row
  {
    if row >= |rows| then SyncRun(st, None)
    else
      var run := SyncRow(st, row, rows[row], 0);
      if run.error.Some? then run else SyncRows(run.state, rows, row + 1)
  }

  /** A whole sync, starting from the cleared board. */
  function Sync(arrangement: string): SyncRun
  {
    SyncRows(Cleared, Rows(arrangement), 0)
  }

  function SyncResult(run: SyncRun): Result<set<Square>, SyncError>
  {
    match run.error
    case Some(e) => Failure(e)
    case None => Success(run.state.unknown)
  }

  /** `board_sync_from_chessboard_arrangement(board, arrangement)`: clears the
      board, then writes the arrangement token by token and returns the set
      of `?` squares. The result depends on the arrangement alone: no piece
      of the earlier board survives. When a token raises, the board keeps
      what was written before it. The game state is the one `clear()` sets. */
  method BoardSyncFromArrangement(board: Board, arrangement: string)
    returns (r: Result<set<Square>, SyncError>)
    modifies board
    ensures board.moveStack == [] && board.state == ClearedState
    ensures board.placement == Sync(arrangement).state.placement
    ensures r == SyncResult(Sync(arrangement))
  {
    board.Clear();
    var rows := SplitLines(Strip(arrangement));
    r := SyncLines(board, rows);
  }

  /** The outer loop: the lines, in order, up to the first token that raises. */
  method SyncLines(board: Board, rows: seq<string>) returns (r: Result<set<Square>, SyncError>)
    requires board.moveStack == []
    modifies board
    ensures board.moveStack == [] && board.state == old(board.state)
    ensures board.placement == SyncRows(SyncState(old(board.placement), {}), Grid(rows), 0).state.placement
    ensures r == SyncResult(SyncRows(SyncState(old(board.placement), {}), Grid(rows), 0))
  {
    var ss: set<Square> := {};
    ghost var grid := Grid(rows);
    ghost var goal := SyncRows(SyncState(board.placement, ss), grid, 0);
    for rowIndex := 0 to |rows|
      invariant board.moveStack == [] && board.state == old(board.state)
      invariant goal == SyncRows(SyncState(board.placement, ss), grid, rowIndex)
    {
      var tokens := Words(rows[rowIndex]);
      assert tokens == grid[rowIndex];
      var error;
      ss, error := SyncLine(board, ss, rowIndex, tokens);
      if error.Some? {
        return Failure(error.value);
      }
    }
    return Success(ss);
  }

  /** The inner loop: the tokens of one line, in order, up to the first one
      that raises. */
  method SyncLine(board: Board, ss: set<Square>, rowIndex: int, tokens: seq<string>)
    returns (ss': set<Square>, error: Option<SyncError>)
    requires board.moveStack == []
    modifies board
    ensures board.moveStack == [] && board.state == old(board.state)
    ensures SyncRow(SyncState(old(board.placement), ss), rowIndex, tokens, 0) ==
            SyncRun(SyncState(board.placement, ss'), error)
  {
    ss' := ss;
    for colIndex := 0 to |tokens|
      invariant board.moveStack == [] && board.state == old(board.state)
      invariant SyncRow(SyncState(old(board.placement), ss), rowIndex, tokens, 0) ==
                SyncRow(SyncState(board.placement, ss'), rowIndex, tokens, colIndex)
    {
      ss', error := WriteToken(board, ss', rowIndex, colIndex, tokens[colIndex]);
      if error.Some? {
        return;
      }
    }
    error := None;
  }

  /** The body of the inner loop: writes one token to the board and to the
      set of unknown squares, or reports the exception it raises. */
  method WriteToken(board: Board, ss: set<Square>, rowIndex: int, colIndex: int, token: string)
    returns (ss': set<Square>, error: Option<SyncError>)
    requires board.moveStack == []
    modifies board
    ensures board.moveStack == [] && board.state == old(board.state)
    ensures var step := SyncToken(SyncState(old(board.placement), ss), rowIndex, colIndex, token);
      match step
      case Failure(e) => error == Some(e) && board.placement == old(board.placement) && ss' == ss
      case Success(next) => error == None && SyncState(board.placement, ss') == next
  {
    ss' := ss;
    error := None;
    var index := CellIndex(rowIndex, colIndex);
    if token != "." && token != "?" {
      var piece := FromSymbol(token);
      if piece.None? {
        return ss', Some(InvalidSymbol(token));
      }
      var ok := board.SetPieceAt(index, piece.value);
      if !ok {
        return ss', Some(SquareOutOfRange(index));
      }
    } else {
      if token == "?" {
        var square := SquareAt(index);
        if square.None? {
          return ss', Some(SquareOutOfRange(index));
        }
        ss' := ss' + {square.value};
      }
      var ok := board.RemovePieceAt(index);
      if !ok {
        return ss', Some(SquareOutOfRange(index));
      }
    }
  }

  /** Syncing twice with the same arrangement gives the same unknown squares
      (or error) and the same board, pieces, game state and move stack, both
      times. */
  method SyncTwice(board: Board, arrangement: string)
    returns (first: Result<set<Square>, SyncError>, ghost firstPosition: Position,
             second: Result<set<Square>, SyncError>)
    modifies board
    ensures first == second
    ensures firstPosition == board.Current()
  {
    first := BoardSyncFromArrangement(board, arrangement);
    firstPosition := board.Current();
    second := BoardSyncFromArrangement(board, arrangement);
  }

  // ---------------------------------------------------------------------------
  // What a sync means for an arrangement of at most eight lines of at most
  // eight tokens: every token lands on its own square.

  predicate WellShaped(rows: seq<seq<string>>)
  {
    |rows| <= 8 && forall r :: 0 <= r < |rows| ==> |rows[r]| <= 8
  }

  predicate ValidToken(token: string)
  {
    token == "." || token == "?" || FromSymbol(token).Some?
  }

  predicate AllTokensValid(rows: seq<seq<string>>)
  {
    forall r, c :: 0 <= r < |rows| && 0 <= c < |rows[r]| ==> ValidToken(rows[r][c])
  }

  /** The token a grid places on square s: line 7 - s / 8, column s % 8, so
      the first line is rank 8 and the first token of a line is file a. */
  function TokenAt(rows: seq<seq<string>>, s: Square): Option<string>
  {
    var r := 7 - s / 8;
    var c := s % 8;
    if r < |rows| && c < |rows[r]| then Some(rows[r][c]) else None
  }

  function PieceAt(rows: seq<seq<string>>, s: Square): Option<Piece>
  {
    match TokenAt(rows, s)
    case None => None
    case Some(token) => FromSymbol(token)
  }

  /** Square s belongs to a cell read before line `row`, column `col`. */
  predicate ReadBefore(s: Square, row: int, col: int)
  {
    7 - s / 8 < row || (7 - s / 8 == row && s % 8 < col)
  }

  /** The state after reading every cell before line `row`, column `col`. */
  function ExpectedState(rows: seq<seq<string>>, row: int, col: int): SyncState
  {
    SyncState(
      map s: Square | 0 <= s < 64 && ReadBefore(s, row, col) && PieceAt(rows, s).Some? :: PieceAt(rows, s).value,
      set s: Square | 0 <= s < 64 && ReadBefore(s, row, col) && TokenAt(rows, s) == Some("?"))
  }

  /** The token in line `row`, column `col` of the grid is written to square
      col + 8 * (7 - row). */
  lemma TokenOnSquare(rows: seq<seq<string>>, row: int, col: int)
    requires 0 <= row < |rows| && row < 8 && 0 <= col < |rows[row]| && col < 8
    ensures CellIndex(row, col) == col + 8 * (7 - row)
    ensures 0 <= CellIndex(row, col) < 64
    ensures SquareAt(CellIndex(row, col)) == Some(CellIndex(row, col))
    ensures TokenAt(rows, CellIndex(row, col)) == Some(rows[row][col])
  {
    var s := CellIndex(row, col);
    assert s == (7 - row) * 8 + col;
    assert s / 8 == 7 - row && s % 8 == col;
  }

  lemma StepExpected(rows: seq<seq<string>>, row: nat, col: nat)
    requires WellShaped(rows) && row < |rows| && col < |rows[row]|
    ensures var token := rows[row][col];
      SyncToken(ExpectedState(rows, row, col), row, col, token) ==
        if ValidToken(token) then Success(ExpectedState(rows, row, col + 1))
        else Failure(InvalidSymbol(token))
  {
    var token := rows[row][col];
    var s := CellIndex(row, col);
    TokenOnSquare(rows, row, col);
    var before := ExpectedState(rows, row, col);
    var after := ExpectedState(rows, row, col + 1);
    forall t: Square
      ensures ReadBefore(t, row, col + 1) <==> ReadBefore(t, row, col) || t == s
    {
      assert t == 8 * (t / 8) + t % 8;
    }
    assert !ReadBefore(s, row, col);
    if ValidToken(token) {
      if token != "." && token != "?" {
        assert after.placement == before.placement[s := FromSymbol(token).value];
        assert after.unknown == before.unknown;
      } else {
        assert after.placement == before.placement - {s};
        assert after.unknown == if token == "?" then before.unknown + {s} else before.unknown;
      }
    }
  }

  lemma RowEnd(rows: seq<seq<string>>, row: nat)
    requires WellShaped(rows) && row < |rows|
    ensures ExpectedState(rows, row, |rows[row]|) == ExpectedState(rows, row + 1, 0)
  {
    forall t: Square | ReadBefore(t, row + 1, 0) && !ReadBefore(t, row, |rows[row]|)
      ensures TokenAt(rows, t).None?
    {
    }
  }

  lemma {:induction false} RowExpected(rows: seq<seq<string>>, row: nat, col: nat)
    requires WellShaped(rows) && row < |rows| && col <= |rows[row]|
    ensures var run := SyncRow(ExpectedState(rows, row, col), row, rows[row], col);
      (run.error.None? <==> forall c :: col <= c < |rows[row]| ==> ValidToken(rows[row][c])) &&
      (run.error.None? ==> run.state == ExpectedState(rows, row + 1, 0))
    decreases |rows[row]| - col
  {
    if col == |rows[row]| {
      RowEnd(rows, row);
    } else {
      StepExpected(rows, row, col);
      if ValidToken(rows[row][col]) {
        RowExpected(rows, row, col + 1);
      }
    }
  }

  lemma {:induction false} RowsExpected(rows: seq<seq<string>>, row: nat)
    requires WellShaped(rows) && row <= |rows|
    ensures var run := SyncRows(ExpectedState(rows, row, 0), rows, row);
      (run.error.None? <==>
         forall r, c :: row <= r < |rows| && 0 <= c < |rows[r]| ==> ValidToken(rows[r][c])) &&
      (run.error.None? ==> run.state == ExpectedState(rows, |rows|, 0))
    decreases |rows| - row
  {
    if row < |rows| {
      RowExpected(rows, row, 0);
      var run := SyncRow(ExpectedState(rows, row, 0), row, rows[row], 0);
      if run.error.None? {
        RowsExpected(rows, row + 1);
      }
    }
  }

  /** For a well-shaped arrangement the sync succeeds exactly when every token
      is a piece symbol, `.` or `?`; then each square holds the piece its token
      names (none for `.`, `?` or no token at all) and the unknown squares are
      exactly those whose token is `?`. */
  lemma SyncWellShaped(arrangement: string)
    requires WellShaped(Rows(arrangement))
    ensures var run := Sync(arrangement); var rows := Rows(arrangement);
      (run.error.None? <==> AllTokensValid(rows)) &&
      (run.error.None? ==>
         forall s: Square ::
           && (s in run.state.placement <==> PieceAt(rows, s).Some?)
           && (s in run.state.placement ==> run.state.placement[s] == PieceAt(rows, s).value)
           && (s in run.state.unknown <==> TokenAt(rows, s) == Some("?")))
  {
    var rows := Rows(arrangement);
    assert ExpectedState(rows, 0, 0) == Cleared;
    RowsExpected(rows, 0);
  }

  lemma {:induction false} RowFailsOnInvalid(st: SyncState, row: int, tokens: seq<string>, col: nat, bad: nat)
    requires col <= bad < |tokens| && !ValidToken(tokens[bad])
    ensures SyncRow(st, row, tokens, col).error.Some?
    decreases |tokens| - col
  {
    match SyncToken(st, row, col, tokens[col])
    case Failure(e) =>
    case Success(next) =>
      if col < bad {
        RowFailsOnInvalid(next, row, tokens, col + 1, bad);
      }
  }

  lemma {:induction false} RowsFailOnInvalid(st: SyncState, rows: seq<seq<string>>, row: nat, badRow: nat, badCol: nat)
    requires row <= badRow < |rows| && badCol < |rows[badRow]| && !ValidToken(rows[badRow][badCol])
    ensures SyncRows(st, rows, row).error.Some?
    decreases |rows| - row
  {
    var run := SyncRow(st, row, rows[row], 0);
    if row == badRow {
      RowFailsOnInvalid(st, row, rows[row], 0, badCol);
    } else if run.error.None? {
      RowsFailOnInvalid(run.state, rows, row + 1, badRow, badCol);
    }
  }

  /** Whatever its shape, an arrangement holding a token that is neither a
      piece symbol nor `.` nor `?` makes the sync fail. */
  lemma InvalidTokenFails(arrangement: string, row: nat, col: nat)
    requires row < |Rows(arrangement)| && col < |Rows(arrangement)[row]|
    requires !ValidToken(Rows(arrangement)[row][col])
    ensures Sync(arrangement).error.Some?
    ensures SyncResult(Sync(arrangement)).Failure?
  {
    RowsFailOnInvalid(Cleared, Rows(arrangement), 0, row, col);
  }

  // ---------------------------------------------------------------------------
  // The textual format itself: eight lines, top line first, eight
  // single-character tokens per line separated by single spaces.

  function RenderLine(line: seq<char>): string
  {
    Join(seq(|line|, c requires 0 <= c < |line| => [line[c]]), ' ')
  }

  function Render(grid: seq<seq<char>>): string
  {
    Join(seq(|grid|, r requires 0 <= r < |grid| => RenderLine(grid[r])), '\n')
  }

  predicate IsGrid(grid: seq<seq<char>>)
  {
    |grid| == 8 && forall r :: 0 <= r < 8 ==> |grid[r]| == 8
  }

  lemma RowsOfRender(grid: seq<seq<char>>)
    requires IsGrid(grid)
    requires forall r, c :: 0 <= r < 8 && 0 <= c < 8 ==> !IsSpace(grid[r][c])
    ensures Rows(Render(grid)) == seq(8, r requires 0 <= r < 8 => seq(8, c requires 0 <= c < 8 => [grid[r][c]]))
  {
    var lines := seq(|grid|, r requires 0 <= r < |grid| => RenderLine(grid[r]));
    forall r | 0 <= r < 8
      ensures '\n' !in lines[r]
      ensures |lines[r]| > 0 && lines[r][0] == grid[r][0] && lines[r][|lines[r]| - 1] == grid[r][7]
      ensures Words(lines[r]) == seq(8, c requires 0 <= c < 8 => [grid[r][c]])
    {
      var words := seq(8, c requires 0 <= c < 8 => [grid[r][c]]);
      assert lines[r] == Join(words, ' ');
      JoinAvoids(words, ' ', '\n');
      JoinEnds(words, ' ');
      WordsOfJoin(words);
    }
    JoinEnds(lines, '\n');
    var text := Render(grid);
    assert text == Join(lines, '\n');
    StripUnpadded(text);
    SplitLinesOfJoin(lines);
  }

  /** Every character that is a valid one-character token is printable. */
  lemma ValidCharIsNotSpace(ch: char)
    requires ValidToken([ch])
    ensures !IsSpace(ch)
  {
  }

  /** The canonical text of an 8x8 arrangement syncs without error: the token
      of line `row`, column `col` lands on square col + 8 * (7 - row), a piece
      symbol puts its piece there, `.` and `?` leave it empty, and exactly the
      `?` squares are reported unknown. */
  lemma SyncOfRender(grid: seq<seq<char>>)
    requires IsGrid(grid)
    requires forall r, c :: 0 <= r < 8 && 0 <= c < 8 ==> ValidToken([grid[r][c]])
    ensures Sync(Render(grid)).error.None?
    ensures forall row, col :: 0 <= row < 8 && 0 <= col < 8 ==>
      var s := col + 8 * (7 - row);
      var st := Sync(Render(grid)).state;
      && 0 <= s < 64
      && (FromSymbol([grid[row][col]]).Some? ==> s in st.placement && st.placement[s] == FromSymbol([grid[row][col]]).value)
      && (grid[row][col] == '.' || grid[row][col] == '?' ==> s !in st.placement)
      && (s in st.unknown <==> grid[row][col] == '?')
  {
    forall r, c | 0 <= r < 8 && 0 <= c < 8 ensures !IsSpace(grid[r][c]) {
      ValidCharIsNotSpace(grid[r][c]);
    }
    var text := Render(grid);
    RowsOfRender(grid);
    var rows := Rows(text);
    assert WellShaped(rows);
    assert AllTokensValid(rows);
    SyncWellShaped(text);
    var st := Sync(text).state;
    forall row, col | 0 <= row < 8 && 0 <= col < 8
      ensures var s := col + 8 * (7 - row);
        && 0 <= s < 64
        && (FromSymbol([grid[row][col]]).Some? ==> s in st.placement && st.placement[s] == FromSymbol([grid[row][col]]).value)
        && (grid[row][col] == '.' || grid[row][col] == '?' ==> s !in st.placement)
        && (s in st.unknown <==> grid[row][col] == '?')
    {
      CellOutcome(rows, st, row, col, grid[row][col]);
    }
  }

  /** A square whose cell holds the one-character token ch, in a state that
      matches the grid square by square. */
  lemma CellOutcome(rows: seq<seq<string>>, st: SyncState, row: int, col: int, ch: char)
    requires 0 <= row < |rows| && row < 8 && 0 <= col < |rows[row]| && col < 8
    requires rows[row][col] == [ch]
    requires forall s: Square ::
           && (s in st.placement <==> PieceAt(rows, s).Some?)
           && (s in st.placement ==> st.placement[s] == PieceAt(rows, s).value)
           && (s in st.unknown <==> TokenAt(rows, s) == Some("?"))
    ensures var s := col + 8 * (7 - row);
        && 0 <= s < 64
        && (FromSymbol([ch]).Some? ==> s in st.placement && st.placement[s] == FromSymbol([ch]).value)
        && (ch == '.' || ch == '?' ==> s !in st.placement)
        && (s in st.unknown <==> ch == '?')
  {
    TokenOnSquare(rows, row, col);
    var s: Square := col + 8 * (7 - row);
    assert PieceAt(rows, s) == FromSymbol([ch]);
    assert [ch] == "?" <==> ch == '?';
  }
}
