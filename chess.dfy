/** The part of the python-chess library that the core relies on: squares,
    pieces, moves, piece symbols and a board object. Chess legality is not
    modelled: a board carries an abstract rules oracle that decides which
    move, if any, `find_move` returns and where the pieces stand after `push`. */
module Chess {
  import opened Wrappers

  /** A square index: file + 8 * rank, so a1 = 0, h1 = 7 and a8 = 56. */
  type Square = s: int | 0 <= s < 64

  datatype Color = White | Black

  datatype PieceType = Pawn | Knight | Bishop | Rook | Queen | King

  /** Two pieces are equal when both their type and their colour agree. */
  datatype Piece = Piece(pieceType: PieceType, color: Color)

  datatype Move = Move(fromSquare: Square, toSquare: Square, promotion: Option<PieceType>)

  /** `chess.square(file, rank)`: the library computes the index without
      checking that file and rank lie in 0..7. */
  function SquareIndex(file: int, rank: int): int
  {
    rank * 8 + file
  }

  /** The square selected by the library's table lookup `BB_SQUARES[index]`,
      which every board and square-set operation performs. Python list
      indexing accepts -64..63, a negative index counting from the end;
      any other index raises IndexError (None). */
  function SquareAt(index: int): (r: Option<Square>)
    ensures r.Some? <==> -64 <= index < 64
    ensures r.Some? ==> r.value == index % 64
  {
    if 0 <= index < 64 then Some(index)
    else if -64 <= index < 0 then Some(index + 64)
    else None
  }

  /** `Piece.from_symbol(token)`: the type is the position of `token.lower()`
      among "pnbrqk" and the colour is white exactly when the token is upper
      case; any other token raises ValueError (None). Python lower-cases the
      KELVIN SIGN U+212A to 'k' and counts it as upper case, so it reads as a
      white king. */
  function FromSymbol(token: string): Option<Piece>
  {
    if |token| != 1 then None
    else match token[0]
      case 'p' => Some(Piece(Pawn, Black))
      case 'n' => Some(Piece(Knight, Black))
      case 'b' => Some(Piece(Bishop, Black))
      case 'r' => Some(Piece(Rook, Black))
      case 'q' => Some(Piece(Queen, Black))
      case 'k' => Some(Piece(King, Black))
      case 'P' => Some(Piece(Pawn, White))
      case 'N' => Some(Piece(Knight, White))
      case 'B' => Some(Piece(Bishop, White))
      case 'R' => Some(Piece(Rook, White))
      case 'Q' => Some(Piece(Queen, White))
      case 'K' => Some(Piece(King, White))
      case '\U{212A}' => Some(Piece(King, White))
      case _ => None
  }

  /** `Piece.symbol()`: the type's letter, upper case for white. Parsing the
      symbol gives the piece back. */
  function Symbol(p: Piece): (c: char)
    ensures FromSymbol([c]) == Some(p)
    ensures p.color == White <==> 'A' <= c <= 'Z'
  {
    match (p.pieceType, p.color)
    case (Pawn, Black) => 'p'
    case (Knight, Black) => 'n'
    case (Bishop, Black) => 'b'
    case (Rook, Black) => 'r'
    case (Queen, Black) => 'q'
    case (King, Black) => 'k'
    case (Pawn, White) => 'P'
    case (Knight, White) => 'N'
    case (Bishop, White) => 'B'
    case (Rook, White) => 'R'
    case (Queen, White) => 'Q'
    case (King, White) => 'K'
  }

  /** The only tokens that parse as a piece are its own symbol (and, for the
      white king, the Kelvin sign); upper case means white. */
  lemma FromSymbolOnlySymbols(token: string, p: Piece)
    ensures FromSymbol(token) == Some(p) <==>
              token == [Symbol(p)] || (token == ['\U{212A}'] && p == Piece(King, White))
  {
    if FromSymbol(token) == Some(p) {
      assert |token| == 1 && token == [token[0]];
    }
  }

  /** The game state a board keeps beside its pieces, which the rules read:
      the side to move, the castling rights (as the set of rook squares that
      may still castle), the en passant square and the two move counters. */
  datatype GameState = GameState(turn: Color, castlingRights: set<Square>, epSquare: Option<Square>,
                                 halfmoveClock: nat, fullmoveNumber: nat)

  /** The game state `clear()` leaves: white to move, no castling rights, no
      en passant square, the half-move clock at 0 and the move number at 1. */
  const ClearedState := GameState(White, {}, None, 0, 1)

  /** What the board's state is, as far as the model sees it: the piece on
      each occupied square, the game state and the moves pushed since the
      last set-up. */
  datatype Position = Position(placement: map<Square, Piece>, state: GameState, moveStack: seq<Move>)

  /** The chess rules, left abstract. `findMove(position, from, to)` is the
      move `Board.find_move` returns, or None where it raises
      IllegalMoveError; `play(position, move)` is the piece placement and
      `advance(position, move)` the game state after `Board.push(move)`. */
  datatype Rules = Rules(findMove: (Position, Square, Square) -> Option<Move>,
                         play: (Position, Move) -> map<Square, Piece>,
                         advance: (Position, Move) -> GameState)

  /** The position after pushing a move: the rules place the pieces and set
      the game state, and the move goes on top of the move stack. */
  function Pushed(rules: Rules, p: Position, m: Move): Position
  {
    Position(rules.play(p, m), rules.advance(p, m), p.moveStack + [m])
  }

  /** A `chess.Board`, shared by reference between its users. */
  class Board {
    const rules: Rules
    var placement: map<Square, Piece>
    var state: GameState
    var moveStack: seq<Move>

    function Current(): Position
      reads this
    {
      Position(placement, state, moveStack)
    }

    constructor (rules: Rules, placement: map<Square, Piece>, state: GameState)
      ensures this.rules == rules && this.placement == placement && this.state == state && moveStack == []
    {
      this.rules := rules;
      this.placement := placement;
      this.state := state;
      moveStack := [];
    }

    /** `find_move(from, to)`: the rules' answer; the board is not changed. */
    method FindMove(from: Square, to: Square) returns (m: Option<Move>)
      ensures m == rules.findMove(Current(), from, to)
    {
      m := rules.findMove(Current(), from, to);
    }

    /** `push(move)`: exactly one move is appended to the move stack. */
    method Push(m: Move)
      modifies this
      ensures Current() == Pushed(rules, old(Current()), m)
    {
      var before := Current();
      placement := rules.play(before, m);
      state := rules.advance(before, m);
      moveStack := moveStack + [m];
    }

    /** `clear()`: no piece is left, the game state is reset and the move
        stack is emptied. */
    method Clear()
      modifies this
      ensures placement == map[] && state == ClearedState && moveStack == []
    {
      placement := map[];
      state := ClearedState;
      moveStack := [];
    }

    /** `set_piece_at(index, piece)`: puts the piece on the square selected by
        the index and clears the move stack, leaving the game state alone; an
        index outside -64..63 raises IndexError (false) before anything
        changes. */
    method SetPieceAt(index: int, piece: Piece) returns (ok: bool)
      modifies this
      ensures ok <==> SquareAt(index).Some?
      ensures state == old(state)
      ensures ok ==> placement == old(placement)[SquareAt(index).value := piece] && moveStack == []
      ensures !ok ==> placement == old(placement) && moveStack == old(moveStack)
    {
      var square := SquareAt(index);
      ok := square.Some?;
      if ok {
        placement := placement[square.value := piece];
        moveStack := [];
      }
    }

    /** `remove_piece_at(index)`: empties the square selected by the index and
        clears the move stack, leaving the game state alone; an index outside
        -64..63 raises IndexError (false) before anything changes. */
    method RemovePieceAt(index: int) returns (ok: bool)
      modifies this
      ensures ok <==> SquareAt(index).Some?
      ensures state == old(state)
      ensures ok ==> placement == old(placement) - {SquareAt(index).value} && moveStack == []
      ensures !ok ==> placement == old(placement) && moveStack == old(moveStack)
    {
      var square := SquareAt(index);
      ok := square.Some?;
      if ok {
        placement := placement - {square.value};
        moveStack := [];
      }
    }
  }
}
