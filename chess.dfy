/**
 * The chess-rules collaborator, seen only at its boundary: squares and their
 * two-character names, the UCI move notation, moves, positions and a record of
 * the rules engine's operations (move conversion, promotion enumeration, move
 * application). The rules themselves are never reimplemented: every operation
 * of the rules engine is a field of `Rules`, so every statement proved about
 * this model holds for any rules engine.
 */
module ChessRules {
  import opened Wrappers

  /** A file (a..h) or rank (1..8) index. */
  type Coord = c: int | 0 <= c < 8

  datatype Square = Square(file: Coord, rank: Coord)

  /** The square's name, file letter then rank digit, as in "e7". */
  function SquareName(sq: Square): (name: string)
    ensures |name| == 2
    ensures 'a' <= name[0] <= 'h' && '1' <= name[1] <= '8'
    ensures ParseSquare(name) == Some(sq)
  {
    [('a' as int + sq.file) as char, ('1' as int + sq.rank) as char]
  }

  /** Reads a two-character square name; anything else is not a square. */
  function ParseSquare(name: string): Option<Square>
  {
    if |name| == 2 && 'a' <= name[0] <= 'h' && '1' <= name[1] <= '8'
    then Some(Square(name[0] as int - 'a' as int, name[1] as int - '1' as int))
    else None
  }

  lemma SquareNameInjective(a: Square, b: Square)
    ensures SquareName(a) == SquareName(b) ==> a == b
  {
  }

  datatype Role = Pawn | Knight | Bishop | Rook | Queen | King

  function RoleChar(role: Role): char
  {
    match role
    case Pawn => 'p'
    case Knight => 'n'
    case Bishop => 'b'
    case Rook => 'r'
    case Queen => 'q'
    case King => 'k'
  }

  function RoleUpperChar(role: Role): char
  {
    match role
    case Pawn => 'P'
    case Knight => 'N'
    case Bishop => 'B'
    case Rook => 'R'
    case Queen => 'Q'
    case King => 'K'
  }

  /**
   * A move in the Universal Chess Interface notation: a normal move from one
   * square to another with an optional promotion piece, a piece drop, or the
   * null move.
   */
  datatype Uci =
    | Normal(from: Square, to: Square, promotion: Option<Role>)
    | Put(role: Role, to: Square)
    | Null

  /** The long-algebraic text of a UCI move ("e2e4", "e7e8q", "Q@e4", "0000"). */
  function UciText(uci: Uci): (text: string)
    ensures |text| == if uci.Normal? && uci.promotion.Some? then 5 else 4
  {
    match uci
    case Normal(from, to, None) => SquareName(from) + SquareName(to)
    case Normal(from, to, Some(role)) => SquareName(from) + SquareName(to) + [RoleChar(role)]
    case Put(role, to) => [RoleUpperChar(role), '@'] + SquareName(to)
    case Null => "0000"
  }

  /** A move on the board; a drop has no from-square. */
  datatype Move = Move(from: Option<Square>, to: Square, promotion: Option<Role>)

  /** A position, identified with its FEN text (the serialisation used with legal en-passant squares). */
  datatype Board = Board(fen: string)

  /**
   * The rules engine's operations: the starting position, parsing a UCI token,
   * converting a UCI move to a legal move of a position (None when it is not
   * legal there), the position's legal promotion moves in enumeration order,
   * and playing a move without re-checking it.
   */
  datatype Rules = Rules(
    initial: Board,
    parseUci: string -> Option<Uci>,
    toMove: (Board, Uci) -> Option<Move>,
    promotionMoves: Board -> seq<Move>,
    play: (Board, Move) -> Board)
}
