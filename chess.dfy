/**
 * The boundary to the chess rules library. Legality, FEN and SAN generation
 * stay in that library; the core only sees its answers, which appear here as
 * plain data: a board, the facts about a position, and the record of an
 * applied move.
 */
module Chess {
  import opened Types

  datatype Color = White | Black

  function Opponent(c: Color): (o: Color)
    ensures o != c
  {
    if c == White then Black else White
  }

  datatype PieceType = Pawn | Knight | Bishop | Rook | Queen | King

  datatype Piece = Piece(color: Color, kind: PieceType)

  /** The 64 squares in the library's board() order: rank 8 first, files a to h within a rank. */
  type Board = b: seq<Option<Piece>> | |b| == 64 witness seq(64, i => None)

  const Files: string := "abcdefgh"
  const Ranks: string := "12345678"

  predicate OnBoard(f: int, r: int) {
    1 <= f <= 8 && 1 <= r <= 8
  }

  /** The algebraic name of file f, rank r (both counted from 1). */
  function SquareName(f: int, r: int): (s: string)
    requires OnBoard(f, r)
    ensures |s| == 2 && s[0] in Files && s[1] in Ranks
  {
    [Files[f - 1], Ranks[r - 1]]
  }

  /** Square names are distinct for distinct coordinates. */
  lemma SquareNameInjective(f1: int, r1: int, f2: int, r2: int)
    requires OnBoard(f1, r1) && OnBoard(f2, r2)
    requires (f1, r1) != (f2, r2)
    ensures SquareName(f1, r1) != SquareName(f2, r2)
  {
    if f1 != f2 {
      assert SquareName(f1, r1)[0] != SquareName(f2, r2)[0];
    } else {
      assert SquareName(f1, r1)[1] != SquareName(f2, r2)[1];
    }
  }

  /** The file of a letter 'a'..'h', as 1..8; any other character has none. */
  function FileOf(c: char): (f: Option<int>)
    ensures f.Some? <==> c in Files
    ensures f.Some? ==> 1 <= f.value <= 8 && Files[f.value - 1] == c
  {
    if 'a' <= c <= 'h' then Some(c as int - 'a' as int + 1) else None
  }

  /** The rank of a digit '1'..'8', as 1..8; any other character has none. */
  function RankOf(c: char): (r: Option<int>)
    ensures r.Some? <==> c in Ranks
    ensures r.Some? ==> 1 <= r.value <= 8 && Ranks[r.value - 1] == c
  {
    if '1' <= c <= '8' then Some(c as int - '1' as int + 1) else None
  }

  /**
   * Coordinates of a square name from its first two characters. A string
   * that is too short or starts with other characters has none (the source's
   * lookup tables then give undefined).
   */
  function ParseSquare(s: string): (c: Option<(int, int)>)
    ensures c.Some? ==> OnBoard(c.value.0, c.value.1) && |s| >= 2 && s[..2] == SquareName(c.value.0, c.value.1)
  {
    if |s| >= 2 && FileOf(s[0]).Some? && RankOf(s[1]).Some? then
      Some((FileOf(s[0]).value, RankOf(s[1]).value))
    else
      None
  }

  /** Naming a square and parsing the name back gives the same coordinates. */
  lemma ParseSquareName(f: int, r: int)
    requires OnBoard(f, r)
    ensures ParseSquare(SquareName(f, r)) == Some((f, r))
  {
  }

  /** The piece on file f, rank r. */
  function At(b: Board, f: int, r: int): Option<Piece>
    requires OnBoard(f, r)
  {
    b[(8 - r) * 8 + (f - 1)]
  }

  /** The name of the square at position i of the board() order. */
  function IndexSquare(i: int): string
    requires 0 <= i < 64
  {
    SquareName(i % 8 + 1, 8 - i / 8)
  }

  /** The name of position i is a square on the board that parses back to file i % 8 + 1, rank 8 - i / 8. */
  lemma IndexSquareName(i: int)
    requires 0 <= i < 64
    ensures OnBoard(i % 8 + 1, 8 - i / 8)
    ensures ParseSquare(IndexSquare(i)) == Some((i % 8 + 1, 8 - i / 8))
  {
    ParseSquareName(i % 8 + 1, 8 - i / 8);
  }

  /** The board() order and the square lookup agree: position i holds the piece on the square it names. */
  lemma IndexSquareAt(b: Board, i: int)
    requires 0 <= i < 64
    ensures OnBoard(i % 8 + 1, 8 - i / 8)
    ensures At(b, i % 8 + 1, 8 - i / 8) == b[i]
  {
  }

  /** The first square, in board() order from position k on, that holds the king of colour c. */
  function KingSquareFrom(b: Board, c: Color, k: nat): (s: Option<string>)
    requires k <= 64
    decreases 64 - k
    ensures s.Some? ==> exists i :: k <= i < 64 && b[i] == Some(Piece(c, King)) && s.value == IndexSquare(i)
    ensures s.None? <==> forall i :: k <= i < 64 ==> b[i] != Some(Piece(c, King))
  {
    if k == 64 then None
    else if b[k] == Some(Piece(c, King)) then Some(IndexSquare(k))
    else KingSquareFrom(b, c, k + 1)
  }

  /** Like `find`, the scan stops at the first square holding the king: an earlier king is never skipped. */
  lemma {:induction false} KingSquareFirst(b: Board, c: Color, k: nat, i: nat)
    requires k <= i < 64 && b[i] == Some(Piece(c, King))
    requires forall j :: k <= j < i ==> b[j] != Some(Piece(c, King))
    ensures KingSquareFrom(b, c, k) == Some(IndexSquare(i))
    decreases i - k
  {
    if k < i {
      assert b[k] != Some(Piece(c, King));
      assert KingSquareFrom(b, c, k) == KingSquareFrom(b, c, k + 1);
      KingSquareFirst(b, c, k + 1, i);
    } else {
      assert b[k] == Some(Piece(c, King));
    }
  }

  /** The square of the king of colour c, as `board().flat().find(...)` finds it. */
  function KingSquare(b: Board, c: Color): Option<string> {
    KingSquareFrom(b, c, 0)
  }

  /** What the library reports about a move it has applied. */
  datatype MoveInfo = MoveInfo(
    color: Color,
    from: string,
    to: string,
    piece: PieceType,
    captured: Option<PieceType>,
    promotion: Option<PieceType>,
    san: string,
    flags: string)

  /** A position together with the library's answers about it. */
  datatype Position = Position(
    fen: string,
    turn: Color,
    isCheckmate: bool,
    inCheck: bool,
    isDraw: bool,
    isGameOver: bool,
    historyLength: nat,
    board: Board)

  /** The object form of a move handed to the library. */
  datatype MoveConfig = MoveConfig(from: string, to: string, promotion: Option<string>)

  /** One call to the library's move(): it applies the move, returns null, or throws. */
  datatype MoveAttempt = Moved(move: MoveInfo, after: Position) | ReturnedNull | Threw

  const StartFen: string := "rnbqkbnr/pppppppp/8/8/8/8/PPPPPPPP/RNBQKBNR w KQkq - 0 1"

  function StartPiece(i: int): Option<Piece>
    requires 0 <= i < 64
  {
    var rank := 8 - i / 8;
    var back := [Rook, Knight, Bishop, Queen, King, Bishop, Knight, Rook];
    if rank == 8 then Some(Piece(Black, back[i % 8]))
    else if rank == 7 then Some(Piece(Black, Pawn))
    else if rank == 2 then Some(Piece(White, Pawn))
    else if rank == 1 then Some(Piece(White, back[i % 8]))
    else None
  }

  /** The position of a freshly created game. */
  function StartPosition(): (p: Position)
    ensures p.turn == White && !p.isGameOver && !p.isDraw && p.historyLength == 0
  {
    Position(StartFen, White, false, false, false, false, 0, seq(64, i requires 0 <= i < 64 => StartPiece(i)))
  }
}
