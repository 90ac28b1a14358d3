/**
 * Squares, board orientation and board lookups of the match controller
 * (src/components/ChessGame.jsx, lines 21-46 and 107).
 *
 * A square is named by a two-character string such as "e4": a file letter
 * 'a'..'h' and a rank digit '1'..'8'. The board that the rules library
 * hands out is an 8 by 8 grid whose row 0 is rank 8 and whose column 0 is
 * file a; an empty square holds `None`.
 */
module Board {
  import opened Wrappers
  import opened Strings

  datatype Color = White | Black
  datatype PieceKind = Pawn | Knight | Bishop | Rook | Queen | King
  datatype Piece = Piece(kind: PieceKind, color: Color)

  type Grid = seq<seq<Option<Piece>>>

  /** The shape of every board the rules library returns. */
  predicate IsGrid(b: Grid) {
    |b| == 8 && forall r :: 0 <= r < |b| ==> |b[r]| == 8
  }

  predicate IsSquare(sq: string) {
    |sq| == 2 && 'a' <= sq[0] <= 'h' && '1' <= sq[1] <= '8'
  }

  /** File index, 0 for 'a' up to 7 for 'h'. */
  function FileOf(sq: string): (f: nat)
    requires IsSquare(sq)
    ensures f < 8
  {
    sq[0] as int - 'a' as int
  }

  /** Rank index, 0 for rank 1 up to 7 for rank 8. */
  function RankOf(sq: string): (rk: nat)
    requires IsSquare(sq)
    ensures rk < 8
  {
    sq[1] as int - '1' as int
  }

  /** The name of the square on file index `f` and rank index `rk`: `${fromCharCode(97 + f)}${rk + 1}`. */
  function SquareName(f: nat, rk: nat): (sq: string)
    requires f < 8 && rk < 8
    ensures IsSquare(sq) && FileOf(sq) == f && RankOf(sq) == rk
  {
    [('a' as int + f) as char, ('1' as int + rk) as char]
  }

  /** A square is determined by its file and rank. */
  lemma SquareNameOf(sq: string)
    requires IsSquare(sq)
    ensures SquareName(FileOf(sq), RankOf(sq)) == sq
  {
    var n := SquareName(FileOf(sq), RankOf(sq));
    assert n[0] == sq[0] && n[1] == sq[1];
  }

  /** The position of a square in `a1, a2, ..., a8, b1, ..., h8` order: file-major. */
  function SquareIndex(sq: string): (k: nat)
    requires IsSquare(sq)
    ensures k < 64
  {
    8 * FileOf(sq) + RankOf(sq)
  }

  /** The square at position `k` of the file-major order. */
  lemma SquareAtIndex(k: nat, sq: string)
    requires k < 64 && IsSquare(sq)
    ensures SquareName(k / 8, k % 8) == sq <==> SquareIndex(sq) == k
  {
    if SquareIndex(sq) == k {
      SquareNameOf(sq);
    }
  }

  /** `'white'` or `'black'`: the side drawn at the bottom of the board. */
  datatype Orientation = WhiteBottom | BlackBottom

  /** The board is drawn from the human's side (line 107 and line 359). */
  function OrientationFor(player: Color): (o: Orientation)
    ensures o == WhiteBottom <==> player == White
  {
    if player == White then WhiteBottom else BlackBottom
  }

  /** A screen cell: column 0 is the left edge, row 0 the top edge. */
  datatype Coords = Coords(col: int, row: int)

  predicate OnScreen(c: Coords) {
    0 <= c.col < 8 && 0 <= c.row < 8
  }

  /** `sqToCoords`: where a square is drawn. */
  function SqToCoords(sq: string, o: Orientation): (c: Coords)
    requires IsSquare(sq)
    ensures OnScreen(c)
  {
    var f, rk := FileOf(sq), RankOf(sq);
    if o == WhiteBottom then Coords(f, 7 - rk) else Coords(7 - f, rk)
  }

  /** `coordsToSq`: which square is drawn at an on-screen cell. */
  function CoordsToSq(col: int, row: int, o: Orientation): (sq: string)
    requires OnScreen(Coords(col, row))
    ensures IsSquare(sq)
  {
    if o == WhiteBottom then SquareName(col, 7 - row) else SquareName(7 - col, row)
  }

  /** Reading back the square drawn where a square is drawn gives that square. */
  lemma CoordsRoundTrip(sq: string, o: Orientation)
    requires IsSquare(sq)
    ensures CoordsToSq(SqToCoords(sq, o).col, SqToCoords(sq, o).row, o) == sq
  {
    SquareNameOf(sq);
  }

  /** Drawing the square read at a cell puts it at that cell. */
  lemma SquareRoundTrip(col: int, row: int, o: Orientation)
    requires OnScreen(Coords(col, row))
    ensures SqToCoords(CoordsToSq(col, row, o), o) == Coords(col, row)
  {
  }

  /** The two orientations differ by a half turn of the board. */
  lemma OrientationsHalfTurn(sq: string)
    requires IsSquare(sq)
    ensures SqToCoords(sq, BlackBottom).col == 7 - SqToCoords(sq, WhiteBottom).col
    ensures SqToCoords(sq, BlackBottom).row == 7 - SqToCoords(sq, WhiteBottom).row
  {
  }

  /** The first two characters of `sq` name a square. */
  predicate NamesSquare(sq: string) {
    |sq| >= 2 && IsSquare(sq[..2])
  }

  /**
   * `getPieceAt`: the column is the first character minus 'a', the row is
   * 8 minus the digit in the second character; anything outside the grid,
   * or a second character that is not a digit, reads as an empty square.
   */
  function PieceAt(b: Grid, sq: string): (p: Option<Piece>)
    ensures IsGrid(b) && NamesSquare(sq) ==> p == b[7 - RankOf(sq[..2])][FileOf(sq[..2])]
    ensures IsGrid(b) && IsSquare(sq) ==> p == b[7 - RankOf(sq)][FileOf(sq)]
    ensures IsGrid(b) && !NamesSquare(sq) ==> p == None
  {
    if |sq| >= 2 && IsDigit(sq[1]) then
      var c := sq[0] as int - 'a' as int;
      var r := 8 - (sq[1] as int - '0' as int);
      if 0 <= r < |b| && 0 <= c < |b[r]| then b[r][c] else None
    else None
  }

  /** The square read at grid cell `b[r][c]` is the square `PieceAt` reads there. */
  lemma PieceAtCell(b: Grid, r: nat, c: nat)
    requires IsGrid(b) && r < 8 && c < 8
    ensures PieceAt(b, SquareName(c, 7 - r)) == b[r][c]
  {
  }

  /** `a` comes before `b` in the scan of `findKingSquare`: higher ranks first, then left to right. */
  predicate ScansBefore(a: string, b: string)
    requires IsSquare(a) && IsSquare(b)
  {
    RankOf(a) > RankOf(b) || (RankOf(a) == RankOf(b) && FileOf(a) < FileOf(b))
  }

  /**
   * `findKingSquare`: scans the rows from rank 8 down and each row from file a
   * and returns the first square holding the king of `color`, or `None`.
   */
  method FindKingSquare(b: Grid, color: Color) returns (sq: Option<string>)
    requires IsGrid(b)
    ensures sq.Some? ==> IsSquare(sq.value) && PieceAt(b, sq.value) == Some(Piece(King, color))
    ensures sq.Some? ==> forall s :: IsSquare(s) && ScansBefore(s, sq.value) ==> PieceAt(b, s) != Some(Piece(King, color))
    ensures sq.None? ==> forall s :: IsSquare(s) ==> PieceAt(b, s) != Some(Piece(King, color))
  {
    var r := 0;
    while r < 8
      invariant 0 <= r <= 8
      invariant forall i, j :: 0 <= i < r && 0 <= j < 8 ==> b[i][j] != Some(Piece(King, color))
    {
      var c := 0;
      while c < 8
        invariant 0 <= c <= 8
        invariant forall j :: 0 <= j < c ==> b[r][j] != Some(Piece(King, color))
      {
        var p := b[r][c];
        if p.Some? && p.value.kind == King && p.value.color == color {
          sq := Some(SquareName(c, 7 - r));
          PieceAtCell(b, r, c);
          return;
        }
        c := c + 1;
      }
      r := r + 1;
    }
    sq := None;
  }
}
