/**
 * The rules library (chess.js) as the controller uses it: an oracle that
 * is given, not implemented. Its answers are the fields of `Oracle`, each an
 * arbitrary total function, so every property proved about the controller
 * holds for every rules implementation with this interface.
 */
module Rules {
  import opened Wrappers
  import opened Board

  /** `{from, to, promotion?}` as passed to `move`; the squares are not known to be valid. */
  datatype MoveRequest = MoveRequest(from: string, to: string, promotion: Option<char>)

  /** One verbose history entry: `san`, `piece`, `captured`, `color`, `from`, `to`. */
  datatype MoveRecord = MoveRecord(
    san: string, piece: PieceKind, captured: Option<PieceKind>, color: Color, from: string, to: string)

  /** A game object: its position (as FEN) and its move history. */
  datatype Game = Game(fen: string, history: seq<MoveRecord>)

  /** What an accepted move produces: the new position and the history entry. */
  datatype Played = Played(fen: string, record: MoveRecord)

  datatype Oracle = Oracle(
    startFen: string,                              // `new Chess().fen()`
    destinations: (Game, string) -> seq<string>,   // `moves({square, verbose})`, the `to` of each
    play: (Game, MoveRequest) -> Option<Played>,   // `move(mo)`; `None` where it throws
    board: Game -> Grid,                           // `board()`
    turn: Game -> Color,                           // `turn()`
    isGameOver: Game -> bool,
    isCheckmate: Game -> bool,
    isDraw: Game -> bool)

  /** `new Chess()`: the start position with an empty history. */
  function NewGame(o: Oracle): (g: Game)
    ensures g.history == [] && g.fen == o.startFen
  {
    Game(o.startFen, [])
  }

  /**
   * `game.move(m)`: a rejected request leaves no new game; an accepted one
   * replaces the position and appends exactly one entry to the history.
   */
  function TryMove(o: Oracle, g: Game, m: MoveRequest): (r: Option<Game>)
    ensures r.None? <==> o.play(g, m).None?
    ensures r.Some? ==> |r.value.history| == |g.history| + 1
    ensures r.Some? ==> r.value.history[..|g.history|] == g.history
    ensures r.Some? ==> r.value.history[|g.history|] == o.play(g, m).value.record
    ensures r.Some? ==> r.value.fen == o.play(g, m).value.fen
  {
    match o.play(g, m)
    case None => None
    case Some(p) => Some(Game(p.fen, g.history + [p.record]))
  }
}
