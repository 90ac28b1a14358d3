/**
 * The match controller of src/components/ChessGame.jsx: the state the
 * component keeps (React state and refs) as the fields of one object, and
 * each handler (start, tap, drop, move, deferred premove, clock tick,
 * engine message, resignation) as a method on it.
 *
 * Timers, the engine worker and the listener callback are events and
 * outboxes: the 1-second interval is `Tick`, the 120 ms premove timeout is
 * `RunPremove`, each line the engine posts is `OnEngineMessage`, every
 * `postMessage` to the engine is appended to `engineOut` and every call of
 * `onGameUpdate` to `updates`.
 */
module ChessGame {
  import opened Wrappers
  import opened Strings
  import opened Board
  import opened Rules
  import opened Notation
  import opened Reports

  /** `TIME_CONTROLS` (lines 6-11). */
  datatype TimeControl = Bullet | Blitz | Rapid | Classic

  function Seconds(tc: TimeControl): (s: nat)
    ensures 60 <= s <= 1800 && s % 60 == 0
  {
    match tc
    case Bullet => 60
    case Blitz => 180
    case Rapid => 600
    case Classic => 1800
  }

  /** `PLAY_SIDES` (lines 13-17). */
  datatype SideSetting = PlayWhite | PlayBlack | PlayRandom

  /** The human's colour at the start of a match; `draw` stands for `Math.random()` (line 236). */
  function SideFor(setting: SideSetting, draw: real): (c: Color)
    ensures setting == PlayWhite ==> c == White
    ensures setting == PlayBlack ==> c == Black
    ensures setting == PlayRandom ==> (c == White <==> draw < 0.5)
  {
    match setting
    case PlayWhite => White
    case PlayBlack => Black
    case PlayRandom => if draw < 0.5 then White else Black
  }

  datatype Premove = Premove(from: string, to: string)
  /** A pointer position in CSS pixels; `clientX`/`clientY` may be fractional. */
  datatype Point = Point(x: real, y: real)

  /** One call of `onGameUpdate(status, moveCount, gameOverString, moveInfo)`. */
  datatype GameUpdate = GameUpdate(status: string, moveCount: nat, gameOver: Option<string>, moveInfo: Option<MoveInfo>)

  /** The two messages of `requestEngineMove`: the position, then a search of 1000 ms. */
  function EngineRequest(fen: string): (r: seq<string>)
    ensures |r| == 2 && r[1] == "go movetime 1000"
    ensures StartsWith(r[0], "position fen ") && r[0][|"position fen "|..] == fen
  {
    ["position fen " + fen, "go movetime 1000"]
  }

  function Abs(x: real): real {
    if x < 0.0 then -x else x
  }

  /**
   * A pointer-down/pointer-up pair is a tap when the pointer moved at most
   * 8 pixels along each axis and was held at most 500 ms (line 296).
   */
  predicate IsTap(down: Point, downTime: int, x: real, y: real, now: int) {
    Abs(x - down.x) <= 8.0 && Abs(y - down.y) <= 8.0 && now - downTime <= 500
  }

  /**
   * Both thresholds are inclusive: 8 pixels and 500 ms still make a tap;
   * any movement beyond 8 pixels, fractional or not, and 501 ms do not.
   */
  lemma TapThresholdsInclusive(down: Point, downTime: int, d: real)
    requires d > 8.0
    ensures IsTap(down, downTime, down.x - 8.0, down.y + 8.0, downTime + 500)
    ensures !IsTap(down, downTime, down.x + d, down.y, downTime)
    ensures !IsTap(down, downTime, down.x, down.y - d, downTime)
    ensures !IsTap(down, downTime, down.x, down.y, downTime + 501)
  {
  }

  /**
   * The promotion added to a move (lines 248-251): a queen, exactly when a
   * white pawn goes to rank 8 or a black pawn to rank 1. A destination too
   * short to have a second character reads as no rank at all.
   */
  function Promotion(p: Option<Piece>, to: string): (r: Option<char>)
    ensures r == Some('q') <==>
      && p.Some? && p.value.kind == Pawn && |to| >= 2
      && ((p.value.color == White && to[1] == '8') || (p.value.color == Black && to[1] == '1'))
    ensures r.None? || r == Some('q')
  {
    if p.Some? && p.value.kind == Pawn && |to| >= 2 &&
       ((p.value.color == White && to[1] == '8') || (p.value.color == Black && to[1] == '1'))
    then Some('q') else None
  }

  /** The request `executeMove` and the premove timer pass to the rules library. */
  function RequestFor(o: Oracle, g: Game, from: string, to: string): (r: MoveRequest)
    ensures r.from == from && r.to == to
    ensures r.promotion.Some? ==>
      && r.promotion == Some('q') && PieceAt(o.board(g), from).Some?
      && PieceAt(o.board(g), from).value.kind == Pawn
  {
    MoveRequest(from, to, Promotion(PieceAt(o.board(g), from), to))
  }

  /** What a tap does, as decided by `handlePointerUp` from the turn, the selection and the tapped square. */
  datatype TapAction =
    | ExecuteTap(from: string, to: string)   // executeMove(selectedSquare, square)
    | Deselect                               // clearSel()
    | SelectTap(square: string)              // selectPiece(square)
    | QueuePremove(from: string, to: string) // setPremove({from, to}); clearSel()
    | CancelAll                              // clearSel(); clearPremove()
    | Arm(square: string)                    // clearPremove(); select with every other square
    | NoAction

  /**
   * The decision of `handlePointerUp` (lines 305-347). On the human's
   * turn with a selection a legal target wins first, then the origin,
   * then an own piece; on the opponent's turn a tap queues, cancels or arms
   * a premove. `ownPiece` says whether the tapped square holds a piece of
   * the human's colour.
   */
  function DecideTap(playerTurn: bool, selected: Option<string>, targets: seq<string>, square: string, ownPiece: bool)
    : (a: TapAction)
    ensures a.ExecuteTap? <==> playerTurn && selected.Some? && square in targets
    ensures a.ExecuteTap? ==> a.from == selected.value && a.to == square
    ensures a == Deselect <==>
      playerTurn && selected.Some? && square !in targets && (selected.value == square || !ownPiece)
    ensures a.SelectTap? <==>
      playerTurn && ownPiece && (selected.None? || (square !in targets && selected.value != square))
    ensures a.QueuePremove? <==> !playerTurn && selected.Some? && selected.value != square
    ensures a.QueuePremove? ==> a.from == selected.value && a.to == square
    ensures a == CancelAll <==>
      !playerTurn && ((selected.Some? && selected.value == square) || (selected.None? && !ownPiece))
    ensures a.Arm? <==> !playerTurn && selected.None? && ownPiece
    ensures a == NoAction <==> playerTurn && selected.None? && !ownPiece
    ensures a.SelectTap? || a.Arm? ==> a.square == square
  {
    if playerTurn then
      if selected.Some? then
        if square in targets then ExecuteTap(selected.value, square)
        else if selected.value == square then Deselect
        else if ownPiece then SelectTap(square)
        else Deselect
      else if ownPiece then SelectTap(square)
      else NoAction
    else
      if selected.Some? then
        if selected.value != square then QueuePremove(selected.value, square) else CancelAll
      else if ownPiece then Arm(square)
      else CancelAll
  }

  /** The 64 square names, file by file from a1 to h8 (lines 340-343). */
  method AllSquares() returns (all: seq<string>)
    ensures |all| == 64
    ensures forall k :: 0 <= k < 64 ==> all[k] == SquareName(k / 8, k % 8)
  {
    all := [];
    for f := 0 to 8
      invariant |all| == 8 * f
      invariant forall k :: 0 <= k < |all| ==> all[k] == SquareName(k / 8, k % 8)
    {
      for r := 1 to 9
        invariant |all| == 8 * f + (r - 1)
        invariant forall k :: 0 <= k < |all| ==> all[k] == SquareName(k / 8, k % 8)
      {
        all := all + [SquareName(f, r - 1)];
      }
    }
  }

  /**
   * The pseudo-destinations shown when a premove is armed (line 344): every
   * square except the origin, each once, in the file-major order.
   */
  method PremoveTargets(origin: string) returns (targets: seq<string>)
    ensures forall t :: t in targets <==> IsSquare(t) && t != origin
    ensures forall i, j :: 0 <= i < j < |targets| ==> targets[i] != targets[j]
    ensures |targets| == if IsSquare(origin) then 63 else 64
  {
    var all := AllSquares();
    targets := [];
    for k := 0 to 64
      invariant forall t :: t in targets ==> IsSquare(t) && t != origin && SquareIndex(t) < k
      invariant forall t :: IsSquare(t) && t != origin && SquareIndex(t) < k ==> t in targets
      invariant forall i, j :: 0 <= i < j < |targets| ==> SquareIndex(targets[i]) < SquareIndex(targets[j])
      invariant |targets| == k - (if IsSquare(origin) && SquareIndex(origin) < k then 1 else 0)
    {
      var s := all[k];
      assert IsSquare(s) && SquareIndex(s) == k;
      forall t | IsSquare(t) ensures t == s <==> SquareIndex(t) == k {
        SquareAtIndex(k, t);
      }
      if s != origin {
        targets := targets + [s];
      }
    }
    forall i, j | 0 <= i < j < |targets| ensures targets[i] != targets[j] {
      assert SquareIndex(targets[i]) < SquareIndex(targets[j]);
    }
  }

  /**
   * The component's state as React holds it: the state hooks and the refs
   * that mirror them (`gameRef`, `playerColorRef`, `gameStartedRef`) are
   * one field each, and the displayed FEN is `game.fen`.
   */
  datatype ControllerState = ControllerState(
    game: Game, engineReady: bool, status: string, gameStarted: bool,
    timeControl: TimeControl, sideSetting: SideSetting, playerColor: Color,
    playerTime: nat, ariaTime: nat, timerActive: bool,
    selected: Option<string>, legalTargets: seq<string>, premove: Option<Premove>,
    pointerDown: Option<Point>, pointerDownTime: int)
  {
    /**
     * The clock runs exactly while a match is on, a running match has time
     * on both clocks, and a selection always has targets and is a square.
     */
    predicate Valid() {
      && timerActive == gameStarted
      && (gameStarted ==> playerTime >= 1 && ariaTime >= 1)
      && (selected.None? <==> legalTargets == [])
      && (selected.Some? ==> IsSquare(selected.value))
    }

    /** The state with nothing selected. */
    function Unselected(): (s: ControllerState)
      ensures s.selected.None? && s.legalTargets == []
      ensures s.(selected := selected, legalTargets := legalTargets) == this
    {
      this.(selected := None, legalTargets := [])
    }
  }

  /** The state a component mounts with (lines 49-76). */
  function InitialState(o: Oracle): (s: ControllerState)
    ensures s.Valid() && !s.gameStarted && !s.engineReady && s.status == NotStartedStatus
    ensures s.playerTime == Seconds(s.timeControl) && s.ariaTime == Seconds(s.timeControl)
    ensures s.timeControl == Rapid && s.sideSetting == PlayWhite && s.playerColor == White
    ensures s.selected.None? && s.premove.None? && s.pointerDown.None?
  {
    ControllerState(NewGame(o), false, NotStartedStatus, false, Rapid, PlayWhite, White,
                    Seconds(Rapid), Seconds(Rapid), false, None, [], None, None, 0)
  }

  /**
   * The controller: the component's state `st`, every message posted to the
   * engine worker (`engineOut`) and every call of the `onGameUpdate`
   * listener (`updates`), in order. A handler changes `st` by replacing
   * some of its fields, as the `set...` calls of the source do.
   */
  class Controller {
    const rules: Oracle
    var st: ControllerState
    var engineOut: seq<string>
    var updates: seq<GameUpdate>

    ghost predicate Valid()
      reads this
    {
      st.Valid()
    }

    predicate PlayerToMove()
      reads this
    {
      rules.turn(st.game) == st.playerColor
    }

    /**
     * The aftermath of an accepted move `g` (lines 154-164, 190-199 and
     * 252-261): the board shows `g` and the selection is gone; a finished
     * game stops the match and reports its result, otherwise the engine is
     * asked to reply after a human move and the human is told it is their
     * turn after an engine move. The listener gets the move count and the
     * description of the last move. `before` is the state the move was
     * offered in; the premove is stated by the caller.
     */
    twostate predicate Concluded(before: ControllerState, g: Game, humanMoved: bool)
      reads this
    {
      var s := before.Unselected().(game := g, premove := st.premove);
      var n := |g.history|;
      var info := LastMoveInfo(g.history, s.playerColor);
      if rules.isGameOver(g) then
        var msg := GameOverMsg(rules.isCheckmate(g), rules.isDraw(g), rules.turn(g), s.playerColor);
        && st == s.(status := msg, gameStarted := false, timerActive := false)
        && engineOut == old(engineOut)
        && updates == old(updates) + [GameUpdate(GameOverStatus, n, Some(msg), info)]
      else if humanMoved then
        && st == s.(status := Thinking)
        && engineOut == old(engineOut) + EngineRequest(g.fen)
        && updates == old(updates) + [GameUpdate(Thinking, n, None, info)]
      else
        && st == s.(status := YourTurn)
        && engineOut == old(engineOut)
        && updates == old(updates) + [GameUpdate(YourTurn, n, None, info)]
    }

    /** The mount effect: the initial state, and `uci`, `isready` posted to the engine. */
    constructor (rules: Oracle)
      ensures Valid() && this.rules == rules && st == InitialState(rules)
      ensures engineOut == ["uci", "isready"] && updates == []
    {
      this.rules := rules;
      st := InitialState(rules);
      engineOut := ["uci", "isready"];
      updates := [];
    }

    /** `requestEngineMove`: the status says the engine is thinking and the position is sent to it. */
    method RequestEngineMove()
      modifies this
      ensures st == old(st).(status := Thinking)
      ensures engineOut == old(engineOut) + EngineRequest(st.game.fen) && updates == old(updates)
    {
      st := st.(status := Thinking);
      engineOut := engineOut + EngineRequest(st.game.fen);
    }

    /** The shared aftermath of an accepted move, see `Concluded`. */
    method Conclude(g: Game, humanMoved: bool)
      requires Valid()
      modifies this
      ensures Valid() && Concluded(old(st), g, humanMoved) && st.premove == old(st.premove)
    {
      st := st.Unselected().(game := g);
      var info := LastMoveInfo(g.history, st.playerColor);
      if rules.isGameOver(g) {
        var msg := GameOverMsg(rules.isCheckmate(g), rules.isDraw(g), rules.turn(g), st.playerColor);
        st := st.(status := msg, timerActive := false, gameStarted := false);
        updates := updates + [GameUpdate(GameOverStatus, |g.history|, Some(msg), info)];
      } else if humanMoved {
        RequestEngineMove();
        updates := updates + [GameUpdate(Thinking, |g.history|, None, info)];
      } else {
        st := st.(status := YourTurn);
        updates := updates + [GameUpdate(YourTurn, |g.history|, None, info)];
      }
    }

    /**
     * `startGame` (lines 231-243): only once the engine answered `uciok`; a
     * fresh game, both clocks at the chosen time control, the human's colour
     * from the side setting (`draw` stands for `Math.random()`), and the
     * engine asked to open when the human plays Black.
     */
    method StartGame(draw: real)
      requires Valid()
      modifies this
      ensures Valid()
      ensures !old(st.engineReady) ==> unchanged(this)
      ensures old(st.engineReady) ==>
        var c := SideFor(old(st.sideSetting), draw);
        var t := Seconds(old(st.timeControl));
        var s := old(st).Unselected().(game := NewGame(rules), playerTime := t, ariaTime := t,
                                       playerColor := c, gameStarted := true, timerActive := true,
                                       premove := None);
        if c == Black then
          && st == s.(status := Thinking)
          && engineOut == old(engineOut) + EngineRequest(rules.startFen)
          && updates == old(updates) + [GameUpdate(Thinking, 0, None, None)]
        else
          && st == s.(status := YourTurn)
          && engineOut == old(engineOut)
          && updates == old(updates) + [GameUpdate(YourTurn, 0, None, None)]
    {
      if !st.engineReady {
        return;
      }
      var t := Seconds(st.timeControl);
      var c := SideFor(st.sideSetting, draw);
      st := st.Unselected().(game := NewGame(rules), playerTime := t, ariaTime := t, playerColor := c,
                             gameStarted := true, timerActive := true, premove := None);
      if c == Black {
        st := st.(status := Thinking);
        updates := updates + [GameUpdate(Thinking, 0, None, None)];
        RequestEngineMove();
      } else {
        st := st.(status := YourTurn);
        updates := updates + [GameUpdate(YourTurn, 0, None, None)];
      }
    }

    /**
     * `executeMove` (lines 245-264): the move, with a queen promotion for a
     * pawn reaching the last rank, is offered to the rules; a rejected move
     * changes nothing and answers false, an accepted one also drops the
     * premove.
     */
    method ExecuteMove(from: string, to: string) returns (ok: bool)
      requires Valid()
      modifies this
      ensures Valid()
      ensures var att := TryMove(rules, old(st.game), RequestFor(rules, old(st.game), from, to));
        && (ok <==> att.Some?)
        && (att.None? ==> unchanged(this))
        && (att.Some? ==> st.premove == None && Concluded(old(st), att.value, true))
    {
      var att := TryMove(rules, st.game, RequestFor(rules, st.game, from, to));
      if att.None? {
        return false;
      }
      st := st.(premove := None);
      Conclude(att.value, true);
      return true;
    }

    /**
     * `handlePieceDrop` (lines 267-275): ignored before the match starts;
     * otherwise the selection is cleared, and a drop on the opponent's turn
     * becomes the premove while one on the human's turn is played.
     */
    method PieceDrop(source: string, target: string) returns (accepted: bool)
      requires Valid()
      modifies this
      ensures Valid()
      ensures !old(st.gameStarted) ==> !accepted && unchanged(this)
      ensures old(st.gameStarted) && !old(PlayerToMove()) ==>
        && !accepted && engineOut == old(engineOut) && updates == old(updates)
        && st == old(st).Unselected().(premove := Some(Premove(source, target)))
      ensures old(st.gameStarted) && old(PlayerToMove()) ==>
        var att := TryMove(rules, old(st.game), RequestFor(rules, old(st.game), source, target));
        && (accepted <==> att.Some?)
        && (att.None? ==> st == old(st).Unselected() && engineOut == old(engineOut) && updates == old(updates))
        && (att.Some? ==> st.premove == None && Concluded(old(st).Unselected(), att.value, true))
    {
      if !st.gameStarted {
        return false;
      }
      st := st.Unselected();
      if !PlayerToMove() {
        st := st.(premove := Some(Premove(source, target)));
        return false;
      }
      accepted := ExecuteMove(source, target);
    }

    /** `handlePointerDown` (lines 281-284): where and when the pointer went down. */
    method PointerDown(x: real, y: real, now: int)
      requires Valid()
      modifies this
      ensures Valid()
      ensures st == old(st).(pointerDown := Some(Point(x, y)), pointerDownTime := now)
      ensures engineOut == old(engineOut) && updates == old(updates)
    {
      st := st.(pointerDown := Some(Point(x, y)), pointerDownTime := now);
    }

    /** The decision for a tap on the on-board cell `(col, row)`, from the current state. */
    function TapAt(col: int, row: int): (a: TapAction)
      requires OnScreen(Coords(col, row))
      reads this
      ensures var sq := CoordsToSq(col, row, OrientationFor(st.playerColor));
        && (a.ExecuteTap? <==> PlayerToMove() && st.selected.Some? && sq in st.legalTargets)
        && (a.ExecuteTap? ==> a.from == st.selected.value && a.to == sq)
        && (a.QueuePremove? ==> st.selected == Some(a.from) && a.to == sq)
        && (a.SelectTap? || a.Arm? ==> a.square == sq)
    {
      var square := CoordsToSq(col, row, OrientationFor(st.playerColor));
      var piece := PieceAt(rules.board(st.game), square);
      DecideTap(PlayerToMove(), st.selected, st.legalTargets, square,
                piece.Some? && piece.value.color == st.playerColor)
    }

    /** What carrying out a tap decision in the state `before` does. */
    twostate predicate TapEffect(before: ControllerState, a: TapAction)
      reads this
    {
      var s := before;
      var quiet := engineOut == old(engineOut) && updates == old(updates);
      match a
      case ExecuteTap(from, to) =>
        var att := TryMove(rules, s.game, RequestFor(rules, s.game, from, to));
        if att.None? then st == s && quiet else st.premove == None && Concluded(s, att.value, true)
      case Deselect =>
        st == s.Unselected() && quiet
      case SelectTap(square) =>
        var ds := rules.destinations(s.game, square);
        && st == (if |ds| > 0 then s.(selected := Some(square), legalTargets := ds) else s.Unselected())
        && quiet
      case QueuePremove(from, to) =>
        st == s.Unselected().(premove := Some(Premove(from, to))) && quiet
      case CancelAll =>
        st == s.Unselected().(premove := None) && quiet
      case Arm(square) =>
        && st == s.(selected := Some(square), legalTargets := st.legalTargets, premove := None)
        && |st.legalTargets| == 63
        && (forall t :: t in st.legalTargets <==> IsSquare(t) && t != square)
        && quiet
      case NoAction =>
        st == s && quiet
    }

    /** `selectPiece` (lines 85-89): select a square only when it has legal moves. */
    method SelectPiece(square: string)
      requires Valid() && IsSquare(square)
      modifies this
      ensures Valid() && TapEffect(old(st), SelectTap(square))
    {
      var ds := rules.destinations(st.game, square);
      if |ds| > 0 {
        st := st.(selected := Some(square), legalTargets := ds);
      } else {
        st := st.Unselected();
      }
    }

    /** The opponent's-turn tap on an own piece (lines 335-344): arm it with every other square. */
    method ArmPremove(square: string)
      requires Valid() && IsSquare(square)
      modifies this
      ensures Valid() && TapEffect(old(st), Arm(square))
    {
      var targets := PremoveTargets(square);
      st := st.(selected := Some(square), legalTargets := targets, premove := None);
    }

    /** Carries out a tap decision. */
    method Perform(a: TapAction)
      requires Valid()
      requires a.SelectTap? || a.Arm? ==> IsSquare(a.square)
      modifies this
      ensures Valid() && TapEffect(old(st), a)
    {
      match a {
        case ExecuteTap(from, to) =>
          var _ := ExecuteMove(from, to);
        case Deselect =>
          st := st.Unselected();
        case SelectTap(square) =>
          SelectPiece(square);
        case QueuePremove(from, to) =>
          st := st.Unselected().(premove := Some(Premove(from, to)));
        case CancelAll =>
          st := st.Unselected().(premove := None);
        case Arm(square) =>
          ArmPremove(square);
        case NoAction =>
      }
    }

    /**
     * `handlePointerUp` (lines 286-349). Without a recorded pointer-down, or
     * before the match starts, nothing changes (the recorded position is
     * kept in the second case). Otherwise the recorded position is dropped;
     * a drag or a release off the board does nothing more, and a tap on the
     * cell `(col, row)` carries out `TapAt(col, row)`.
     */
    method PointerUp(x: real, y: real, now: int, col: int, row: int)
      requires Valid()
      modifies this
      ensures Valid()
      ensures old(st.pointerDown).None? || !old(st.gameStarted) ==> unchanged(this)
      ensures old(st.pointerDown).Some? && old(st.gameStarted) ==>
        if IsTap(old(st.pointerDown).value, old(st.pointerDownTime), x, y, now) && OnScreen(Coords(col, row))
        then TapEffect(old(st).(pointerDown := None), old(TapAt(col, row)))
        else st == old(st).(pointerDown := None) && engineOut == old(engineOut) && updates == old(updates)
    {
      if st.pointerDown.None? || !st.gameStarted {
        return;
      }
      var tap := IsTap(st.pointerDown.value, st.pointerDownTime, x, y, now) && OnScreen(Coords(col, row));
      var a := if tap then TapAt(col, row) else NoAction;
      st := st.(pointerDown := None);
      Perform(a);
    }

    /**
     * The premove effect (lines 175-203) when its 120 ms timer fires: with
     * a premove queued, the match on and the human to move, the premove is
     * consumed and offered as a move; an illegal premove is just dropped.
     */
    method RunPremove()
      requires Valid()
      modifies this
      ensures Valid()
      ensures !(old(st.premove).Some? && old(st.gameStarted) && old(PlayerToMove())) ==> unchanged(this)
      ensures old(st.premove).Some? && old(st.gameStarted) && old(PlayerToMove()) ==>
        var p := old(st.premove).value;
        var att := TryMove(rules, old(st.game), RequestFor(rules, old(st.game), p.from, p.to));
        && st.premove == None
        && (att.None? ==> st == old(st).(premove := None) && engineOut == old(engineOut) && updates == old(updates))
        && (att.Some? ==> Concluded(old(st), att.value, true))
    {
      if st.premove.None? || !st.gameStarted || !PlayerToMove() {
        return;
      }
      var p := st.premove.value;
      st := st.(premove := None);
      var _ := ExecuteMove(p.from, p.to);
    }

    /**
     * One second of the interval (lines 206-223): while the match is on,
     * the clock of the side to move loses a second; when it would reach
     * zero it shows zero, the match stops and the status names the winner
     * on time. Nothing is posted and the listener is not told.
     */
    method Tick()
      requires Valid()
      modifies this
      ensures Valid()
      ensures engineOut == old(engineOut) && updates == old(updates)
      ensures !(old(st.timerActive) && old(st.gameStarted)) ==> st == old(st)
      ensures old(st.timerActive) && old(st.gameStarted) ==>
        var humanClock := old(PlayerToMove());
        var before := if humanClock then old(st.playerTime) else old(st.ariaTime);
        var s := if before <= 1
          then old(st).(status := TimeoutMsg(humanClock), gameStarted := false, timerActive := false)
          else old(st);
        var after: nat := if before <= 1 then 0 else before - 1;
        st == if humanClock then s.(playerTime := after) else s.(ariaTime := after)
    {
      if !st.timerActive || !st.gameStarted {
        return;
      }
      var humanClock := PlayerToMove();
      var before := if humanClock then st.playerTime else st.ariaTime;
      var after := if before <= 1 then 0 else before - 1;
      if humanClock {
        st := st.(playerTime := after);
      } else {
        st := st.(ariaTime := after);
      }
      if before <= 1 {
        st := st.(status := TimeoutMsg(humanClock), gameStarted := false, timerActive := false);
      }
    }

    /**
     * The engine's `onmessage` handler (lines 144-167): `uciok` marks the
     * engine ready; a best move is offered to the rules and, when accepted,
     * concludes like a human move but hands the turn back and keeps the
     * premove; anything else, and a rejected move, changes nothing. The
     * handler does not look at whether a match is on.
     */
    method OnEngineMessage(line: string)
      requires Valid()
      modifies this
      ensures Valid()
      ensures ParseEngineLine(line).Ready? ==>
        st == old(st).(engineReady := true) && engineOut == old(engineOut) && updates == old(updates)
      ensures ParseEngineLine(line).Ignored? ==> unchanged(this)
      ensures ParseEngineLine(line).BestMove? ==>
        var att := TryMove(rules, old(st.game), ParseEngineLine(line).move);
        && (att.None? ==> unchanged(this))
        && (att.Some? ==> st.premove == old(st.premove) && Concluded(old(st), att.value, false))
    {
      match ParseEngineLine(line) {
        case Ready =>
          st := st.(engineReady := true);
        case Ignored =>
        case BestMove(m) =>
          var att := TryMove(rules, st.game, m);
          if att.Some? {
            Conclude(att.value, false);
          }
      }
    }

    /**
     * `resignGame` (lines 351-357): during a match, stops it, clears the
     * selection and the premove, and reports the resignation without a move.
     */
    method Resign()
      requires Valid()
      modifies this
      ensures Valid()
      ensures !old(st.gameStarted) ==> unchanged(this)
      ensures old(st.gameStarted) ==>
        && st == old(st).Unselected().(gameStarted := false, timerActive := false, premove := None,
                                       status := ResignMessage)
        && engineOut == old(engineOut)
        && updates == old(updates) + [GameUpdate(GameOverStatus, |old(st.game).history|, Some(ResignMessage), None)]
    {
      if !st.gameStarted {
        return;
      }
      st := st.Unselected().(gameStarted := false, timerActive := false, premove := None, status := ResignMessage);
      updates := updates + [GameUpdate(GameOverStatus, |st.game.history|, Some(ResignMessage), None)];
    }

    /** The time-control buttons of the setup panel (line 481). */
    method SetTimeControl(tc: TimeControl)
      requires Valid()
      modifies this
      ensures Valid() && st == old(st).(timeControl := tc)
      ensures engineOut == old(engineOut) && updates == old(updates)
    {
      st := st.(timeControl := tc);
    }

    /** The side buttons of the setup panel (line 470). */
    method SetPlaySide(side: SideSetting)
      requires Valid()
      modifies this
      ensures Valid() && st == old(st).(sideSetting := side)
      ensures engineOut == old(engineOut) && updates == old(updates)
    {
      st := st.(sideSetting := side);
    }
  }
}
