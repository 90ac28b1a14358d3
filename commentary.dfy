/**
 * The commentary side of src/components/AriaChat.jsx: which moves Aria
 * comments on, how a game-over message is read, and the two "process each
 * key once" refs that keep a move or a result from being commented twice.
 *
 * The chat request itself (`generateAriaResponse`, a network call) is an
 * outbox: every call is appended to `requests`. The 1500 ms delay before a
 * move comment is the `pending` comment, sent by `CommentTimerFires`.
 */
module Commentary {
  import opened Wrappers
  import opened Strings
  import opened Board
  import opened Reports

  /** The `lastMoveEvent` prop. */
  datatype MoveEvent = MoveEvent(
    san: string, piece: PieceKind, captured: Option<PieceKind>, isCheck: bool, color: Color,
    moveNumber: nat, totalMoves: nat, timestamp: nat)

  /**
   * `isAriasMove` (line 77-78) compares the mover's colour with a copy of
   * itself, so it never holds: every move is read as the opponent's.
   */
  function IsAriasMove(c: Color): (r: bool)
    ensures !r
  {
    c != (if c == White then White else Black)
  }

  /** `PIECE_NAMES` (line 22). */
  function PieceName(k: PieceKind): string {
    match k
    case Pawn => "pawn"
    case Knight => "knight"
    case Bishop => "bishop"
    case Rook => "rook"
    case Queen => "queen"
    case King => "king"
  }

  /** Why a move is commented on. */
  datatype Trigger = MajorCapture(kind: PieceKind) | GaveCheck | QueenMove | Heartbeat

  predicate IsMajorCapture(ev: MoveEvent) {
    ev.captured == Some(Queen) || ev.captured == Some(Rook)
  }

  predicate IsLateQueenMove(ev: MoveEvent) {
    ev.piece == Queen && ev.totalMoves > 10
  }

  /**
   * The first-match-wins decision of lines 84-116. `draw` stands for the
   * `Math.random()` of the queen branch. A major capture wins over
   * everything; then a check, whatever was captured; a late queen move
   * comments only on a draw below 0.3, and a failed draw does not fall
   * through to the heartbeat; otherwise every eighth half-move after the
   * sixth gets a comment.
   */
  function Decide(ev: MoveEvent, draw: real): (r: Option<Trigger>)
    ensures IsMajorCapture(ev) ==> r == Some(MajorCapture(ev.captured.value))
    ensures !IsMajorCapture(ev) && ev.isCheck ==> r == Some(GaveCheck)
    ensures !IsMajorCapture(ev) && !ev.isCheck && IsLateQueenMove(ev) ==>
      r == (if draw < 0.3 then Some(QueenMove) else None)
    ensures !IsMajorCapture(ev) && !ev.isCheck && !IsLateQueenMove(ev) ==>
      r == (if ev.totalMoves > 6 && ev.totalMoves % 8 == 0 then Some(Heartbeat) else None)
    ensures r.Some? && r.value.MajorCapture? ==> r.value.kind == Queen || r.value.kind == Rook
  {
    if ev.captured.Some? && (ev.captured.value == Queen || ev.captured.value == Rook) then
      Some(MajorCapture(ev.captured.value))
    else if ev.isCheck then
      Some(GaveCheck)
    else if ev.piece == Queen && ev.totalMoves > 10 then
      if draw < 0.3 then Some(QueenMove) else None
    else if ev.totalMoves > 6 && ev.totalMoves % 8 == 0 then
      Some(Heartbeat)
    else
      None
  }

  /**
   * The context text handed to the chat request for a triggered comment
   * (lines 85-116): the Aria variant when `isAriasMove` holds, else the
   * opponent variant; `gameStatus` is the status prop.
   */
  function ContextText(ev: MoveEvent, t: Trigger, gameStatus: string): (text: string)
    ensures |text| > 0
  {
    var ariaMoved := IsAriasMove(ev.color);
    match t
    case MajorCapture(k) =>
      if ariaMoved then "You (Aria) just captured their " + PieceName(k) + " with " + ev.san + "! React excitedly, be cocky."
      else "Your opponent just captured your " + PieceName(k) + " with " + ev.san + "! React upset, make excuses."
    case GaveCheck =>
      if ariaMoved then "You (Aria) just played " + ev.san + " and put them in CHECK! Be smug about it."
      else "Your opponent just played " + ev.san + " and put you in CHECK! React surprised or worried."
    case QueenMove =>
      if ariaMoved then "You (Aria) just moved your queen: " + ev.san + ". Say something confident about your position."
      else "Opponent moved their queen: " + ev.san + ". React to it briefly."
    case Heartbeat =>
      "The game is at move " + NatToString(ev.moveNumber) + " with " + NatToString(ev.totalMoves)
      + " half-moves played. Make a brief comment about how the game is going. Game status: " + gameStatus
  }

  /** The dedup key `${san}_${timestamp}` of a move event (line 73). */
  function EventKey(ev: MoveEvent): (key: string)
    ensures |key| > |ev.san| && key[..|ev.san|] == ev.san && key[|ev.san|] == '_'
    ensures key[|ev.san| + 1..] == NatToString(ev.timestamp)
  {
    ev.san + "_" + NatToString(ev.timestamp)
  }

  /** Two events with the same SAN but different timestamps have different keys. */
  lemma KeySeparatesTimestamps(a: MoveEvent, b: MoveEvent)
    requires a.san == b.san && a.timestamp != b.timestamp
    ensures EventKey(a) != EventKey(b)
  {
    var n := |a.san| + 1;
    assert EventKey(a)[n..] == NatToString(a.timestamp);
    assert EventKey(b)[n..] == NatToString(b.timestamp);
  }

  /** The reactions of the game-over effect (lines 48-62). */
  datatype Reaction = AriaWon | AriaLost | OpponentResigned | Drawn | WonOnTime | LostOnTime

  /**
   * The ordered substring tests of lines 48-62: "Aria wins", "You win",
   * "resigned", "Draw", then "time". Inside the "time" branch the string is
   * already known not to contain "Aria wins", so `WonOnTime` never comes out.
   */
  function ClassifyGameOver(msg: string): (r: Option<Reaction>)
    ensures r == Some(AriaWon) <==> Contains(msg, "Aria wins")
    ensures r == Some(AriaLost) <==> !Contains(msg, "Aria wins") && Contains(msg, "You win")
    ensures r == Some(OpponentResigned) <==>
      !Contains(msg, "Aria wins") && !Contains(msg, "You win") && Contains(msg, "resigned")
    ensures r == Some(Drawn) <==>
      !Contains(msg, "Aria wins") && !Contains(msg, "You win") && !Contains(msg, "resigned") && Contains(msg, "Draw")
    ensures r == Some(LostOnTime) <==>
      && !Contains(msg, "Aria wins") && !Contains(msg, "You win") && !Contains(msg, "resigned")
      && !Contains(msg, "Draw") && Contains(msg, "time")
    ensures r != Some(WonOnTime)
  {
    if Contains(msg, "Aria wins") then Some(AriaWon)
    else if Contains(msg, "You win") then Some(AriaLost)
    else if Contains(msg, "resigned") then Some(OpponentResigned)
    else if Contains(msg, "Draw") then Some(Drawn)
    else if Contains(msg, "time") then
      if Contains(msg, "Aria wins") then Some(WonOnTime) else Some(LostOnTime)
    else None
  }

  /** The context text for each reaction (lines 49-61); none is empty. */
  function ReactionText(r: Reaction): (text: string)
    ensures text != ""
  {
    match r
    case AriaWon => "You (Aria) just WON the chess game! " + "Brag about it and be toxic. Rub it in."
    case AriaLost => "You (Aria) just LOST the chess game. " + "Make an excuse or grudgingly say GG. Be dramatic about it."
    case OpponentResigned => "Your opponent just RESIGNED. " + "You won! Be smug about it and laugh."
    case Drawn => "The game ended in a draw. " + "Complain about it or say you almost had them."
    case WonOnTime => "Your opponent ran out of time. " + "You won on time! Taunt them."
    case LostOnTime => "You (Aria) ran out of time and lost! " + "Be upset about it."
  }

  /**
   * How the texts the controller hands its listener are read: a mate
   * names the winner, a draw is a draw, a resignation (which also says
   * "Aria wins") is read as a plain win, and the bare "Game over!" gets no
   * reaction. So `OpponentResigned` and the time reactions never come from
   * the controller.
   */
  lemma ListenerTextReactions(m: string)
    requires IsListenerGameOverText(m)
    ensures m == AriaMates ==> ClassifyGameOver(m) == Some(AriaWon)
    ensures m == PlayerMates ==> ClassifyGameOver(m) == Some(AriaLost)
    ensures m == DrawMessage ==> ClassifyGameOver(m) == Some(Drawn)
    ensures m == ResignMessage ==> ClassifyGameOver(m) == Some(AriaWon)
    ensures m == GameOverStatus ==> ClassifyGameOver(m) == None
    ensures ClassifyGameOver(m) != Some(OpponentResigned)
    ensures ClassifyGameOver(m) != Some(WonOnTime) && ClassifyGameOver(m) != Some(LostOnTime)
  {
    if m == AriaMates {
      AriaMatesPhrases();
    } else if m == PlayerMates {
      PlayerMatesPhrases();
    } else if m == DrawMessage {
      DrawPhrases();
    } else if m == ResignMessage {
      ResignPhrases();
    } else {
      GameOverPhrases();
    }
  }

  /** The two timeout statuses read as a win or a loss, never through the "time" branch. */
  lemma TimeoutReactions()
    ensures ClassifyGameOver(TimeoutMsg(true)) == Some(AriaWon)
    ensures ClassifyGameOver(TimeoutMsg(false)) == Some(AriaLost)
  {
    AriaOnTimePhrases();
    PlayerOnTimePhrases();
  }

  /** One call of `generateAriaResponse(userText, gameContext)`. */
  datatype Request = Request(userText: string, context: string)

  /** The two refs, the scheduled move comment and the outgoing requests. */
  class Chat {
    var lastProcessedEvent: Option<string>
    var lastProcessedMove: Option<string>
    var pending: Option<string>
    var requests: seq<Request>

    constructor ()
      ensures lastProcessedEvent == None && lastProcessedMove == None && pending == None && requests == []
    {
      lastProcessedEvent := None;
      lastProcessedMove := None;
      pending := None;
      requests := [];
    }

    /**
     * The game-over effect (lines 42-67) for the prop `onGameOver` (absent
     * or a string) and the API key. Nothing happens for an absent or empty
     * message, an empty key, or the message processed last; otherwise the
     * message is recorded and, when it is classified, one request is made.
     */
    method OnGameOver(onGameOver: Option<string>, apiKey: string)
      modifies this
      ensures lastProcessedMove == old(lastProcessedMove) && pending == old(pending)
      ensures onGameOver.None? || onGameOver == Some("") || apiKey == "" || old(lastProcessedEvent) == onGameOver ==>
        lastProcessedEvent == old(lastProcessedEvent) && requests == old(requests)
      ensures !(onGameOver.None? || onGameOver == Some("") || apiKey == "" || old(lastProcessedEvent) == onGameOver) ==>
        && lastProcessedEvent == onGameOver
        && requests == old(requests) + match ClassifyGameOver(onGameOver.value)
             case None => []
             case Some(r) => [Request("[Game Over]", ReactionText(r))]
    {
      if onGameOver.None? || onGameOver.value == "" || apiKey == "" {
        return;
      }
      if lastProcessedEvent == onGameOver {
        return;
      }
      lastProcessedEvent := onGameOver;
      var r := ClassifyGameOver(onGameOver.value);
      if r.Some? {
        requests := requests + [Request("[Game Over]", ReactionText(r.value))];
      }
    }

    /**
     * The move-commentary effect (lines 70-126) run for the current props.
     * The previous run's timer is cleared first. An absent event, an empty
     * key, typing in progress or an already processed event key schedule
     * nothing. Otherwise a triggered comment records the key and is
     * scheduled; an untriggered one leaves the key unrecorded.
     */
    method OnMoveEvent(ev: Option<MoveEvent>, apiKey: string, isTyping: bool, gameStatus: string, draw: real)
      modifies this
      ensures lastProcessedEvent == old(lastProcessedEvent) && requests == old(requests)
      ensures ev.None? || apiKey == "" || isTyping || old(lastProcessedMove) == Some(EventKey(ev.value)) ==>
        pending == None && lastProcessedMove == old(lastProcessedMove)
      ensures !(ev.None? || apiKey == "" || isTyping || old(lastProcessedMove) == Some(EventKey(ev.value))) ==>
        match Decide(ev.value, draw)
        case None => pending == None && lastProcessedMove == old(lastProcessedMove)
        case Some(t) => pending == Some(ContextText(ev.value, t, gameStatus)) && lastProcessedMove == Some(EventKey(ev.value))
      ensures lastProcessedMove != old(lastProcessedMove) ==> pending.Some?
    {
      pending := None;
      if ev.None? || apiKey == "" || isTyping {
        return;
      }
      var key := EventKey(ev.value);
      if lastProcessedMove == Some(key) {
        return;
      }
      var t := Decide(ev.value, draw);
      if t.Some? {
        lastProcessedMove := Some(key);
        pending := Some(ContextText(ev.value, t.value, gameStatus));
      }
    }

    /** The 1500 ms timer of a scheduled comment fires: the request is made. */
    method CommentTimerFires()
      modifies this
      ensures lastProcessedEvent == old(lastProcessedEvent) && lastProcessedMove == old(lastProcessedMove)
      ensures pending == None
      ensures requests == old(requests) + match old(pending)
        case None => []
        case Some(c) => [Request("[Game Event]", c)]
    {
      if pending.Some? {
        requests := requests + [Request("[Game Event]", pending.value)];
        pending := None;
      }
    }
  }
}
