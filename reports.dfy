/**
 * What the controller reports to its listener: the status texts, the
 * description of the last move (`getLastMoveInfo`) and the game-over
 * message (`getGameOverMsg`), src/components/ChessGame.jsx, lines 112-138,
 * 212-216 and 354.
 */
module Reports {
  import opened Wrappers
  import opened Strings
  import opened Board
  import opened Rules

  const YourTurn := "Your turn."
  const Thinking := "Aria is thinking..."
  const GameOverStatus := "Game over!"
  const NotStartedStatus := "Select Time & Start"

  // The game-over texts, written in parts so that the phrases the
  // commentary looks for ("Aria wins", "You win", "resigned", "Draw",
  // "time") stand apart; each is the one string literal of the source.
  const AriaMates := "Game over! " + "Aria wins" + " by checkmate!"
  const PlayerMates := "Game over! " + "You win" + " by checkmate!"
  const DrawMessage := "Game over! " + "Draw" + "."
  const ResignMessage := "Game over! You " + "resigned" + ". " + "Aria wins" + "!"
  const AriaOnTime := "Game over! " + "Aria wins" + " on " + "time" + "!"
  const PlayerOnTime := "Game over! " + "You win" + " on " + "time" + "!"

  /** Every text the controller ever passes as the game-over argument of its listener. */
  predicate IsListenerGameOverText(m: string) {
    m == AriaMates || m == PlayerMates || m == DrawMessage || m == GameOverStatus || m == ResignMessage
  }

  /** The phrases the commentary looks for, in each controller message. */
  lemma AriaMatesPhrases()
    ensures Contains(AriaMates, "Aria wins") && !Contains(AriaMates, "You win") && !Contains(AriaMates, "Draw")
    ensures !Contains(AriaMates, "resigned")
  {
    var m := AriaMates;
    assert "resigned"[4] == 'g';
    MissingChar(m, "resigned", 4);
    ContainsMiddle("Game over! ", "Aria wins", " by checkmate!");
    MissingChar(m, "You win", 0);
    MissingChar(m, "Draw", 0);
  }

  lemma PlayerMatesPhrases()
    ensures !Contains(PlayerMates, "Aria wins") && Contains(PlayerMates, "You win") && !Contains(PlayerMates, "Draw")
    ensures !Contains(PlayerMates, "resigned")
  {
    var m := PlayerMates;
    assert "resigned"[4] == 'g';
    MissingChar(m, "resigned", 4);
    MissingChar(m, "Aria wins", 0);
    ContainsMiddle("Game over! ", "You win", " by checkmate!");
    MissingChar(m, "Draw", 0);
  }

  lemma DrawPhrases()
    ensures !Contains(DrawMessage, "Aria wins") && !Contains(DrawMessage, "You win")
    ensures !Contains(DrawMessage, "resigned") && Contains(DrawMessage, "Draw")
  {
    var m := DrawMessage;
    MissingChar(m, "Aria wins", 0);
    MissingChar(m, "You win", 0);
    assert "resigned"[4] == 'g';
    MissingChar(m, "resigned", 4);
    ContainsMiddle("Game over! ", "Draw", ".");
  }

  lemma GameOverPhrases()
    ensures !Contains(GameOverStatus, "Aria wins") && !Contains(GameOverStatus, "You win")
    ensures !Contains(GameOverStatus, "resigned") && !Contains(GameOverStatus, "Draw")
    ensures !Contains(GameOverStatus, "time")
  {
    var m := GameOverStatus;
    MissingChar(m, "Aria wins", 0);
    MissingChar(m, "You win", 0);
    assert "resigned"[4] == 'g';
    MissingChar(m, "resigned", 4);
    MissingChar(m, "Draw", 0);
    MissingChar(m, "time", 0);
  }

  lemma ResignPhrases()
    ensures Contains(ResignMessage, "Aria wins") && Contains(ResignMessage, "resigned")
  {
    var m := ResignMessage;
    ContainsMiddle("Game over! You " + "resigned" + ". ", "Aria wins", "!");
    assert m == "Game over! You " + "resigned" + (". " + "Aria wins" + "!");
    ContainsMiddle("Game over! You ", "resigned", ". " + "Aria wins" + "!");
  }

  lemma AriaOnTimePhrases()
    ensures Contains(AriaOnTime, "Aria wins") && !Contains(AriaOnTime, "You win") && Contains(AriaOnTime, "time")
  {
    var m := AriaOnTime;
    assert m == "Game over! " + "Aria wins" + (" on " + "time" + "!");
    ContainsMiddle("Game over! ", "Aria wins", " on " + "time" + "!");
    MissingChar(m, "You win", 0);
    ContainsMiddle("Game over! " + "Aria wins" + " on ", "time", "!");
  }

  lemma PlayerOnTimePhrases()
    ensures !Contains(PlayerOnTime, "Aria wins") && Contains(PlayerOnTime, "You win") && Contains(PlayerOnTime, "time")
  {
    var m := PlayerOnTime;
    MissingChar(m, "Aria wins", 0);
    assert m == "Game over! " + "You win" + (" on " + "time" + "!");
    ContainsMiddle("Game over! ", "You win", " on " + "time" + "!");
    ContainsMiddle("Game over! " + "You win" + " on ", "time", "!");
  }

  /**
   * `getGameOverMsg`: at checkmate the side to move is the side that is
   * mated, so Aria has won exactly when it is the human's turn; otherwise a
   * draw or a bare "Game over!".
   */
  function GameOverMsg(checkmate: bool, draw: bool, toMove: Color, player: Color): (m: string)
    ensures IsListenerGameOverText(m)
    ensures StartsWith(m, GameOverStatus)
    ensures Contains(m, "Aria wins") <==> checkmate && toMove == player
    ensures Contains(m, "You win") <==> checkmate && toMove != player
    ensures Contains(m, "Draw") <==> !checkmate && draw
    ensures !Contains(m, "resigned")
  {
    AriaMatesPhrases();
    PlayerMatesPhrases();
    DrawPhrases();
    GameOverPhrases();
    if checkmate then (if toMove == player then AriaMates else PlayerMates)
    else if draw then DrawMessage
    else GameOverStatus
  }

  /** The status set when a clock runs out (line 215): the side to move has lost. */
  function TimeoutMsg(playerLost: bool): (m: string)
    ensures StartsWith(m, GameOverStatus) && Contains(m, "time")
    ensures Contains(m, "Aria wins") <==> playerLost
    ensures Contains(m, "You win") <==> !playerLost
  {
    AriaOnTimePhrases();
    PlayerOnTimePhrases();
    if playerLost then AriaOnTime else PlayerOnTime
  }

  /** The `moveInfo` object handed to the listener with each applied move. */
  datatype MoveInfo = MoveInfo(
    san: string, piece: PieceKind, captured: Option<PieceKind>, isCheck: bool, isCheckmate: bool,
    color: Color, playerColor: Color, moveNumber: nat, totalMoves: nat)

  /**
   * `getLastMoveInfo`: `None` for an empty history; otherwise the last entry,
   * with check and mate read from the '+' and '#' of its SAN and the move
   * number rounded up from half the history length.
   */
  function LastMoveInfo(history: seq<MoveRecord>, player: Color): (r: Option<MoveInfo>)
    ensures r.None? <==> history == []
    ensures r.Some? ==> r.value.totalMoves == |history|
    ensures r.Some? ==> 2 * r.value.moveNumber - 1 <= |history| <= 2 * r.value.moveNumber
    ensures r.Some? ==> var last := history[|history| - 1];
      && r.value.san == last.san && r.value.piece == last.piece && r.value.captured == last.captured
      && r.value.color == last.color && r.value.playerColor == player
      && (r.value.isCheck <==> exists k :: 0 <= k < |last.san| && last.san[k] == '+')
      && (r.value.isCheckmate <==> exists k :: 0 <= k < |last.san| && last.san[k] == '#')
  {
    if |history| == 0 then None
    else
      var last := history[|history| - 1];
      CharContains(last.san, '+');
      CharContains(last.san, '#');
      Some(MoveInfo(last.san, last.piece, last.captured, Contains(last.san, "+"), Contains(last.san, "#"),
                    last.color, player, (|history| + 1) / 2, |history|))
  }

  /** `s.includes(c)` for a one-character string is membership of that character. */
  lemma CharContains(s: string, c: char)
    ensures Contains(s, [c]) <==> exists k :: 0 <= k < |s| && s[k] == c
  {
    if Contains(s, [c]) {
      var k :| 0 <= k <= |s| && OccursAt(s, [c], k);
      assert s[k] == s[k..k + 1][0];
    }
    if exists k :: 0 <= k < |s| && s[k] == c {
      var k :| 0 <= k < |s| && s[k] == c;
      assert s[k..k + 1] == [c];
      assert OccursAt(s, [c], k);
    }
  }
}
