/**
 * The two text formats the controller reads: the side-to-move field of a
 * FEN string (the Forsyth-Edwards Notation of section 16.1 of the PGN
 * Standard), and the `bestmove` command of the Universal Chess Interface
 * with its long-algebraic move such as "e7e8q"
 * (src/components/ChessGame.jsx, lines 144-153 and 360).
 */
module Notation {
  import opened Wrappers
  import opened Strings
  import opened Board
  import opened Rules

  /** `fen === 'start' ? 'w' : (fen.split(' ')[1] || 'w')`: a missing or empty field reads as "w". */
  function FenTurn(fen: string): (t: string)
    ensures t != ""
  {
    if fen == "start" then "w"
    else
      var fields := Split(fen, ' ');
      if |fields| > 1 && fields[1] != "" then fields[1] else "w"
  }

  /** A FEN read where the placement field (no spaces) is followed by a space and the side field. */
  lemma FenTurnReadsSideField(placement: string, side: string, rest: string)
    requires ' ' !in placement && ' ' !in side && side != ""
    requires rest == "" || rest[0] == ' '
    ensures FenTurn(placement + " " + side + rest) == side
  {
    var fen := placement + " " + side + rest;
    assert fen[|placement|] == ' ';
    assert ' ' in fen && ' ' !in "start";
    assert fen == placement + [' '] + (side + rest);
    SplitAfter(placement, side + rest, ' ');
    if rest == "" {
      assert side + rest == side;
      SplitWithoutSep(side, ' ');
    } else {
      assert side + rest == side + [' '] + rest[1..];
      SplitAfter(side, rest[1..], ' ');
    }
  }

  /** A string with no space at all, other than "start", has no side field: white is assumed. */
  lemma FenTurnDefault(fen: string)
    requires ' ' !in fen
    ensures FenTurn(fen) == "w"
  {
    if fen != "start" {
      SplitWithoutSep(fen, ' ');
    }
  }

  /** A line from the engine, as the message handler tells them apart. */
  datatype EngineLine = Ready | BestMove(move: MoveRequest) | Ignored

  function Min(a: int, b: int): int {
    if a <= b then a else b
  }

  /** The long-algebraic spelling of a request: origin, destination, and the promotion letter if any. */
  function UciMove(m: MoveRequest): string {
    m.from + m.to + (if m.promotion.Some? then [m.promotion.value] else [])
  }

  /** The second space-separated word of a `bestmove` line, as far as the handler uses it. */
  function MoveWord(line: string): (r: Option<string>)
    ensures r.Some? ==> r.value != "" && r.value != "(none)" && ' ' !in r.value
    ensures ' ' !in line ==> r.None?
  {
    var words := Split(line, ' ');
    SplitPiecesFree(line, ' ');
    assert ' ' !in line ==> |words| == 1 by {
      if ' ' !in line { SplitWithoutSep(line, ' '); }
    }
    if |words| > 1 && words[1] != "" && words[1] != "(none)" then Some(words[1]) else None
  }

  /** The word after the first space, when it is a non-empty word other than "(none)", is the move word. */
  lemma MoveWordReadsSecondWord(head: string, w: string, tail: string)
    requires ' ' !in head && ' ' !in w && w != "" && w != "(none)"
    requires tail == "" || tail[0] == ' '
    ensures MoveWord(head + " " + w + tail) == Some(w)
  {
    var line := head + " " + w + tail;
    assert line == head + [' '] + (w + tail);
    SplitAfter(head, w + tail, ' ');
    if tail == "" {
      assert w + tail == w;
      SplitWithoutSep(w, ' ');
    } else {
      assert w + tail == w + [' '] + tail[1..];
      SplitAfter(w, tail[1..], ' ');
    }
  }

  /**
   * The engine message handler's decoding: "uciok" marks the engine ready; a
   * line that starts with "bestmove" and has a move word decodes to a move
   * request (from = characters 0-1, to = 2-3, promotion = character 4 when the
   * word is longer than four); every other line is ignored.
   */
  function ParseEngineLine(line: string): (e: EngineLine)
    ensures e.Ready? <==> line == "uciok"
    ensures e.BestMove? <==> line != "uciok" && StartsWith(line, "bestmove") && MoveWord(line).Some?
    ensures e.BestMove? ==> UciMove(e.move) == MoveWord(line).value[..Min(|MoveWord(line).value|, 5)]
    ensures e.BestMove? ==> (e.move.promotion.Some? <==> |MoveWord(line).value| > 4)
    ensures e.BestMove? ==> var w := MoveWord(line).value;
      && e.move.from == w[..Min(|w|, 2)]
      && e.move.to == w[Min(|w|, 2)..Min(|w|, 4)]
      && (|w| > 4 ==> e.move.promotion == Some(w[4]))
  {
    if line == "uciok" then Ready
    else if StartsWith(line, "bestmove") then
      match MoveWord(line)
      case None => Ignored
      case Some(w) =>
        var m := MoveRequest(Substring(w, 0, 2), Substring(w, 2, 4), if |w| > 4 then Some(w[4]) else None);
        assert UciMove(m) == w[..Min(|w|, 5)];
        BestMove(m)
    else Ignored
  }

  /** The engine's `bestmove <move>` line, optionally followed by more words, decodes to that move. */
  lemma BestMoveRoundTrip(m: MoveRequest, tail: string)
    requires IsSquare(m.from) && IsSquare(m.to)
    requires m.promotion.Some? ==> m.promotion.value != ' '
    requires tail == "" || tail[0] == ' '
    ensures ParseEngineLine("bestmove " + UciMove(m) + tail) == BestMove(m)
  {
    var w := UciMove(m);
    var line := "bestmove " + w + tail;
    assert forall k :: 0 <= k < |w| ==> w[k] != ' ' by {
      forall k | 0 <= k < |w| ensures w[k] != ' ' {
        if k < 2 { assert w[k] == m.from[k]; } else if k < 4 { assert w[k] == m.to[k - 2]; }
      }
    }
    assert line[..8] == "bestmove";
    assert line != "uciok" by { assert line[0] != "uciok"[0]; }
    assert line == "bestmove" + [' '] + (w + tail);
    assert ' ' !in "bestmove";
    SplitAfter("bestmove", w + tail, ' ');
    if tail == "" {
      assert w + tail == w;
      SplitWithoutSep(w, ' ');
    } else {
      assert w + tail == w + [' '] + tail[1..];
      SplitAfter(w, tail[1..], ' ');
    }
    assert w != "(none)" by { assert w[0] != '('; }
    assert w[..2] == m.from && w[2..4] == m.to;
  }

  /** "bestmove (none)" and a bare "bestmove" carry no move: the handler ignores them. */
  lemma NoMoveIgnored()
    ensures ParseEngineLine("bestmove (none)") == Ignored
    ensures ParseEngineLine("bestmove") == Ignored
  {
    assert ' ' !in "bestmove" && ' ' !in "(none)";
    assert "bestmove (none)" == "bestmove" + [' '] + "(none)";
    SplitAfter("bestmove", "(none)", ' ');
    SplitWithoutSep("(none)", ' ');
    SplitWithoutSep("bestmove", ' ');
  }
}
