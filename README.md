# aria-chess: the match controller and the commentary classifier in Dafny

This project models two parts of aria-chess, a browser game in which a human
plays timed chess against "Aria", an engine opponent, while a chat panel
comments on the game.

- **The match controller** (`src/components/ChessGame.jsx`): one React
  component that is, underneath, a sequential state machine. It starts a
  match, turns taps into selections, moves and premoves, accepts drag-and-drop,
  fires a queued premove, ticks the two clocks, applies the engine's
  `bestmove` replies and handles resignation. Its pure helpers are modelled
  too: `formatTime`, `getPieceAt`, `findKingSquare`, `sqToCoords`/`coordsToSq`,
  `getLastMoveInfo`, `getGameOverMsg`, the FEN side-to-move read and the
  `bestmove` decoding.
- **The commentary classifier** (`src/components/AriaChat.jsx`): the
  first-match-wins decision of which moves get a comment, the substring
  classification of game-over messages, and the "process each key once"
  refs that guard both.

Modules, one per file:

- `Wrappers`: `Option`.
- `Strings`: the JavaScript string operations the source relies on, over
  strings of Unicode characters (see "## Left out"). These are `includes`, `startsWith`, `split(' ')`,
  `substring`, `toString` of a non-negative integer, and `padStart(2, '0')`.
- `Board`: square names, the two board orientations, `getPieceAt` and
  `findKingSquare`.
- `Clock`: `formatTime` and its inverse.
- `Rules`: chess.js as an oracle. Its fields are `startFen`, `destinations`,
  `play`, `board`, `turn`, `isGameOver`, `isCheckmate` and `isDraw`: a start position and seven
  arbitrary total functions. Every property proved about the controller
  therefore holds for every rules implementation. `play` answers `None`
  where chess.js throws. An accepted move appends exactly one history entry.
- `Notation`: the FEN side field (section 16.1 of the PGN Standard) and the
  Universal Chess Interface `bestmove` line.
- `Reports`: the status and game-over texts, `getGameOverMsg` and
  `getLastMoveInfo`.
- `ChessGame`: the controller. It is the class `Controller`, with one field
  `st: ControllerState` holding every React state hook and every ref that
  mirrors one. A handler replaces fields of `st`, as the source's `set...`
  calls replace the state snapshot React holds. `engineOut` records every
  message posted to the engine worker and `updates` every `onGameUpdate`
  call, in order. Each handler method states its whole new state and
  outboxes, and keeps `ControllerState.Valid`:
  - the clock runs exactly while a match is on;
  - a running match has time on both clocks;
  - a selection is a square and always has targets.
- `Commentary`: the classifiers as functions, and the class `Chat` holding
  the two dedup refs, the scheduled comment and the outgoing chat requests.

Time, randomness and the engine become inputs or events:

- a clock tick is `Tick`;
- the 120 ms premove timeout is `RunPremove`;
- the 1500 ms comment delay is `CommentTimerFires`;
- every line the engine sends is `OnEngineMessage`;
- `Math.random()` is a `draw: real` parameter;
- `Date.now()` and the pointer position are parameters;
- the pixel-to-cell division of `getSquareFromEvent` is left to the caller, which passes the cell `(col, row)`.

The model follows the code as written, including these behaviours:

- There is no match or session counter. The engine handler applies a
  `bestmove` to whatever game is current, even after resignation, a timeout
  or a restart, and it does not check whether a match is on
  (`Controller.OnEngineMessage`).
- A pointer-up before the match starts returns before the recorded
  pointer-down is cleared, so that position is kept
  (`Controller.PointerUp`).
- A timeout sets the status but never tells the listener (`Controller.Tick`).
- In the commentary, `isAriasMove` compares the mover's colour with a copy
  of itself, so it is always false and every comment uses the opponent
  wording (`Commentary.IsAriasMove`).
- The resignation text also contains "Aria wins", so it is read as a plain
  win and never reaches the "resigned" branch. The winning-on-time branch
  cannot be reached (`Commentary.ListenerTextReactions`,
  `Commentary.ClassifyGameOver`).

## Model

| member | source | states |
|---|---|---|
| Strings.Contains | src/components/AriaChat.jsx:48-57 | `includes`: the substring occurs at some position of the string; `ContainedChars`, `MissingChar` and `ContainsMiddle` give its consequences |
| Strings.StartsWith | src/components/ChessGame.jsx:147 | `startsWith`: the string's first characters are exactly the prefix |
| Strings.Split | src/components/ChessGame.jsx:148 | `split(' ')` always yields at least one piece, so index 0 always exists |
| Strings.SplitPiecesFree | src/components/ChessGame.jsx:148 | no piece of a split holds the separator |
| Strings.SplitWithoutSep | src/components/ChessGame.jsx:360 | a string without the separator splits into itself alone |
| Strings.SplitAfter | src/components/ChessGame.jsx:360 | splitting `a + sep + b`, `a` without separator, gives `a` followed by the pieces of `b` |
| Strings.JoinSplit | src/components/ChessGame.jsx:148 | joining the pieces of a split with the separator gives the original string |
| Strings.Substring | src/components/ChessGame.jsx:151 | `substring(i, j)` clamps both ends to the length: the slice from `i` to the smaller of `j` and the length, and the empty string when `i` is past the end |
| Strings.NatToString | src/components/ChessGame.jsx:19 | `toString` of a non-negative integer: non-empty decimal digits whose value is the number, no leading zero, one digit exactly below 10 |
| Strings.PadStart2 | src/components/ChessGame.jsx:19 | `padStart(2, '0')`: strings of length two or more are unchanged, shorter ones are left-filled with '0' to length 2, ending in the original |
| Board.SquareName | src/components/ChessGame.jsx:33 | `${fromCharCode(97 + c)}${8 - r}` names a square whose file and rank indices are the inputs |
| Board.SquareNameOf | src/components/ChessGame.jsx:39 | every square is the name of its own file and rank index |
| Board.OrientationFor | src/components/ChessGame.jsx:107 | the board is drawn with White at the bottom exactly when the human plays White |
| Board.SqToCoords | src/components/ChessGame.jsx:38-41 | every square is drawn at a column and a row in 0..7, in either orientation |
| Board.CoordsToSq | src/components/ChessGame.jsx:43-46 | every on-board cell names a square a1..h8 |
| Board.CoordsRoundTrip | src/components/ChessGame.jsx:38-46 | for both orientations, `coordsToSq(sqToCoords(sq))` is `sq` for every square |
| Board.SquareRoundTrip | src/components/ChessGame.jsx:38-46 | for both orientations, `sqToCoords(coordsToSq(col, row))` is `(col, row)` for every on-board cell: the mapping is a bijection |
| Board.OrientationsHalfTurn | src/components/ChessGame.jsx:40 | the black-side view is the white-side view turned by half a turn: both coordinates become 7 minus themselves |
| Board.PieceAt | src/components/ChessGame.jsx:21-25 | `getPieceAt` reads row 8 minus the rank digit and column file minus 'a'; anything that does not start with a square name reads as empty |
| Board.PieceAtCell | src/components/ChessGame.jsx:21-33 | the square `findKingSquare` names for grid cell `[r][c]` is the square `getPieceAt` reads back at that cell |
| Board.SquareIndex | src/components/ChessGame.jsx:341-342 | the position of a square in the a1, a2, ..., h8 order of the arming loop lies in 0..63 |
| Board.SquareAtIndex | src/components/ChessGame.jsx:341-342 | the square the loop produces at position `k` is exactly the square whose position is `k` |
| Board.FindKingSquare | src/components/ChessGame.jsx:27-36 | a found square holds the king of the colour and no earlier-scanned square (higher rank, or same rank further left) does; `None` means no square holds it |
| Clock.FormatTime | src/components/ChessGame.jsx:19 | digits, a colon, two digits; the minute field's value is `s / 60`, the second field's `s % 60`; four characters exactly below ten minutes, and the minute field has no leading zero, so the display is fully determined |
| Clock.SecondsField | src/components/ChessGame.jsx:19 | the padded seconds are exactly two digits holding the value |
| Clock.ReadFormatTime | src/components/ChessGame.jsx:19 | reading a formatted clock gives back the number of seconds |
| Clock.FormatTimeInjective | src/components/ChessGame.jsx:19 | two different clock values never display the same |
| Rules.NewGame | src/components/ChessGame.jsx:233 | `new Chess()` has the start position and an empty history |
| Rules.TryMove | src/components/ChessGame.jsx:252 | `move` fails exactly when the rules reject it; otherwise the history grows by exactly the move's entry and the position is the new one |
| Notation.FenTurn | src/components/ChessGame.jsx:360 | the side read from a FEN is never empty |
| Notation.FenTurnReadsSideField | src/components/ChessGame.jsx:360 | for a FEN made of a placement without spaces, a space and a side field, the read is that side field, whatever follows |
| Notation.FenTurnDefault | src/components/ChessGame.jsx:360 | a string with no space reads as "w" |
| Notation.MoveWord | src/components/ChessGame.jsx:148-149 | the move word is the second space-separated word when it is present and not "(none)"; it is never empty and holds no space, and a line without a space has none |
| Notation.MoveWordReadsSecondWord | src/components/ChessGame.jsx:148-149 | for any first word, a non-empty second word other than "(none)" and any rest starting with a space, the move word is exactly that second word |
| Notation.ParseEngineLine | src/components/ChessGame.jsx:146-152 | "uciok" is ready; a `bestmove` line with a move word `X` other than "(none)" is a move with `from` = `X[0..2]`, `to` = `X[2..4]` (both clamped as `substring` does), and promotion `X[4]` exactly when `X` is longer than four; its long-algebraic spelling is the first five characters of `X` |
| Notation.BestMoveRoundTrip | src/components/ChessGame.jsx:147-152 | `bestmove <from><to>[promo]` followed by nothing or by more words decodes to exactly that move |
| Notation.NoMoveIgnored | src/components/ChessGame.jsx:149 | "bestmove (none)" and a bare "bestmove" are ignored |
| Reports.AriaMatesPhrases | src/components/ChessGame.jsx:134 | Aria's mate text contains "Aria wins" and none of "You win", "Draw", "resigned" |
| Reports.PlayerMatesPhrases | src/components/ChessGame.jsx:134 | the human's mate text contains "You win" and none of "Aria wins", "Draw", "resigned" |
| Reports.DrawPhrases | src/components/ChessGame.jsx:136 | the draw text contains "Draw" and none of "Aria wins", "You win", "resigned" |
| Reports.GameOverPhrases | src/components/ChessGame.jsx:137 | the bare "Game over!" contains none of the phrases the commentary looks for |
| Reports.ResignPhrases | src/components/ChessGame.jsx:354 | the resignation text contains both "Aria wins" and "resigned" |
| Reports.AriaOnTimePhrases | src/components/ChessGame.jsx:215 | Aria's time win contains "Aria wins" and "time", not "You win" |
| Reports.PlayerOnTimePhrases | src/components/ChessGame.jsx:215 | the human's time win contains "You win" and "time", not "Aria wins" |
| Reports.GameOverMsg | src/components/ChessGame.jsx:130-138 | the text says Aria wins exactly at a checkmate with the human to move, the human wins exactly at a checkmate with Aria to move, and Draw exactly for a non-mate draw; always a listener text starting "Game over!" that does not mention "resigned", so it is never the resignation text |
| Reports.TimeoutMsg | src/components/ChessGame.jsx:214-215 | the timeout text names Aria the winner exactly when the human's clock ran out, and mentions "time" |
| Reports.LastMoveInfo | src/components/ChessGame.jsx:112-127 | none for an empty history; otherwise the last entry's fields, `moveNumber = ceil(n / 2)`, `totalMoves = n`, check and mate exactly when the SAN holds '+' or '#' |
| Reports.CharContains | src/components/ChessGame.jsx:120-121 | `includes` of a one-character string is membership of that character |
| ChessGame.Seconds | src/components/ChessGame.jsx:6-11 | the four time controls are whole minutes from 60 to 1800 seconds, so every clock starts on a full minute and is at least one second |
| ChessGame.SideFor | src/components/ChessGame.jsx:235-237 | White and Black settings choose that colour; random chooses White exactly when the draw is below 0.5 |
| ChessGame.IsTap | src/components/ChessGame.jsx:290-296 | a release is a tap when the pointer, at real-valued (possibly fractional) pixel positions, moved at most 8 pixels along each axis and was held at most 500 ms |
| ChessGame.TapThresholdsInclusive | src/components/ChessGame.jsx:296 | movements of exactly 8 pixels and holds of exactly 500 ms are still taps; any movement of more than 8 pixels along one axis, fractional ones such as 8.5 included, and a hold of 501 ms are not |
| ChessGame.Promotion | src/components/ChessGame.jsx:248-251 | a queen promotion exactly when a white pawn goes to rank 8 or a black pawn to rank 1, and no other promotion |
| ChessGame.EngineRequest | src/components/ChessGame.jsx:227-228 | two messages: `position fen ` followed by exactly the position, then `go movetime 1000` |
| ChessGame.RequestFor | src/components/ChessGame.jsx:247-251 | the request carries the given origin and destination; a promotion is only ever a queen, and only for a pawn on the origin |
| ChessGame.DecideTap | src/components/ChessGame.jsx:305-347 | on the human's turn: a target executes, then the origin deselects, then an own piece reselects, else deselect; nothing selected: only an own piece selects. On the opponent's turn: with a selection, another square queues the premove and the same square cancels; without one, an own piece arms, anything else cancels. Each outcome with its exact condition |
| ChessGame.AllSquares | src/components/ChessGame.jsx:340-343 | the 64 squares, file by file, `k`-th being file `k / 8`, rank `k % 8` |
| ChessGame.PremoveTargets | src/components/ChessGame.jsx:344 | every square except the origin, each exactly once: 63 squares for a real origin |
| ChessGame.ControllerState.Unselected | src/components/ChessGame.jsx:82 | `clearSel`: no selected square and no destinations; every other field is unchanged |
| ChessGame.Controller.PlayerToMove | src/components/ChessGame.jsx:302 | it is the human's turn exactly when the rules' side to move is the human's colour |
| ChessGame.InitialState | src/components/ChessGame.jsx:49-76 | the mount state: valid, not started, engine not ready, the not-started status, rapid time control with both clocks at it, the white side setting and colour, no selection, premove or pointer-down |
| ChessGame.Controller.constructor | src/components/ChessGame.jsx:169-170 | the initial state, and `uci` then `isready` posted to the engine |
| ChessGame.Controller.RequestEngineMove | src/components/ChessGame.jsx:225-229 | the status says Aria is thinking and exactly the position and a 1000 ms search are posted |
| ChessGame.Controller.Conclude | src/components/ChessGame.jsx:252-261 | after an accepted move the selection is cleared. A finished game gets the result text, stops the clock and the match, and the listener is told "Game over!" with the text. A human move that does not end the game asks the engine and reports thinking; an engine move reports the human's turn. Every report carries the move count and the last move's info |
| ChessGame.Controller.StartGame | src/components/ChessGame.jsx:231-243 | ignored until the engine is ready. Otherwise: a new game, both clocks at the chosen control, the colour from the side setting, selection and premove cleared, a running match. As Black the engine is asked to open; as White it is the human's turn. The listener is told, with move count 0 |
| ChessGame.Controller.ExecuteMove | src/components/ChessGame.jsx:245-264 | the request carries the queen promotion; an illegal move answers false and changes nothing at all; a legal one answers true, grows the history by one, clears selection and premove, and concludes as a human move |
| ChessGame.Controller.PieceDrop | src/components/ChessGame.jsx:267-275 | before the match: false, nothing changes. On the opponent's turn: the selection is cleared, the premove becomes (source, target), false. On the human's turn: `executeMove`'s result and effect, after clearing the selection |
| ChessGame.Controller.PointerDown | src/components/ChessGame.jsx:281-284 | records where and when the pointer went down, nothing else |
| ChessGame.Controller.TapAt | src/components/ChessGame.jsx:299-303 | the decision is about the square drawn at the tapped cell in the human's orientation: a move from the selection to it exactly when it is the human's turn and the square is a target; a premove from the selection to it; a selection or arming of it |
| ChessGame.Controller.SelectPiece | src/components/ChessGame.jsx:85-89 | selects a square with its destinations exactly when it has one; otherwise clears the selection |
| ChessGame.Controller.ArmPremove | src/components/ChessGame.jsx:335-344 | selects the square with exactly the 63 other squares as targets and clears the premove |
| ChessGame.Controller.Perform | src/components/ChessGame.jsx:305-347 | carries out each tap decision with its exact state change; only an executed move posts or reports anything |
| ChessGame.Controller.PointerUp | src/components/ChessGame.jsx:286-349 | without a recorded pointer-down, or before the match, nothing changes. A drag or an off-board release only clears the recorded pointer-down. A tap also carries out the decision for the tapped square, taken in the state before the release |
| ChessGame.Controller.RunPremove | src/components/ChessGame.jsx:175-203 | fires only with a premove queued, the match on and the human to move. The premove is cleared before the attempt, so it runs at most once. An illegal premove changes nothing else; a legal one concludes as a human move |
| ChessGame.Controller.Tick | src/components/ChessGame.jsx:206-223 | inert unless the clock runs. Only the clock of the side to move changes, by one second. When `prev - 1 <= 0` it shows 0, the match and clock stop, and the status names the side to move as the loser on time. Nothing is posted and the listener is not told |
| ChessGame.Controller.OnEngineMessage | src/components/ChessGame.jsx:144-167 | "uciok" marks the engine ready. A decoded best move the rules accept concludes as an engine move, keeping the premove. Other lines, "(none)", a missing move and a rejected move change nothing. The match state is not consulted |
| ChessGame.Controller.Resign | src/components/ChessGame.jsx:351-357 | during a match: stops match and clock, clears selection and premove, sets the resignation text, and reports "Game over!" with the text and no move info. Otherwise nothing changes |
| ChessGame.Controller.SetTimeControl | src/components/ChessGame.jsx:481 | only the time control changes |
| ChessGame.Controller.SetPlaySide | src/components/ChessGame.jsx:470 | only the side setting changes |
| Commentary.IsAriasMove | src/components/AriaChat.jsx:77-78 | false for both colours |
| Commentary.PieceName | src/components/AriaChat.jsx:22 | the `PIECE_NAMES` table: the English name of each piece kind |
| Commentary.IsMajorCapture | src/components/AriaChat.jsx:85 | a capture of a queen or a rook |
| Commentary.IsLateQueenMove | src/components/AriaChat.jsx:104 | a queen move after the tenth half-move |
| Commentary.Decide | src/components/AriaChat.jsx:84-116 | a queen or rook capture always comments, whatever else holds. Otherwise a check always comments, including a minor capture with check. Otherwise a queen move after move 10 comments exactly when the draw is below 0.3, with no fall-through to the heartbeat. Otherwise the heartbeat comments exactly when `totalMoves > 6` and `totalMoves % 8 == 0` |
| Commentary.ContextText | src/components/AriaChat.jsx:85-116 | every triggered comment has a non-empty context |
| Commentary.EventKey | src/components/AriaChat.jsx:73 | the key is the SAN, then '_', then the decimal digits of the timestamp |
| Commentary.KeySeparatesTimestamps | src/components/AriaChat.jsx:73-74 | the same SAN at two different timestamps gives two different keys, so neither blocks the other |
| Commentary.ClassifyGameOver | src/components/AriaChat.jsx:48-62 | the ordered substring tests: each reaction exactly when its phrase is present and no earlier one is; winning on time never comes out |
| Commentary.ReactionText | src/components/AriaChat.jsx:49-61 | the context text of each reaction; none is empty |
| Commentary.ListenerTextReactions | src/components/AriaChat.jsx:48-62 | of the controller's game-over texts, Aria's mate and the resignation read as Aria's win, the human's mate as her loss, the draw as a draw, and the bare "Game over!" gets no reaction; never the resignation or time reactions |
| Commentary.TimeoutReactions | src/components/AriaChat.jsx:48-56 | the two timeout texts read as a plain win or loss, before the "time" test is reached |
| Commentary.Chat.constructor | src/components/AriaChat.jsx:31-32 | both refs start empty, nothing scheduled, no request |
| Commentary.Chat.OnGameOver | src/components/AriaChat.jsx:42-67 | an absent or empty message, an empty key, or the message handled last does nothing. Otherwise the message is recorded and one request is made exactly when it is classified, with that reaction's context |
| Commentary.Chat.OnMoveEvent | src/components/AriaChat.jsx:70-126 | the previous scheduled comment is cancelled. No event, no key, typing, or an already recorded key schedules nothing. Otherwise the key is recorded exactly when a comment is triggered, and that comment is scheduled |
| Commentary.Chat.CommentTimerFires | src/components/AriaChat.jsx:121-123 | a scheduled comment becomes exactly one "[Game Event]" request; the refs are untouched |

## Left out

- Strings are sequences of Unicode characters, not of UTF-16 code units as in JavaScript, so `substring`, `length` (the `moveStr.length > 4` test), indexing (`moveStr[4]`) and `padStart` differ from JavaScript only on characters outside the Basic Multilingual Plane, which engine lines, SANs and the status texts never contain.
- Chess rules: chess.js is an oracle (`Rules.Oracle`). Move legality, the board after a move, check, mate and draw are not computed. `findKingSquare` runs over an arbitrary 8 by 8 board.
- Pixel geometry: the floating-point division of `getSquareFromEvent` (src/components/ChessGame.jsx:92-109) is out. `PointerUp` receives the cell `(col, row)`, and only its on-board range check and `coordsToSq` are modelled.
- Controller.OnEngineMessage: the `typeof line === 'string'` test is not modelled; engine lines are strings.
- The legal moves stored by `selectPiece` are kept as their destination squares only. The destination is the one field the handlers read. The overlay's capture test also reads `captured` and `flags` (src/components/ChessGame.jsx:421), and it is presentation, left out below.
- Timers and workers are events, not real time. The 120 ms premove delay and its cancellation by a later render are collapsed into `RunPremove`: the effect's guard and the timer body together. Races between timers are not modelled.
- The unmount cleanup, which terminates the worker and clears the interval (src/components/ChessGame.jsx:171), is not modelled.
- `Math.random()` and `Date.now()` are parameters.
- `onGameUpdate` is always present; the `if (onGameUpdate)` tests are not modelled.
- JSX, the overlays (src/components/ChessGame.jsx:362-452) and the styling are presentation.
- `generateAriaResponse` (src/components/AriaChat.jsx:128-193) is a network call: each call is an entry of `Chat.requests`. The chat messages, the prompt text, the `isTyping` flag it sets, and the 1500 ms delay's interplay with re-renders are not modelled. The delay is the scheduled `pending` comment, cleared by the next `OnMoveEvent`.
- ControllerState.Valid does not say that the status and the listener's game-over argument are one of the known texts. Each handler's ensures names the exact text instead, and `Reports.GameOverMsg` ensures `IsListenerGameOverText`.
- src/components/ApiKeyModal.jsx (localStorage and a trimmed `gsk_` prefix test), src/components/ChessTest.jsx (a debug harness around chess.js) and vite.config.js are not part of this model.
- src/App.jsx is not part of this model. It is prop wiring that never passes `lastMoveEvent` (src/App.jsx:25-30), so the move classifier is modelled standalone.
