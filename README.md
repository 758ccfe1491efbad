# Chess puzzle trainer: a verified model of its puzzle sequencing

The page `script.js` (chessgameU) shows chess puzzles on a 64-square board. It
offers a ten-puzzle timed challenge with hard-coded puzzles, and a rating bank
read from a CSV file. This project models its non-presentational core and
proves properties of that model:

- **The turn sequencer.** The module globals `puzzle_solved`,
  `puzzle_solved_clean`, `lastPuzzleMoveIndex`, `puzzleIndex`, `currentFEN`
  and `currentPuzzle`, the countdown, the squares the board shows, and the
  current selection.
  - Module `Sequencing` has one pure transition function per operation of
    the page: `playerMove`, `puzzleMoveGood`, `puzzleMoveBad`, `computerMove`,
    `movePiece`, `loadFen`, the puzzle loaders, the timers and the clicks.
    The lemmas about these functions hold the properties.
  - Class `Machine.Sequencer` holds the same globals as fields. Its methods
    update them step by step, the way the script does. Each method is proved
    to end in the state the matching transition function gives.
  - Every `setTimeout` callback is a pending `Step`: a scripted reply, the
    puzzle-7 reply, a computer move, the display of the position before a
    wrong move, or the advance to the next puzzle. `Fire(k)` runs any
    pending step. The environment chooses which step runs when, so every
    firing order is covered.
- **The move validators.** Module `Validators` models the default exact-text
  check, the inline overrides for the first, third and fourth puzzles, and
  `validatePuzzle7Move` / `validatePuzzle8Move`.
- **The board.** Module `Placement` models the `fenPositions` square table,
  the digit-to-spaces expansion of the FEN piece placement, and
  `clearAllPieces` / `loadBoard` on an array of 64 class sets.
- **The rating bank.** Module `PuzzleBank` models `initPuzzles` (a loop
  proved against a line-by-line specification) and the ±100 rating window
  of `loadRandomPuzzle`.
- **The clock.** Module `Clock` models the integer countdown of
  `startTimer` / `stopTimer` and the `m:ss` text of `updateTimerDisplay`.
- **The sign-up phone check.** Module `Signup` models the check that opens
  the challenge.

The chess engine (js-chess-engine's `Game`) and `validateFEN` are not
visible. They are the value `Oracle.Engine`, a set of total functions of the
FEN text:

- whether `validateFEN` accepts a position;
- whether the engine loads it;
- the position after a move, or none if the engine throws;
- whether a position is checkmate;
- whose turn it is;
- the piece on a square;
- a piece's target squares.

The script rebuilds `game` from `currentFEN` after every probe (`new
Game(currentFEN)`), so the engine's answers are read off `currentFEN`.

JavaScript's string built-ins are written out in `Text`: `split` on one
character, `trim` over the ECMAScript white-space set, `substring` with
clamping, `padStart(2, '0')`, `String(n)`, and reading a digit string as
`Number` does.

### Where the code and its stated intent differ (the model follows the code)

- **Failed computer move.** `movePiece` catches every engine error itself and
  reloads `currentFEN` (script.js:1254-1268). The catch in `computerMove`
  would reload `currentPuzzle.fen` without counting the move
  (script.js:765-772), but it never runs. So a computer move the engine
  refuses still increments `lastPuzzleMoveIndex`
  (`Sequencing.FailedComputerMoveCounts`).
- **Wrong move and the clock.** `puzzleMoveBad` does not stop the clock
  (script.js:1057-1127). Its own advance and a time-up advance can then
  both be pending (`Sequencing.PlainBadMove` keeps the timer unchanged).
- **Time-up.** `handleTimeUp` only shows the overlay and schedules the
  advance (script.js:1875-1937). It does not clear `puzzle_solved_clean`.
- **`validatePuzzle8Move` is never called.** No branch of `playerMove`
  dispatches to it, so the eighth puzzle (`puzzleIndex === 7`) goes through
  the default check. The validator is still modelled and proved about.
- **The rating-bank path ignores `puzzleIndex`.** The CSV path never changes
  `puzzleIndex`. A bank puzzle loaded at index 0 (the initial value) would be
  judged by the first puzzle's override. `fetchPuzzlesWithFallback`, the
  only caller of `initPuzzles`, `loadPuzzle` and `loadRandomPuzzle`, is
  itself never called.
- **The puzzle-7 line is solved twice over.** On the final index,
  `validatePuzzle7Move` sets the solved mark and stops the clock before the
  move is played (script.js:2314-2318). The `playerMove` branch then sets
  the mark again when the line is used up (script.js:885-915).
- **One click runs `squareClicked` several times.** `setUpBoard` gives each
  square a `pointerdown` listener (script.js:590-593). Every `loadBoard`
  adds another one and removes none (script.js:687-695). The board's
  `click` delegation calls `squareClicked` once more (script.js:247-259).
  So after `L` calls of `loadBoard`, one physical click runs
  `squareClicked` `2 + L` times. When that number is even, a click on a
  selectable piece selects it and the next call deselects it again:
  the call after `Sequencing.ClickOtherSquare` is
  `Sequencing.ClickSelectedSquare`.
- **Stale timers.** No loader cancels the callbacks already scheduled:
  there is no `clearTimeout` in script.js. A reply, computer move or
  advance scheduled for one puzzle still fires on the next one.
  `Sequencing.FreshAttempt` keeps `pending` unchanged. With
  `Sequencing.FailedComputerMoveCounts`, a stale computer move that the new
  position refuses still raises the new puzzle's move index to 1.

## Model

| member | source | states |
|---|---|---|
| Placement.SquareIndexInverse | script.js:95 | the square table lists file `i % 8`, rank `8 - i / 8` at position `i`, and every square appears exactly at its own index |
| Placement.SquareNameInverse | script.js:95 | position and square name are inverse in the other direction too |
| Placement.ExpandConcat | script.js:661-663 | the digit and slash expansion works character by character, so it distributes over concatenation |
| Placement.ExpandRank | script.js:661-663 | a rank of piece letters and digits expands to as many cells as the FEN rule counts, each a space or a piece |
| Placement.WellFormedCovers64 | script.js:652-685 | a well-formed placement of eight ranks of eight expands to exactly 64 cells, one per entry of the square table |
| Placement.Board.ClearAllPieces | script.js:1635-1686 | every square that carried a piece class loses all its classes; every other square keeps its classes |
| Placement.Board.LoadBoard | script.js:652-685 | after clearing, character `i` of the expansion is added to square `i` unless it is a space; a square shows a piece exactly when the position has one there |
| Puzzles.CustomPuzzleShape | script.js:128-203 | the challenge has ten puzzles of three moves each; only the seventh ends in a five-character promotion entry |
| Validators.OverridesMatchTables | script.js:809-867 | each override, and each of `validatePuzzle7Move` / `validatePuzzle8Move` (script.js:2293-2391), accepts a move exactly when its index has a square pair and the move is that pair; every other index is rejected |
| Validators.TablesFollowPuzzles | script.js:809-867 | the override pairs are the puzzles' own solution entries; the fourth override has no pair for index 2; the seventh and eighth validators cover exactly indices 0-2 of their three-move lines |
| Validators.PromotionEntryNeedsMate | script.js:960-972 | a five-character entry such as `f7e8n` never equals `${from}${to}`, so it passes the default check only through checkmate |
| Validators.OverridesIgnoreMate | script.js:809-867 | the override judgements do not depend on checkmate |
| Clock.TicksBeforeTimeUp | script.js:1796-1827 | `k < n` firings after `startTimer(n)` leave the time at `n - k`, still running, with exactly the marks that time calls for |
| Clock.TimeUpAfterExactly | script.js:1818-1827 | the time-up handler runs on the `n`-th firing after `startTimer(n)` and not before; the clock then shows 0 with both marks |
| Clock.ClockTextRoundTrip | script.js:1840-1845 | for a non-negative time the `m:ss` text is minutes, a colon and two second digits, and reads back as the time |
| Clock.PaddedSeconds | script.js:1840-1845 | `padStart(2, '0')` of a seconds value below 60 is exactly two digits that read back as that value |
| Clock.ClockAtTimeUp | script.js:1840-1845 | the texts `0:00`, `0:59`, `1:00` and `10:00` for the times 0, 59, 60 and 600 |
| PuzzleBank.ParseLine | script.js:1385-1386 | a line yields a puzzle exactly when it has at least three comma fields; the puzzle is filed under its own rating text, and its move list is never empty |
| PuzzleBank.ParseLineOfFields | script.js:1385-1386 | a line written from an id, a FEN, a move list and a rating parses back into exactly that puzzle |
| PuzzleBank.BucketMembership | script.js:1382-1392 | a puzzle is in the list of a rating exactly when some non-blank line parses to it with that rating |
| PuzzleBank.BucketSize | script.js:1388-1392 | each rating's list holds one puzzle per non-blank line filed under it |
| PuzzleBank.InitPuzzles | script.js:1378-1401 | the loop skips blank lines and throws on a line with fewer than three fields; otherwise its map has a key for exactly the ratings that occur, each holding its puzzles in line order, and `param` is the last puzzle with the wanted id |
| PuzzleBank.AddLine | script.js:1382-1397 | one run of the `forEach` callback: a blank line changes nothing; a line with three fields or more appends its puzzle to the list under its rating (creating it when absent) and, when its id is the wanted one, makes it `param`; any other line throws |
| PuzzleBank.JsNumber | script.js:1276 | the numeric reading of a rating key is defined exactly for text that is digits after trimming |
| PuzzleBank.Eligible | script.js:1276 | the eligible ratings are among the keys of the map |
| PuzzleBank.EligibleNumeral | script.js:1273-1276 | a rating key printed from `v` is eligible exactly when it is a key and `v` lies in `[r - 100, r + 100]`; `max(0, ·)` never excludes a natural number |
| PuzzleBank.NumberIgnoresPadding | script.js:1276 | white space around a key does not change its numeric value |
| PuzzleBank.NonNumbersIneligible | script.js:1276 | a key that is not a number is never eligible |
| Signup.PaddedDigitsAccepted | script.js:2648-2655 | a digit string, with any white space around it, passes exactly when it has ten digits |
| Signup.NonDigitRefused | script.js:2648-2655 | an input holding a character that is neither a digit nor outer white space is refused |
| Sequencing.ClearBoard | script.js:1635-1686 | clearing the board empties it; a `selected` or `circle` mark on a square that showed a piece is dropped, and marks on every other square are kept |
| Sequencing.LoadFen | script.js:1298-1333 | `loadFen` ends on the given position or on the starting position, and on the given one whenever it is valid and the engine takes it; as long as the engine takes the starting position, the position left installed is always one the engine takes |
| Sequencing.MovePiece | script.js:1181-1270 | an accepted move installs the engine's new position; a refused move reloads `currentFEN` when it is set; nothing else changes |
| Sequencing.IllegalMoveIgnored | script.js:795-801 | a move the engine refuses makes the probe throw, and the state is unchanged |
| Sequencing.DefaultDispatch | script.js:959-976 | without an override, the move goes to `puzzleMoveGood` exactly when it mates or is the expected entry, and to `puzzleMoveBad` otherwise |
| Sequencing.OverrideDispatch | script.js:809-867 | in the first, third and fourth puzzles the listed pair goes to `puzzleMoveGood` and every other legal move goes to `puzzleMoveBad` |
| Sequencing.Puzzle7RejectIsNoOp | script.js:870-958 | a move `validatePuzzle7Move` refuses changes no state |
| Sequencing.Puzzle7SolvedOnlyAtLast | script.js:870-958 | on the three-move line, an unsolved seventh puzzle is solved exactly by the accepted move at index 2, which stops the clock and schedules the advance; an accepted move at index 0 or 1 schedules the reply to the next entry |
| Sequencing.GoodMoveEffect | script.js:979-1055 | `puzzleMoveGood` counts the move once; the puzzle is solved exactly when the new position is mate or the line is used up, and then the clock stops and the advance is scheduled; otherwise the scripted reply is scheduled and the clock runs on |
| Sequencing.ReplyRoundTrip | script.js:1042-1053 | after a good move that does not finish, the scripted reply schedules the computer move `moves[i][0..2]`→`moves[i][2..4]` (script.js:739-793); playing it brings the index to two above where it started, with nothing left pending |
| Sequencing.ScriptedReplyStep | script.js:1042-1052 | firing the scripted reply hands `moves[lastPuzzleMoveIndex]` cut at 2 and 4 to `computerMove`, which schedules that move; nothing else changes |
| Sequencing.ComputerMoveStep | script.js:760-792 | firing a scheduled computer move plays it through `movePiece` on the state without that callback and counts it |
| Sequencing.FailedComputerMoveCounts | script.js:760-792 | a computer move the engine refuses reloads `currentFEN` (script.js:1254-1268) and still counts the move |
| Sequencing.ComputerMoveCounts | script.js:760-792 | a computer move the engine accepts is played and counted once |
| Sequencing.BadMoveWhenSolved | script.js:1058-1062 | `puzzleMoveBad` changes nothing once the puzzle is solved |
| Sequencing.MatingBadMoveIsGood | script.js:1064-1076 | a wrong move that mates is handed to `puzzleMoveGood`: solved, clean mark kept |
| Sequencing.PlainBadMove | script.js:1078-1107 | any other wrong move is played, clears the clean mark and schedules the display of the earlier position; the index, the puzzle and the clock stay as they were |
| Sequencing.BackupThenAdvance | script.js:1107-1115 | the display step reloads the saved position and schedules the advance |
| Sequencing.AdvanceStep | script.js:1115-1125 | the advance raises `puzzleIndex` by one and loads the next custom puzzle while one is left; past the end it does nothing more |
| Sequencing.LoadCustomPuzzleResets | script.js:1689-1793 | loading a custom puzzle clears the solved mark and sets the index to 0. Either the first puzzle from that index on that the engine takes is installed and timed for 600 s (the seventh and eighth through their set-up functions, script.js:2394-2508), with every puzzle skipped having been refused; or all were refused and the clock stops at the end of the challenge |
| Sequencing.SpecificPuzzleLetsPlayerStart | script.js:2121-2168 | a puzzle button installs that puzzle at index 0, unsolved and timed, and schedules nothing, so the player moves first |
| Sequencing.ChallengeStartsAtFirstPuzzle | script.js:1561-1633 | starting the challenge installs the first puzzle at index 0, timed; `forceCustomPuzzleStart` (script.js:2037-2119) reaches the same state up to the selection |
| Sequencing.SignupGatesChallenge | script.js:2646-2666 | only a phone number that passes the check starts the challenge; any other input changes nothing |
| Sequencing.CsvPathPlaysFirstMove | script.js:1335-1351 | `loadPuzzle` sets the index to 0 and schedules the computer's play of `moves[0]`; once that runs the index is 1, so the player answers with `moves[1]` |
| Sequencing.RandomPuzzleFromWindow | script.js:1272-1290 | with no rating in the window nothing happens; otherwise a puzzle of the drawn eligible rating is loaded with the clean mark set |
| Sequencing.LoadersInstallPuzzle | script.js:1689-1793 | every loader leaves a puzzle installed |
| Sequencing.MovesKeepPuzzle | script.js:795-977 | a player move never changes which puzzle is installed |
| Sequencing.ClicksKeepPuzzle | script.js:1989-2034 | a click never changes which puzzle is installed |
| Sequencing.StepsKeepPuzzleLoaded | script.js:760-792 | a timer step leaves a puzzle installed, and only the advance changes which |
| Sequencing.TimeUpSchedulesAdvance | script.js:1818-1827 | the interval schedules the advance, and stops, exactly on the firing that brings the time to 0 or below |
| Sequencing.CanSelectByCase | script.js:714-720 | on white's turn exactly the upper-case piece letters can be selected; on black's turn exactly the lower-case ones |
| Sequencing.ClickWhenSolved | script.js:1992-1995 | no click does anything once the puzzle is solved |
| Sequencing.ClickSelectedSquare | script.js:2000-2002 | one `squareClicked` call on the selected square drops the selection and nothing else |
| Sequencing.ClickCircledTarget | script.js:2003-2012 | one `squareClicked` call on a circled target with a square selected drops the selection and plays `playerMove(selected, target)`, leaving nothing selected; without a selection the click is ignored |
| Sequencing.ClickOtherSquare | script.js:2013-2033 | one `squareClicked` call on any other square drops the selection, and then selects the square exactly when it shows a piece of the side to move (script.js:707-737), circling that piece's targets |
| Sequencing.PlayerMoveKeepsNoSelection | script.js:795-977 | with nothing selected, a move leaves nothing selected |
| Sequencing.MovePieceKeepsNoSelection | script.js:1181-1270 | `movePiece` with nothing selected leaves nothing selected |
| Machine.Sequencer.constructor | script.js:205-216 | the globals start unsolved, clean, at index 0 and puzzle 0, with no position, no puzzle, no timer and no selection |
| Machine.Sequencer.ClearAllPieces | script.js:1635-1686 | the update in place ends in `Sequencing.ClearBoard` of the old state |
| Machine.Sequencer.LoadFen | script.js:1298-1333 | ends in `Sequencing.LoadFen` of the old state |
| Machine.Sequencer.MovePiece | script.js:1181-1270 | ends in `Sequencing.MovePiece` of the old state |
| Machine.Sequencer.ComputerMove | script.js:739-758 | ends in `Sequencing.ComputerMoveCall` of the old state |
| Machine.Sequencer.StartTimer | script.js:1796-1816 | the clock is reset to a running countdown of the given seconds with the marks that time calls for |
| Machine.Sequencer.StopTimer | script.js:1831-1836 | the interval is cleared and nothing else changes |
| Machine.Sequencer.PuzzleMoveGood | script.js:979-1055 | ends in `Sequencing.PuzzleMoveGood` of the old state |
| Machine.Sequencer.PuzzleMoveBad | script.js:1057-1127 | ends in `Sequencing.PuzzleMoveBad` of the old state |
| Machine.Sequencer.Puzzle7Advance | script.js:875-951 | ends in `Sequencing.Puzzle7Advance` of the old state |
| Machine.Sequencer.PlayerMove | script.js:795-977 | ends in `Sequencing.PlayerMove` of the old state |
| Machine.Sequencer.LoadCustomPuzzle | script.js:1689-1793 | ends in `Sequencing.LoadCustomPuzzle` of the old state |
| Machine.Sequencer.SetupPuzzle7 | script.js:2394-2450 | ends in `Sequencing.SetupPuzzle7` of the old state |
| Machine.Sequencer.SetupPuzzle8 | script.js:2452-2508 | ends in `Sequencing.SetupPuzzle8` of the old state |
| Machine.Sequencer.Advance | script.js:1026-1037 | ends in `Sequencing.AdvancePuzzle` of the old state |
| Machine.Sequencer.LoadSpecificPuzzle | script.js:2121-2168 | ends in `Sequencing.LoadSpecificPuzzle` of the old state |
| Machine.Sequencer.StartChallenge | script.js:1561-1633 | ends in `Sequencing.StartChallenge` of the old state |
| Machine.Sequencer.SubmitSignup | script.js:2646-2666 | ends in `Sequencing.SubmitSignup` of the old state |
| Machine.Sequencer.ForceStart | script.js:2037-2119 | ends in `Sequencing.ForceStart` of the old state |
| Machine.Sequencer.LoadPuzzle | script.js:1335-1351 | ends in `Sequencing.LoadPuzzle` of the old state |
| Machine.Sequencer.LoadRandomPuzzle | script.js:1272-1290 | ends in `Sequencing.LoadRandomPuzzle` of the old state |
| Machine.Sequencer.Fire | script.js:760-792 | running a pending callback (also script.js:1042-1053 and 1107-1125) ends in `Sequencing.Fire` of the old state |
| Machine.Sequencer.TimerTick | script.js:1818-1827 | ends in `Sequencing.TimerTick` of the old state |
| Machine.Sequencer.SelectPiece | script.js:707-737 | ends in `Sequencing.SelectPiece` of the old state |
| Machine.Sequencer.SquareClicked | script.js:1989-2034 | ends in `Sequencing.SquareClicked` of the old state |

## Left out

- DOM building, styling, messages, overlays, confetti, hints, titles, board
  flipping, the puzzle indicators and buttons, and `updateOverallProgress`.
  They are presentation. The `previous` class that `movePiece` puts on the
  squares of the last move is presentation too.
- `showCongratulations` and the advance it schedules on its own
  (script.js:1450-1558). Real timer delays and their relative order are
  also left out: every pending step can fire in any order instead.
- The engine itself (`Game`, `move`, `exportJson`, `exportFEN`, `setPiece`,
  `loadFEN`) and `validateFEN`. They are foreign code, modelled only as the
  oracle `Oracle.Engine`. `new Game(fen)` and `game.loadFEN(fen)` are both the
  same `loads` answer.
- The engine after a failed load. When a loader catches an engine error, the
  real `game` is a fresh game. The model keeps reading the engine off
  `currentFEN`.
- `calculateRatingChange`. It is floating-point Elo.
- localStorage, URL parameters and `fetch`. They are I/O.
  - The player rating and the `puzzle` URL parameter are parameters of
    `LoadRandomPuzzle` and `InitPuzzles`.
  - `fetchPuzzlesWithFallback` is not modelled; it is never called.
- `Math.random()`. The two draws of `loadRandomPuzzle` are parameters `key`
  and `j`. `displayRandomChessFact` and the timer progress-bar percentage
  are left out.
- The `promote` argument of `movePiece` / `puzzleMoveGood`. No caller passes
  one.
- Sequencing.SelectPiece: takes the engine's target squares as given. The
  script upper-cases and lower-cases square ids (`element.id.toUpperCase()`)
  when it talks to the engine; the oracle works on the lower-case ids
  directly.
- Sequencing.SquareClicked: models one call of `squareClicked`. The
  repeated calls that the accumulated listeners make for one physical click
  are not modelled; their effect is described above.
- Sequencing.SquareClicked: requires a loaded puzzle. Before the first load
  nothing is lost: start-up clears the board (script.js:229-233), and the
  sign-up overlay covers it and is removed only right before `startCustomPuzzleChallenge`, which always sets `currentPuzzle` (script.js:2511-2513, 2661-2665).
- Sequencing.ComputerMoveCall: models `document.getElementById` finding a
  square as the id being a square name a1-h8.
- PuzzleBank.JsNumber: reads only digit strings as numbers. The other forms
  `Number` accepts (signs, decimals, exponents, hexadecimal) count as not a
  number here.
- PuzzleBank.InitPuzzles: keeps the `param` slot apart from the rating keys.
  The script stores it in the same object under the key `param`, and
  inherited object keys such as `constructor` are not modelled.
  `Eligible` never selects `param`, since it is not a number.
- Sequencing.MovePiece: a move the engine accepts is always followed by a
  successful `loadBoard`; the model does not follow an exception thrown
  while marking the squares of the move.
