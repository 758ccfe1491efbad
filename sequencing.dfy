/** The puzzle sequencer of script.js as transitions on one state value: the
    module globals `puzzle_solved`, `puzzle_solved_clean`,
    `lastPuzzleMoveIndex`, `puzzleIndex`, `currentFEN`, `currentPuzzle` and the
    countdown, plus the squares the board draws and the current selection.
    Every `setTimeout` callback becomes a pending `Step` that `Fire` runs
    later, in whatever order the environment picks. */
module Sequencing {
  import opened Wrappers
  import opened Text
  import opened Placement
  import opened Puzzles
  import opened Validators
  import opened Clock
  import opened Oracle
  import PuzzleBank
  import Signup

  /** The `selected` square and the `circle`d target squares. */
  datatype Selection = Selection(selected: Option<string>, circles: set<string>)

  const NoSelection: Selection := Selection(None, {})

  /** A callback waiting in a `setTimeout`. */
  datatype Step =
    | ScriptedReply                    // `puzzleMoveGood`: look up `moves[lastPuzzleMoveIndex]` and hand it to `computerMove`
    | Reply(from: string, to: string)  // the puzzle-7 branch of `playerMove`: call `computerMove(from, to)`
    | ComputerMove(from: string, to: string) // `computerMove`: play the move and count it
    | ShowBackup(fen: string)          // `puzzleMoveBad`: show the position before the wrong move
    | Advance                          // `puzzleIndex++` and load the next custom puzzle

  datatype State = State(
    solved: bool,            // puzzle_solved
    clean: bool,             // puzzle_solved_clean
    moveIndex: nat,          // lastPuzzleMoveIndex
    puzzleIndex: nat,        // puzzleIndex
    fen: string,             // currentFEN
    board: string,           // the position whose pieces the squares show ("" when cleared)
    puzzle: Option<Puzzle>,  // currentPuzzle (None before the first load)
    pending: seq<Step>,      // callbacks waiting in timers
    timer: Countdown,        // timerInterval and timeRemaining
    selection: Selection)

  /** The state when the page has loaded and nothing is selected or scheduled. */
  const Initial: State := State(false, true, 0, 0, "", "", None, [], Idle, NoSelection)

  /** A puzzle has been installed, so `currentPuzzle.moves` can be read. */
  predicate Loaded(s: State) { s.puzzle.Some? }

  function Moves(s: State): seq<string>
    requires Loaded(s)
  {
    s.puzzle.value.moves
  }

  // ---------------------------------------------------------------------------
  // the board
  // ---------------------------------------------------------------------------

  /** `clearAllPieces()`: every square showing a piece has its classes reset,
      which also drops a `selected` or `circle` mark it carried. */
  function ClearBoard(s: State): (r: State)
    ensures r.board == "" && r == s.(board := "", selection := r.selection)
    ensures r.selection.circles <= s.selection.circles
    ensures r.selection.selected.Some? ==> r.selection.selected == s.selection.selected
    ensures forall sq :: IsSquare(sq) && sq !in Occupied(s.board) ==>
              (sq in r.selection.circles <==> sq in s.selection.circles) &&
              (r.selection.selected == Some(sq) <==> s.selection.selected == Some(sq))
    ensures forall sq :: sq in Occupied(s.board) ==>
              sq !in r.selection.circles && r.selection.selected != Some(sq)
  {
    var occupied := Occupied(s.board);
    var sel := s.selection;
    var selected := if sel.selected.Some? && sel.selected.value in occupied then None else sel.selected;
    s.(board := "", selection := Selection(selected, sel.circles - occupied))
  }

  /** The position `fen` becomes `currentFEN` and `loadBoard` draws it. */
  function Install(s: State, fen: string): (r: State)
    ensures r.fen == fen && r.board == fen
    ensures r == ClearBoard(s).(fen := fen, board := fen)
  {
    ClearBoard(s).(fen := fen, board := fen)
  }

  /** The position `loadFen(fen)` ends in: `fen` when it is valid and the
      engine takes it, otherwise the starting position. */
  function Restored(e: Engine, fen: string): string {
    if e.valid(fen) && e.loads(fen) then fen else StartFen
  }

  /** `loadFen(fen)`. */
  function LoadFen(e: Engine, s: State, fen: string): (r: State)
    ensures r == Install(s, Restored(e, fen))
    ensures r.fen == fen || r.fen == StartFen
    ensures e.valid(fen) && e.loads(fen) ==> r.fen == fen
    ensures e.valid(StartFen) && e.loads(StartFen) ==> e.valid(r.fen) && e.loads(r.fen)
  {
    if e.valid(fen) && e.loads(fen) then Install(s, fen) else Install(s, StartFen)
  }

  /** `movePiece(from, to)`: the board is cleared and the move played; when the
      engine refuses it, the error is caught here and the position reloaded:
      `currentFEN` on the seventh puzzle, otherwise `currentFEN` if it is
      set, else the puzzle's position if there is one, else nothing. */
  function MovePiece(e: Engine, s: State, from: string, to: string): (r: State)
    ensures r == s.(fen := r.fen, board := r.board, selection := r.selection)
    ensures e.apply(s.fen, from, to).Some? ==> r.fen == e.apply(s.fen, from, to).value && r.board == r.fen
    ensures e.apply(s.fen, from, to).None? && s.fen != "" ==> r.fen == Restored(e, s.fen) && r.board == r.fen
  {
    var cleared := ClearBoard(s);
    match e.apply(s.fen, from, to)
    case Some(next) => Install(cleared, next)
    case None =>
      if s.puzzleIndex == 6 then LoadFen(e, cleared, s.fen)
      else if s.fen != "" then LoadFen(e, cleared, s.fen)
      else if s.puzzle.Some? && s.puzzle.value.fen != "" then LoadFen(e, cleared, s.puzzle.value.fen)
      else cleared
  }

  // ---------------------------------------------------------------------------
  // moves
  // ---------------------------------------------------------------------------

  /** `computerMove(from, to)`: when both ids name squares, the move is
      scheduled; otherwise nothing happens. */
  function ComputerMoveCall(s: State, from: string, to: string): (r: State)
    ensures IsSquare(from) && IsSquare(to) ==> r == s.(pending := s.pending + [ComputerMove(from, to)])
    ensures !(IsSquare(from) && IsSquare(to)) ==> r == s
  {
    if IsSquare(from) && IsSquare(to) then s.(pending := s.pending + [ComputerMove(from, to)]) else s
  }

  /** `puzzleMoveGood(from, to)`: the move is played and counted; checkmate or
      the end of the line solves the puzzle, stops the clock and schedules the
      advance, anything else schedules the scripted reply. */
  function PuzzleMoveGood(e: Engine, s: State, from: string, to: string): (r: State)
    requires Loaded(s)
  {
    var moved := MovePiece(e, s, from, to);
    var counted := moved.(moveIndex := moved.moveIndex + 1);
    if e.mated(counted.fen) || counted.moveIndex >= |Moves(s)| then
      counted.(solved := true, timer := Stop(counted.timer), pending := counted.pending + [Advance])
    else
      counted.(pending := counted.pending + [ScriptedReply])
  }

  /** `puzzleMoveBad(from, to)`: ignored once solved; a move that mates is
      handed to `puzzleMoveGood`; any other move is played, the clean mark is
      lost and the position before it is scheduled for display. */
  function PuzzleMoveBad(e: Engine, s: State, from: string, to: string): (r: State)
    requires Loaded(s)
  {
    if s.solved then s
    else match e.apply(s.fen, from, to)
      case None => s
      case Some(next) =>
        if e.mated(next) then PuzzleMoveGood(e, s, from, to)
        else
          var moved := MovePiece(e, s, from, to);
          moved.(clean := false, pending := moved.pending + [ShowBackup(s.fen)])
  }

  /** What the puzzle-7 branch of `playerMove` does once `validatePuzzle7Move`
      accepted: the validator's own effect on the final index (solved, clock
      stopped), the move, the count, and then either the end of the puzzle or
      the scheduled reply `moves[lastPuzzleMoveIndex]`. */
  function Puzzle7Advance(e: Engine, s: State, from: string, to: string): (r: State)
    requires Loaded(s)
  {
    var validated := if s.moveIndex == 2 then s.(solved := true, timer := Stop(s.timer)) else s;
    var moved := MovePiece(e, validated, from, to);
    var counted := moved.(moveIndex := moved.moveIndex + 1);
    if counted.moveIndex >= |Moves(s)| then
      counted.(solved := true, pending := counted.pending + [Advance])
    else
      var next := Moves(s)[counted.moveIndex];
      if next == "" then counted
      else counted.(pending := counted.pending + [Reply(Substring(next, 0, 2), Substring(next, 2, 4))])
  }

  /** `playerMove(from, to)`: the move is probed on the engine (an illegal move
      throws and nothing happens), then judged by the puzzle's validator. */
  function PlayerMove(e: Engine, s: State, from: string, to: string): (r: State)
    requires Loaded(s)
  {
    match e.apply(s.fen, from, to)
    case None => s
    case Some(next) =>
      match Judge(s.puzzleIndex, s.moveIndex, Moves(s), from, to, e.mated(next))
      case Good => PuzzleMoveGood(e, s, from, to)
      case Bad => PuzzleMoveBad(e, s, from, to)
      case Puzzle7Good => Puzzle7Advance(e, s, from, to)
      case Puzzle7Reject => s
  }

  // ---------------------------------------------------------------------------
  // loading puzzles
  // ---------------------------------------------------------------------------

  /** The puzzle the custom challenge plays at position `i`: the seventh and
      eighth are the ones their set-up functions install. */
  function ChallengePuzzle(i: nat): Puzzle
    requires i < ChallengeLength
  {
    if i == 6 then Puzzle7Setup else if i == 7 then Puzzle8Setup else CustomPuzzles[i]
  }

  /** `loadCustomPuzzle(puzzleIndex)` (every caller passes `puzzleIndex`): past
      the end the challenge stops the clock; the seventh and eighth puzzles go
      to their set-up functions; otherwise the puzzle is installed and timed,
      and a position the engine refuses moves on to the next puzzle. */
  function LoadCustomPuzzle(e: Engine, s: State): State
    decreases ChallengeLength - s.puzzleIndex, 2
  {
    if s.puzzleIndex >= ChallengeLength then s.(timer := Stop(s.timer))
    else if s.puzzleIndex == 6 then SetupPuzzle7(e, s)
    else if s.puzzleIndex == 7 then SetupPuzzle8(e, s)
    else
      var p := CustomPuzzles[s.puzzleIndex];
      var reset := ClearBoard(s.(solved := false, moveIndex := 0, puzzle := Some(p)));
      if e.loads(p.fen) then Install(reset, p.fen).(timer := Started(PuzzleSeconds))
      else LoadCustomPuzzle(e, reset.(puzzleIndex := reset.puzzleIndex + 1))
  }

  /** `setupPuzzle7()`. */
  function SetupPuzzle7(e: Engine, s: State): State
    decreases ChallengeLength - 6, 1
  {
    var reset := ClearBoard(s.(puzzleIndex := 6, solved := false, moveIndex := 0));
    if e.loads(Puzzle7Setup.fen) then
      Install(reset.(puzzle := Some(Puzzle7Setup)), Puzzle7Setup.fen).(timer := Started(PuzzleSeconds))
    else LoadCustomPuzzle(e, reset.(puzzleIndex := 7))
  }

  /** `setupPuzzle8()`. */
  function SetupPuzzle8(e: Engine, s: State): State
    decreases ChallengeLength - 7, 1
  {
    var reset := ClearBoard(s.(puzzleIndex := 7, solved := false, moveIndex := 0));
    if e.loads(Puzzle8Setup.fen) then
      Install(reset.(puzzle := Some(Puzzle8Setup)), Puzzle8Setup.fen).(timer := Started(PuzzleSeconds))
    else LoadCustomPuzzle(e, reset.(puzzleIndex := 8))
  }

  /** The advance callback: `puzzleIndex++`, then the next custom puzzle while
      there is one. */
  function AdvancePuzzle(e: Engine, s: State): State {
    var next := s.(puzzleIndex := s.puzzleIndex + 1);
    if next.puzzleIndex < ChallengeLength then LoadCustomPuzzle(e, next) else next
  }

  /** `loadSpecificPuzzle(index)` from the puzzle buttons: the clock is
      stopped; the seventh goes to `setupPuzzle7`, any other entry of
      `customPuzzles` (the eighth included) is installed directly; a position
      the engine refuses throws and leaves the reset state. */
  function LoadSpecificPuzzle(e: Engine, s: State, index: nat): State
    requires index < ChallengeLength
  {
    var stopped := s.(puzzleIndex := index, timer := Stop(s.timer));
    if index == 6 then SetupPuzzle7(e, stopped)
    else
      var p := CustomPuzzles[index];
      var reset := ClearBoard(stopped).(solved := false, moveIndex := 0, puzzle := Some(p));
      if e.loads(p.fen) then Install(reset, p.fen).(timer := Started(PuzzleSeconds)) else reset
  }

  /** `startCustomPuzzleChallenge()`: the first puzzle is installed and timed;
      when the engine refuses it the error is caught after `puzzleIndex` and
      `currentPuzzle` were set. */
  function StartChallenge(e: Engine, s: State): State {
    var p := CustomPuzzles[0];
    var first := s.(puzzleIndex := 0, puzzle := Some(p));
    if e.loads(p.fen) then
      Install(first, p.fen).(solved := false, moveIndex := 0, timer := Started(PuzzleSeconds))
    else first
  }

  /** The sign-up form: a phone number that passes the check starts the
      challenge; any other input changes nothing. */
  function SubmitSignup(e: Engine, s: State, phone: string): State {
    if Signup.PhoneAccepted(phone) then StartChallenge(e, s) else s
  }

  /** `forceCustomPuzzleStart()`. */
  function ForceStart(e: Engine, s: State): State {
    var p := CustomPuzzles[0];
    var reset := ClearBoard(s).(puzzleIndex := 0, solved := false, moveIndex := 0, puzzle := Some(p));
    if e.loads(p.fen) then Install(reset, p.fen).(timer := Started(PuzzleSeconds)) else reset
  }

  /** `loadPuzzle(puzzle)` for a puzzle of the rating bank: the position is
      loaded and the first entry of the line is handed to `computerMove`, so
      the computer opens and the player answers with the second entry. A
      puzzle without moves throws before the index is reset. */
  function LoadPuzzle(e: Engine, s: State, p: Puzzle): State {
    var loaded := LoadFen(e, s.(solved := false, puzzle := Some(p)), p.fen);
    if |p.moves| == 0 then loaded
    else
      var m := p.moves[0];
      ComputerMoveCall(loaded, Substring(m, 0, 2), Substring(m, 2, 4)).(moveIndex := 0)
  }

  /** `loadRandomPuzzle()` for the stored player rating `rating`; `key` and `j`
      stand for the two `Math.random()` draws. With no eligible rating nothing
      happens; otherwise the drawn puzzle is loaded and the clean mark set. */
  function LoadRandomPuzzle(e: Engine, s: State, buckets: map<string, seq<Puzzle>>, rating: int, key: string, j: nat): State
    requires PuzzleBank.Eligible(buckets.Keys, rating) != {} ==>
               key in PuzzleBank.Eligible(buckets.Keys, rating) && j < |buckets[key]|
  {
    if PuzzleBank.Eligible(buckets.Keys, rating) == {} then s
    else
      var p := buckets[key][j];
      var loaded := LoadPuzzle(e, s, p);
      if |p.moves| == 0 then loaded else loaded.(clean := true)
  }

  // ---------------------------------------------------------------------------
  // timers
  // ---------------------------------------------------------------------------

  /** Runs the pending callback at position `k`. */
  function Fire(e: Engine, s: State, k: nat): State
    requires Loaded(s) && k < |s.pending|
  {
    var rest := s.(pending := s.pending[..k] + s.pending[k + 1..]);
    match s.pending[k]
    case ScriptedReply =>
      if rest.moveIndex < |Moves(rest)| then
        var m := Moves(rest)[rest.moveIndex];
        ComputerMoveCall(rest, Substring(m, 0, 2), Substring(m, 2, 4))
      else rest
    case Reply(from, to) => ComputerMoveCall(rest, from, to)
    case ComputerMove(from, to) =>
      var moved := MovePiece(e, rest, from, to);
      moved.(moveIndex := moved.moveIndex + 1)
    case ShowBackup(backup) =>
      var shown := LoadFen(e, rest, backup);
      shown.(pending := shown.pending + [Advance])
    case Advance => AdvancePuzzle(e, rest)
  }

  /** One second of the countdown; when the time runs out `handleTimeUp`
      schedules the advance. */
  function TimerTick(s: State): (r: State)
    requires s.timer.running
    ensures r == s.(timer := Tick(s.timer).clock, pending := r.pending)
    ensures r.pending == if Tick(s.timer).timeUp then s.pending + [Advance] else s.pending
  {
    var t := Tick(s.timer);
    if t.timeUp then s.(timer := t.clock, pending := s.pending + [Advance]) else s.(timer := t.clock)
  }

  // ---------------------------------------------------------------------------
  // clicks
  // ---------------------------------------------------------------------------

  /** The side-to-move rule of `selectPiece`: on white's turn a piece whose
      letter equals its upper case, on black's turn one whose letter equals
      its lower case. */
  predicate CanSelect(whiteToMove: bool, piece: char) {
    if whiteToMove then piece == Upper(piece) else piece == Lower(piece)
  }

  function Upper(c: char): char {
    if 'a' <= c <= 'z' then ((c as int) - 32) as char else c
  }

  function Lower(c: char): char {
    if 'A' <= c <= 'Z' then ((c as int) + 32) as char else c
  }

  /** `selectPiece(square)`: the engine is asked for the piece (an undefined
      answer throws); a piece of the side to move is selected and its targets
      circled. */
  function SelectPiece(e: Engine, s: State, sq: string): State {
    match e.pieceAt(s.fen, sq)
    case None => s
    case Some(p) =>
      if CanSelect(e.whiteToMove(s.fen), p) then s.(selection := Selection(Some(sq), e.targets(s.fen, sq)))
      else s
  }

  /** The square `sq` shows a piece. */
  predicate ShowsPiece(board: string, sq: string)
    requires IsSquare(sq)
  {
    HasPieceAt(board, SquareIndex(sq))
  }

  /** `squareClicked(square)`. */
  function SquareClicked(e: Engine, s: State, sq: string): State
    requires Loaded(s) && IsSquare(sq)
  {
    if s.solved then s
    else if s.selection.selected == Some(sq) then s.(selection := NoSelection)
    else if sq in s.selection.circles then
      match s.selection.selected
      case Some(from) => PlayerMove(e, s.(selection := NoSelection), from, sq)
      case None => s
    else
      var unselected := s.(selection := NoSelection);
      if ShowsPiece(s.board, sq) then SelectPiece(e, unselected, sq) else unselected
  }

  // ---------------------------------------------------------------------------
  // properties of the move sequencing
  // ---------------------------------------------------------------------------

  /** A move the engine refuses makes `playerMove` throw on its probe before
      anything has changed. */
  lemma IllegalMoveIgnored(e: Engine, s: State, from: string, to: string)
    requires Loaded(s) && e.apply(s.fen, from, to).None?
    ensures PlayerMove(e, s, from, to) == s
  {
  }

  /** For every puzzle without an override the move is good exactly when the
      probe mates or `${from}${to}` is the expected entry; otherwise it is bad. */
  lemma DefaultDispatch(e: Engine, s: State, from: string, to: string)
    requires Loaded(s) && e.apply(s.fen, from, to).Some?
    requires s.puzzleIndex !in {0, 2, 3, 6}
    ensures PlayerMove(e, s, from, to) ==
              if DefaultAccepts(Moves(s), s.moveIndex, from, to, e.mated(e.apply(s.fen, from, to).value))
              then PuzzleMoveGood(e, s, from, to) else PuzzleMoveBad(e, s, from, to)
  {
  }

  /** The first, third and fourth puzzles are judged by their square pairs
      alone: the listed pair is good, any other legal move is bad. */
  lemma OverrideDispatch(e: Engine, s: State, from: string, to: string)
    requires Loaded(s) && e.apply(s.fen, from, to).Some?
    requires s.puzzleIndex in {0, 2, 3}
    ensures var accepted :=
              if s.puzzleIndex == 0 then Puzzle1Accepts(s.moveIndex, from, to)
              else if s.puzzleIndex == 2 then Puzzle3Accepts(s.moveIndex, from, to)
              else Puzzle4Accepts(s.moveIndex, from, to);
            PlayerMove(e, s, from, to) ==
              if accepted then PuzzleMoveGood(e, s, from, to) else PuzzleMoveBad(e, s, from, to)
  {
  }

  /** A move `validatePuzzle7Move` refuses changes no sequencer state. */
  lemma Puzzle7RejectIsNoOp(e: Engine, s: State, from: string, to: string)
    requires Loaded(s) && s.puzzleIndex == 6
    requires !Puzzle7Accepts(from, to, s.moveIndex)
    ensures PlayerMove(e, s, from, to) == s
  {
  }

  /** On the three-move line of the seventh puzzle an unsolved puzzle becomes
      solved only by the accepted move at index 2, which also stops the clock
      and schedules the advance; an accepted move at index 0 or 1 schedules
      the reply `moves[index + 1]` instead. */
  lemma Puzzle7SolvedOnlyAtLast(e: Engine, s: State, from: string, to: string)
    requires Loaded(s) && s.puzzleIndex == 6 && |Moves(s)| == 3 && !s.solved
    requires e.apply(s.fen, from, to).Some?
    ensures PlayerMove(e, s, from, to).solved <==> s.moveIndex == 2 && Puzzle7Accepts(from, to, s.moveIndex)
    ensures PlayerMove(e, s, from, to).solved ==>
              !PlayerMove(e, s, from, to).timer.running &&
              PlayerMove(e, s, from, to).pending == s.pending + [Advance]
    ensures Puzzle7Accepts(from, to, s.moveIndex) && s.moveIndex < 2 && Moves(s)[s.moveIndex + 1] != "" ==>
              PlayerMove(e, s, from, to).moveIndex == s.moveIndex + 1 &&
              PlayerMove(e, s, from, to).pending ==
                s.pending + [Reply(Substring(Moves(s)[s.moveIndex + 1], 0, 2), Substring(Moves(s)[s.moveIndex + 1], 2, 4))]
  {
  }

  /** `puzzleMoveGood` counts the move once and plays it; the puzzle is then
      solved exactly when the new position is mate or the line is used up, in
      which case the clock stops and the advance is scheduled; otherwise the
      scripted reply is scheduled and the clock keeps running. The puzzle, its
      index and the clean mark do not change. */
  lemma GoodMoveEffect(e: Engine, s: State, from: string, to: string)
    requires Loaded(s)
    ensures var r := PuzzleMoveGood(e, s, from, to);
            var finished := e.mated(r.fen) || s.moveIndex + 1 >= |Moves(s)|;
            && r.moveIndex == s.moveIndex + 1
            && r.fen == MovePiece(e, s, from, to).fen
            && (r.solved <==> s.solved || finished)
            && (finished ==> !r.timer.running && r.pending == s.pending + [Advance])
            && (!finished ==> r.timer == s.timer && r.pending == s.pending + [ScriptedReply])
            && r.puzzleIndex == s.puzzleIndex && r.puzzle == s.puzzle && r.clean == s.clean
  {
  }

  /** The reply round trip: after a good move that does not finish the
      puzzle, firing the scripted reply schedules the computer move
      `moves[i][0..2]` to `moves[i][2..4]` for the new index `i`, and firing
      that plays it and counts it, so the index has gone up by two and
      nothing is left pending. */
  lemma ReplyRoundTrip(e: Engine, s: State, from: string, to: string)
    requires Loaded(s)
    requires !e.mated(PuzzleMoveGood(e, s, from, to).fen) && s.moveIndex + 1 < |Moves(s)|
    requires IsSquare(Substring(Moves(s)[s.moveIndex + 1], 0, 2)) && IsSquare(Substring(Moves(s)[s.moveIndex + 1], 2, 4))
    ensures var r1 := PuzzleMoveGood(e, s, from, to);
            var k := |s.pending|;
            var m := Moves(s)[s.moveIndex + 1];
            var reply := ComputerMove(Substring(m, 0, 2), Substring(m, 2, 4));
            && r1.pending == s.pending + [ScriptedReply]
            && Fire(e, r1, k).pending == s.pending + [reply]
            && Fire(e, Fire(e, r1, k), k).moveIndex == s.moveIndex + 2
            && Fire(e, Fire(e, r1, k), k).pending == s.pending
            && Fire(e, Fire(e, r1, k), k).fen == MovePiece(e, r1, reply.from, reply.to).fen
  {
    var r1 := PuzzleMoveGood(e, s, from, to);
    var k := |s.pending|;
    GoodMoveEffect(e, s, from, to);
    assert r1.pending[..k] + r1.pending[k + 1..] == s.pending;
    ScriptedReplyStep(e, r1, k);
    var r2 := Fire(e, r1, k);
    assert r2.pending[..k] + r2.pending[k + 1..] == s.pending;
    ComputerMoveStep(e, r2, k);
  }

  /** Firing the scripted reply hands the current line entry to `computerMove`. */
  lemma ScriptedReplyStep(e: Engine, s: State, k: nat)
    requires Loaded(s) && k < |s.pending| && s.pending[k] == ScriptedReply && s.moveIndex < |Moves(s)|
    requires IsSquare(Substring(Moves(s)[s.moveIndex], 0, 2)) && IsSquare(Substring(Moves(s)[s.moveIndex], 2, 4))
    ensures var m := Moves(s)[s.moveIndex];
            Fire(e, s, k) == s.(pending := s.pending[..k] + s.pending[k + 1..] + [ComputerMove(Substring(m, 0, 2), Substring(m, 2, 4))])
  {
  }

  /** Firing a scheduled computer move plays it on the rest and counts it. */
  lemma ComputerMoveStep(e: Engine, s: State, k: nat)
    requires Loaded(s) && k < |s.pending| && s.pending[k].ComputerMove?
    ensures var moved := MovePiece(e, s.(pending := s.pending[..k] + s.pending[k + 1..]), s.pending[k].from, s.pending[k].to);
            Fire(e, s, k) == moved.(moveIndex := moved.moveIndex + 1)
  {
  }

  /** A computer move the engine refuses is caught inside `movePiece`, which
      reloads `currentFEN`; the index is still counted. */
  lemma FailedComputerMoveCounts(e: Engine, s: State, k: nat)
    requires Loaded(s) && k < |s.pending| && s.pending[k].ComputerMove?
    requires e.apply(s.fen, s.pending[k].from, s.pending[k].to).None? && s.fen != ""
    ensures Fire(e, s, k).moveIndex == s.moveIndex + 1
    ensures Fire(e, s, k).fen == Restored(e, s.fen)
  {
  }

  /** A computer move the engine accepts is played and counted. */
  lemma ComputerMoveCounts(e: Engine, s: State, k: nat)
    requires Loaded(s) && k < |s.pending| && s.pending[k].ComputerMove?
    requires e.apply(s.fen, s.pending[k].from, s.pending[k].to).Some?
    ensures Fire(e, s, k).moveIndex == s.moveIndex + 1
    ensures Fire(e, s, k).fen == e.apply(s.fen, s.pending[k].from, s.pending[k].to).value
  {
  }

  /** `puzzleMoveBad` does nothing once the puzzle is solved. */
  lemma BadMoveWhenSolved(e: Engine, s: State, from: string, to: string)
    requires Loaded(s) && s.solved
    ensures PuzzleMoveBad(e, s, from, to) == s
  {
  }

  /** A wrong move that mates is handed to `puzzleMoveGood`, so it solves the
      puzzle and keeps the clean mark. */
  lemma MatingBadMoveIsGood(e: Engine, s: State, from: string, to: string)
    requires Loaded(s) && !s.solved
    requires e.apply(s.fen, from, to).Some? && e.mated(e.apply(s.fen, from, to).value)
    ensures PuzzleMoveBad(e, s, from, to) == PuzzleMoveGood(e, s, from, to)
    ensures PuzzleMoveBad(e, s, from, to).solved && PuzzleMoveBad(e, s, from, to).clean == s.clean
  {
  }

  /** Any other wrong move is played, loses the clean mark and schedules the
      display of the position before it; the index, the puzzle and the clock
      are left as they were. */
  lemma PlainBadMove(e: Engine, s: State, from: string, to: string)
    requires Loaded(s) && !s.solved
    requires e.apply(s.fen, from, to).Some? && !e.mated(e.apply(s.fen, from, to).value)
    ensures var r := PuzzleMoveBad(e, s, from, to);
            && !r.clean && !r.solved
            && r.fen == e.apply(s.fen, from, to).value
            && r.pending == s.pending + [ShowBackup(s.fen)]
            && r.moveIndex == s.moveIndex && r.puzzleIndex == s.puzzleIndex
            && r.puzzle == s.puzzle && r.timer == s.timer
  {
  }

  /** The backup display reloads the saved position and schedules the advance. */
  lemma BackupThenAdvance(e: Engine, s: State, k: nat)
    requires Loaded(s) && k < |s.pending| && s.pending[k].ShowBackup?
    ensures Fire(e, s, k).fen == Restored(e, s.pending[k].fen)
    ensures Fire(e, s, k).pending == s.pending[..k] + s.pending[k + 1..] + [Advance]
    ensures Fire(e, s, k).puzzleIndex == s.puzzleIndex && Fire(e, s, k).moveIndex == s.moveIndex
  {
  }

  /** The advance moves `puzzleIndex` on by one; past the last puzzle nothing
      else happens, otherwise the next custom puzzle is loaded. */
  lemma AdvanceStep(e: Engine, s: State, k: nat)
    requires Loaded(s) && k < |s.pending| && s.pending[k] == Advance
    ensures var rest := s.(puzzleIndex := s.puzzleIndex + 1, pending := s.pending[..k] + s.pending[k + 1..]);
            Fire(e, s, k) == if rest.puzzleIndex < ChallengeLength then LoadCustomPuzzle(e, rest) else rest
  {
  }

  /** What `loadCustomPuzzle` promises when called at `s` and ending in `r`:
      a fresh attempt (not solved, index 0) and either the first puzzle from
      `s.puzzleIndex` on that the engine takes is installed and timed, with
      every puzzle before it refused, or all were refused and the clock is
      stopped at the end of the challenge. Timers already pending and the
      clean mark are untouched. */
  ghost predicate FreshAttempt(e: Engine, s: State, r: State) {
    && !r.solved && r.moveIndex == 0 && Loaded(r)
    && s.puzzleIndex <= r.puzzleIndex <= ChallengeLength
    && r.pending == s.pending && r.clean == s.clean
    && (forall j :: s.puzzleIndex <= j < r.puzzleIndex ==> !e.loads(ChallengePuzzle(j).fen))
    && (r.puzzleIndex < ChallengeLength ==>
          r.puzzle == Some(ChallengePuzzle(r.puzzleIndex)) && e.loads(r.puzzle.value.fen)
          && r.fen == r.puzzle.value.fen && r.board == r.fen && r.timer == Started(PuzzleSeconds))
    && (r.puzzleIndex == ChallengeLength ==> !r.timer.running)
  }

  /** A refused puzzle passes the promise of the next index back to this one. */
  lemma RefusedStep(e: Engine, s: State, next: State, r: State)
    requires s.puzzleIndex < ChallengeLength && next.puzzleIndex == s.puzzleIndex + 1
    requires next.pending == s.pending && next.clean == s.clean
    requires !e.loads(ChallengePuzzle(s.puzzleIndex).fen)
    requires FreshAttempt(e, next, r)
    ensures FreshAttempt(e, s, r)
  {
    forall j | s.puzzleIndex <= j < r.puzzleIndex
      ensures !e.loads(ChallengePuzzle(j).fen)
    {
      if j > s.puzzleIndex {
        assert next.puzzleIndex <= j;
      }
    }
  }

  /** The puzzle at `s.puzzleIndex` taken by the engine keeps the promise at once. */
  lemma InstalledStep(e: Engine, s: State, reset: State, p: Puzzle)
    requires s.puzzleIndex < ChallengeLength && p == ChallengePuzzle(s.puzzleIndex) && e.loads(p.fen)
    requires reset.puzzleIndex == s.puzzleIndex && !reset.solved && reset.moveIndex == 0
    requires reset.pending == s.pending && reset.clean == s.clean && reset.puzzle == Some(p)
    ensures FreshAttempt(e, s, Install(reset, p.fen).(timer := Started(PuzzleSeconds)))
  {
  }

  /** `loadCustomPuzzle` for an index inside the challenge keeps `FreshAttempt`. */
  lemma {:induction false} LoadCustomPuzzleResets(e: Engine, s: State)
    requires s.puzzleIndex < ChallengeLength
    ensures FreshAttempt(e, s, LoadCustomPuzzle(e, s))
    decreases ChallengeLength - s.puzzleIndex
  {
    var i := s.puzzleIndex;
    if i == 6 {
      var reset := ClearBoard(s.(puzzleIndex := 6, solved := false, moveIndex := 0));
      if e.loads(Puzzle7Setup.fen) {
        InstalledStep(e, s, reset.(puzzle := Some(Puzzle7Setup)), Puzzle7Setup);
      } else {
        var next := reset.(puzzleIndex := 7);
        LoadCustomPuzzleResets(e, next);
        RefusedStep(e, s, next, LoadCustomPuzzle(e, next));
      }
    } else if i == 7 {
      var reset := ClearBoard(s.(puzzleIndex := 7, solved := false, moveIndex := 0));
      if e.loads(Puzzle8Setup.fen) {
        InstalledStep(e, s, reset.(puzzle := Some(Puzzle8Setup)), Puzzle8Setup);
      } else {
        var next := reset.(puzzleIndex := 8);
        LoadCustomPuzzleResets(e, next);
        RefusedStep(e, s, next, LoadCustomPuzzle(e, next));
      }
    } else {
      var p := CustomPuzzles[i];
      var reset := ClearBoard(s.(solved := false, moveIndex := 0, puzzle := Some(p)));
      if e.loads(p.fen) {
        InstalledStep(e, s, reset, p);
      } else if i + 1 < ChallengeLength {
        var next := reset.(puzzleIndex := i + 1);
        LoadCustomPuzzleResets(e, next);
        RefusedStep(e, s, next, LoadCustomPuzzle(e, next));
      }
    }
  }

  // ---------------------------------------------------------------------------
  // the two load paths
  // ---------------------------------------------------------------------------

  /** The custom path: a button loads the puzzle at the index pressed (the
      seventh through its set-up function) with the index at 0, so the player
      makes the first move, and schedules nothing. */
  lemma SpecificPuzzleLetsPlayerStart(e: Engine, s: State, index: nat)
    requires index < ChallengeLength
    requires e.loads(if index == 6 then Puzzle7Setup.fen else CustomPuzzles[index].fen)
    ensures var r := LoadSpecificPuzzle(e, s, index);
            && r.puzzleIndex == index && r.moveIndex == 0 && !r.solved
            && r.puzzle == Some(if index == 6 then Puzzle7Setup else CustomPuzzles[index])
            && r.fen == r.puzzle.value.fen && r.board == r.fen
            && r.timer == Started(PuzzleSeconds) && r.pending == s.pending
  {
  }

  /** Both ways into the challenge install the first puzzle, timed, with the
      index at 0 and nothing scheduled. */
  lemma ChallengeStartsAtFirstPuzzle(e: Engine, s: State)
    requires e.loads(CustomPuzzles[0].fen)
    ensures var r := StartChallenge(e, s);
            && r.puzzleIndex == 0 && r.moveIndex == 0 && !r.solved
            && r.puzzle == Some(CustomPuzzles[0]) && r.fen == CustomPuzzles[0].fen
            && r.timer == Started(PuzzleSeconds) && r.pending == s.pending
    ensures ForceStart(e, s) == StartChallenge(e, s).(selection := ForceStart(e, s).selection)
  {
  }

  /** Only a phone number that passes the check opens the challenge. */
  lemma SignupGatesChallenge(e: Engine, s: State, phone: string)
    ensures !Signup.PhoneAccepted(phone) ==> SubmitSignup(e, s, phone) == s
    ensures Signup.PhoneAccepted(phone) && e.loads(CustomPuzzles[0].fen) ==>
              SubmitSignup(e, s, phone).puzzleIndex == 0 && SubmitSignup(e, s, phone).moveIndex == 0
              && SubmitSignup(e, s, phone).timer == Started(PuzzleSeconds)
  {
  }

  /** The rating-bank path: `loadPuzzle` loads the position and schedules the
      computer's play of the first entry, so once that fires the player is
      expected to answer with `moves[1]`. */
  lemma CsvPathPlaysFirstMove(e: Engine, s: State, p: Puzzle)
    requires |p.moves| > 0
    requires IsSquare(Substring(p.moves[0], 0, 2)) && IsSquare(Substring(p.moves[0], 2, 4))
    ensures var r := LoadPuzzle(e, s, p);
            var opening := ComputerMove(Substring(p.moves[0], 0, 2), Substring(p.moves[0], 2, 4));
            && r.moveIndex == 0 && !r.solved && r.puzzle == Some(p)
            && r.fen == Restored(e, p.fen)
            && r.pending == s.pending + [opening]
            && Fire(e, r, |s.pending|).moveIndex == 1
            && Fire(e, r, |s.pending|).pending == s.pending
  {
    var r := LoadPuzzle(e, s, p);
    assert r.pending[..|s.pending|] + r.pending[|s.pending| + 1..] == s.pending;
  }

  /** `loadRandomPuzzle` does nothing when no rating is in the window, and
      otherwise loads a puzzle of the drawn rating with the clean mark set. */
  lemma RandomPuzzleFromWindow(e: Engine, s: State, buckets: map<string, seq<Puzzle>>, rating: int, key: string, j: nat)
    requires PuzzleBank.Eligible(buckets.Keys, rating) != {} ==>
               key in PuzzleBank.Eligible(buckets.Keys, rating) && j < |buckets[key]|
    ensures PuzzleBank.Eligible(buckets.Keys, rating) == {} ==> LoadRandomPuzzle(e, s, buckets, rating, key, j) == s
    ensures PuzzleBank.Eligible(buckets.Keys, rating) != {} && |buckets[key][j].moves| > 0 ==>
              var r := LoadRandomPuzzle(e, s, buckets, rating, key, j);
              r.clean && r.puzzle == Some(buckets[key][j]) && key in buckets
  {
  }

  // ---------------------------------------------------------------------------
  // a puzzle stays loaded
  // ---------------------------------------------------------------------------

  /** Every loader leaves a puzzle installed. */
  lemma LoadersInstallPuzzle(e: Engine, s: State, index: nat, p: Puzzle)
    requires index < ChallengeLength
    ensures Loaded(LoadSpecificPuzzle(e, s, index)) && Loaded(StartChallenge(e, s)) && Loaded(ForceStart(e, s))
    ensures Loaded(LoadPuzzle(e, s, p))
    ensures Loaded(s) || s.puzzleIndex < ChallengeLength ==> Loaded(LoadCustomPuzzle(e, s))
  {
    assert Loaded(LoadSpecificPuzzle(e, s, index)) by {
      if index == 6 {
        LoadCustomPuzzleResets(e, s.(puzzleIndex := 6, timer := Stop(s.timer)));
      }
    }
    assert Loaded(StartChallenge(e, s)) && Loaded(ForceStart(e, s));
    assert Loaded(LoadPuzzle(e, s, p));
    if s.puzzleIndex < ChallengeLength {
      LoadCustomPuzzleResets(e, s);
    }
  }

  /** Nothing the player does unloads the puzzle or changes which one it is. */
  lemma MovesKeepPuzzle(e: Engine, s: State, from: string, to: string)
    requires Loaded(s)
    ensures PlayerMove(e, s, from, to).puzzle == s.puzzle
  {
  }

  lemma ClicksKeepPuzzle(e: Engine, s: State, sq: string)
    requires Loaded(s) && IsSquare(sq)
    ensures SquareClicked(e, s, sq).puzzle == s.puzzle
  {
    if !s.solved && s.selection.selected != Some(sq) && sq in s.selection.circles && s.selection.selected.Some? {
      MovesKeepPuzzle(e, s.(selection := NoSelection), s.selection.selected.value, sq);
    }
  }

  /** A pending step leaves a puzzle loaded; only the advance changes which. */
  lemma StepsKeepPuzzleLoaded(e: Engine, s: State, k: nat)
    requires Loaded(s) && k < |s.pending|
    ensures Loaded(Fire(e, s, k))
    ensures s.pending[k] != Advance ==> Fire(e, s, k).puzzle == s.puzzle
  {
    var rest := s.(pending := s.pending[..k] + s.pending[k + 1..]);
    if s.pending[k] == Advance && s.puzzleIndex + 1 < ChallengeLength {
      LoadCustomPuzzleResets(e, rest.(puzzleIndex := s.puzzleIndex + 1));
    }
  }

  // ---------------------------------------------------------------------------
  // the clock
  // ---------------------------------------------------------------------------

  /** The interval schedules the advance exactly on the firing that brings the
      time to zero or below, and stops itself then. */
  lemma TimeUpSchedulesAdvance(s: State)
    requires s.timer.running
    ensures TimerTick(s).timer.remaining == s.timer.remaining - 1
    ensures s.timer.remaining <= 1 <==> TimerTick(s).pending == s.pending + [Advance]
    ensures s.timer.remaining <= 1 <==> !TimerTick(s).timer.running
    ensures TimerTick(s).clean == s.clean && TimerTick(s).puzzleIndex == s.puzzleIndex
  {
    assert |s.pending + [Advance]| != |s.pending|;
  }

  // ---------------------------------------------------------------------------
  // selection
  // ---------------------------------------------------------------------------

  /** The side-to-move rule on piece letters: white may pick exactly the
      upper-case letters, black exactly the lower-case ones. */
  lemma CanSelectByCase(p: char)
    requires IsPieceLetter(p)
    ensures CanSelect(true, p) <==> 'A' <= p <= 'Z'
    ensures CanSelect(false, p) <==> 'a' <= p <= 'z'
  {
  }

  /** No click does anything once the puzzle is solved. */
  lemma ClickWhenSolved(e: Engine, s: State, sq: string)
    requires Loaded(s) && IsSquare(sq) && s.solved
    ensures SquareClicked(e, s, sq) == s
  {
  }

  /** Clicking the selected square drops the selection and nothing else. */
  lemma ClickSelectedSquare(e: Engine, s: State, sq: string)
    requires Loaded(s) && IsSquare(sq) && !s.solved && s.selection.selected == Some(sq)
    ensures SquareClicked(e, s, sq) == s.(selection := NoSelection)
  {
  }

  /** Clicking a circled target with a square selected drops the selection and
      plays the move from the selected square; the state after the move has
      nothing selected. A circled target without a selection is ignored. */
  lemma ClickCircledTarget(e: Engine, s: State, sq: string)
    requires Loaded(s) && IsSquare(sq) && !s.solved && s.selection.selected != Some(sq)
    requires sq in s.selection.circles
    ensures s.selection.selected.Some? ==>
              SquareClicked(e, s, sq) == PlayerMove(e, s.(selection := NoSelection), s.selection.selected.value, sq)
              && SquareClicked(e, s, sq).selection == NoSelection
    ensures s.selection.selected.None? ==> SquareClicked(e, s, sq) == s
  {
    if s.selection.selected.Some? {
      PlayerMoveKeepsNoSelection(e, s.(selection := NoSelection), s.selection.selected.value, sq);
    }
  }

  /** Any other click drops the selection and selects the square exactly when
      it shows a piece of the side to move, circling that piece's targets. */
  lemma ClickOtherSquare(e: Engine, s: State, sq: string)
    requires Loaded(s) && IsSquare(sq) && !s.solved && s.selection.selected != Some(sq)
    requires sq !in s.selection.circles
    ensures var r := SquareClicked(e, s, sq);
            var piece := e.pieceAt(s.fen, sq);
            && r == s.(selection := r.selection)
            && (r.selection.selected.Some? <==>
                  ShowsPiece(s.board, sq) && piece.Some? && CanSelect(e.whiteToMove(s.fen), piece.value))
            && (r.selection.selected.Some? ==> r.selection == Selection(Some(sq), e.targets(s.fen, sq)))
            && (r.selection.selected.None? ==> r.selection == NoSelection)
  {
  }

  /** Clearing the board keeps an empty selection empty. */
  lemma ClearKeepsNoSelection(s: State)
    requires s.selection == NoSelection
    ensures ClearBoard(s).selection == NoSelection
  {
  }

  /** With nothing selected, a move leaves nothing selected. */
  lemma PlayerMoveKeepsNoSelection(e: Engine, s: State, from: string, to: string)
    requires Loaded(s) && s.selection == NoSelection
    ensures PlayerMove(e, s, from, to).selection == NoSelection
  {
    MovePieceKeepsNoSelection(e, s, from, to);
    if s.moveIndex == 2 {
      MovePieceKeepsNoSelection(e, s.(solved := true, timer := Stop(s.timer)), from, to);
    }
  }

  /** `movePiece` clears the board at most twice, so an empty selection stays empty. */
  lemma MovePieceKeepsNoSelection(e: Engine, s: State, from: string, to: string)
    requires s.selection == NoSelection
    ensures MovePiece(e, s, from, to).selection == NoSelection
  {
    ClearKeepsNoSelection(s);
    ClearKeepsNoSelection(ClearBoard(s));
  }
}
