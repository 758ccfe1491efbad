/** The page's module globals as one object: the methods below change its
    fields step by step the way the functions of script.js change the
    globals, and each is proved to end in the state the matching
    transition of `Sequencing` describes. */
module Machine {
  import opened Wrappers
  import opened Text
  import opened Placement
  import opened Puzzles
  import opened Validators
  import opened Clock
  import opened Oracle
  import S = Sequencing
  import PuzzleBank
  import Signup

  class Sequencer {
    /** The chess engine and `validateFEN`. */
    const engine: Engine

    var solved: bool
    var clean: bool
    var moveIndex: nat
    var puzzleIndex: nat
    var fen: string
    var board: string
    var puzzle: Option<Puzzle>
    var pending: seq<S.Step>
    var timer: Countdown
    var selection: S.Selection

    /** The fields as a value of the transition model. */
    function Snapshot(): S.State
      reads this
    {
      S.State(solved, clean, moveIndex, puzzleIndex, fen, board, puzzle, pending, timer, selection)
    }

    /** The globals as the script declares them. */
    constructor (engine: Engine)
      ensures this.engine == engine && Snapshot() == S.Initial
    {
      this.engine := engine;
      solved, clean, moveIndex, puzzleIndex := false, true, 0, 0;
      fen, board, puzzle, pending := "", "", None, [];
      timer, selection := Idle, S.NoSelection;
    }

    // -------------------------------------------------------------------------
    // the board
    // -------------------------------------------------------------------------

    /** `clearAllPieces()`. */
    method ClearAllPieces()
      modifies this
      ensures Snapshot() == S.ClearBoard(old(Snapshot()))
    {
      var occupied := Occupied(board);
      if selection.selected.Some? && selection.selected.value in occupied {
        selection := selection.(selected := None);
      }
      selection := selection.(circles := selection.circles - occupied);
      board := "";
    }

    /** Sets `currentFEN` and draws it with `loadBoard`. */
    method Install(f: string)
      modifies this
      ensures Snapshot() == S.Install(old(Snapshot()), f)
    {
      ClearAllPieces();
      fen := f;
      board := f;
    }

    /** `loadFen(fen)`. */
    method LoadFen(f: string)
      modifies this
      ensures Snapshot() == S.LoadFen(engine, old(Snapshot()), f)
    {
      if engine.valid(f) && engine.loads(f) {
        Install(f);
      } else {
        Install(StartFen);
      }
    }

    /** `movePiece(from, to)`. */
    method MovePiece(from: string, to: string)
      modifies this
      ensures Snapshot() == S.MovePiece(engine, old(Snapshot()), from, to)
    {
      var before := fen;
      ClearAllPieces();
      var next := engine.apply(before, from, to);
      if next.Some? {
        Install(next.value);
      } else if puzzleIndex == 6 || before != "" {
        LoadFen(before);
      } else if puzzle.Some? && puzzle.value.fen != "" {
        LoadFen(puzzle.value.fen);
      }
    }

    // -------------------------------------------------------------------------
    // moves
    // -------------------------------------------------------------------------

    /** `computerMove(from, to)`. */
    method ComputerMove(from: string, to: string)
      modifies this
      ensures Snapshot() == S.ComputerMoveCall(old(Snapshot()), from, to)
    {
      if IsSquare(from) && IsSquare(to) {
        pending := pending + [S.ComputerMove(from, to)];
      }
    }

    /** `stopTimer()`. */
    method StopTimer()
      modifies this
      ensures Snapshot() == old(Snapshot()).(timer := Stop(old(timer)))
    {
      timer := timer.(running := false);
    }

    /** `startTimer(seconds)`. */
    method StartTimer(seconds: int)
      modifies this
      ensures Snapshot() == old(Snapshot()).(timer := Started(seconds))
    {
      StopTimer();
      timer := Countdown(true, seconds, false, false);
      timer := timer.(warning := WarningAt(seconds), critical := CriticalAt(seconds));
    }

    /** `puzzleMoveGood(from, to)`. */
    method PuzzleMoveGood(from: string, to: string)
      requires S.Loaded(Snapshot())
      modifies this
      ensures Snapshot() == S.PuzzleMoveGood(engine, old(Snapshot()), from, to)
    {
      MovePiece(from, to);
      moveIndex := moveIndex + 1;
      if engine.mated(fen) || moveIndex >= |puzzle.value.moves| {
        solved := true;
        StopTimer();
        pending := pending + [S.Advance];
      } else {
        pending := pending + [S.ScriptedReply];
      }
    }

    /** `puzzleMoveBad(from, to)`. */
    method PuzzleMoveBad(from: string, to: string)
      requires S.Loaded(Snapshot())
      modifies this
      ensures Snapshot() == S.PuzzleMoveBad(engine, old(Snapshot()), from, to)
    {
      if solved {
        return;
      }
      var probe := engine.apply(fen, from, to);
      if probe.None? {
        return;
      }
      if engine.mated(probe.value) {
        PuzzleMoveGood(from, to);
        return;
      }
      var backup := fen;
      MovePiece(from, to);
      clean := false;
      pending := pending + [S.ShowBackup(backup)];
    }

    /** The puzzle-7 branch of `playerMove` after the move was accepted. */
    method Puzzle7Advance(from: string, to: string)
      requires S.Loaded(Snapshot())
      modifies this
      ensures Snapshot() == S.Puzzle7Advance(engine, old(Snapshot()), from, to)
    {
      var moves := puzzle.value.moves;
      if moveIndex == 2 {
        solved := true;
        StopTimer();
      }
      MovePiece(from, to);
      moveIndex := moveIndex + 1;
      if moveIndex >= |moves| {
        solved := true;
        pending := pending + [S.Advance];
        return;
      }
      var next := moves[moveIndex];
      if next != "" {
        pending := pending + [S.Reply(Substring(next, 0, 2), Substring(next, 2, 4))];
      }
    }

    /** `playerMove(from, to)`. */
    method PlayerMove(from: string, to: string)
      requires S.Loaded(Snapshot())
      modifies this
      ensures Snapshot() == S.PlayerMove(engine, old(Snapshot()), from, to)
    {
      var probe := engine.apply(fen, from, to);
      if probe.None? {
        return;
      }
      var verdict := Judge(puzzleIndex, moveIndex, puzzle.value.moves, from, to, engine.mated(probe.value));
      match verdict
      case Good => PuzzleMoveGood(from, to);
      case Bad => PuzzleMoveBad(from, to);
      case Puzzle7Good => Puzzle7Advance(from, to);
      case Puzzle7Reject =>
    }

    // -------------------------------------------------------------------------
    // loading puzzles
    // -------------------------------------------------------------------------

    /** `loadCustomPuzzle(puzzleIndex)`. */
    method LoadCustomPuzzle()
      modifies this
      ensures Snapshot() == S.LoadCustomPuzzle(engine, old(Snapshot()))
      decreases ChallengeLength - puzzleIndex, 2
    {
      ghost var s0 := Snapshot();
      if puzzleIndex >= ChallengeLength {
        StopTimer();
      } else if puzzleIndex == 6 {
        SetupPuzzle7();
      } else if puzzleIndex == 7 {
        SetupPuzzle8();
      } else {
        var p := CustomPuzzles[puzzleIndex];
        solved, moveIndex, puzzle := false, 0, Some(p);
        ClearAllPieces();
        ghost var reset := S.ClearBoard(s0.(solved := false, moveIndex := 0, puzzle := Some(p)));
        assert Snapshot() == reset;
        if engine.loads(p.fen) {
          Install(p.fen);
          StartTimer(PuzzleSeconds);
        } else {
          puzzleIndex := puzzleIndex + 1;
          assert Snapshot() == reset.(puzzleIndex := reset.puzzleIndex + 1);
          LoadCustomPuzzle();
        }
      }
    }

    /** `setupPuzzle7()`. */
    method SetupPuzzle7()
      modifies this
      ensures Snapshot() == S.SetupPuzzle7(engine, old(Snapshot()))
      decreases ChallengeLength - 6, 1
    {
      puzzleIndex, solved, moveIndex := 6, false, 0;
      ClearAllPieces();
      if engine.loads(Puzzle7Setup.fen) {
        puzzle := Some(Puzzle7Setup);
        Install(Puzzle7Setup.fen);
        StartTimer(PuzzleSeconds);
      } else {
        puzzleIndex := 7;
        LoadCustomPuzzle();
      }
    }

    /** `setupPuzzle8()`. */
    method SetupPuzzle8()
      modifies this
      ensures Snapshot() == S.SetupPuzzle8(engine, old(Snapshot()))
      decreases ChallengeLength - 7, 1
    {
      puzzleIndex, solved, moveIndex := 7, false, 0;
      ClearAllPieces();
      if engine.loads(Puzzle8Setup.fen) {
        puzzle := Some(Puzzle8Setup);
        Install(Puzzle8Setup.fen);
        StartTimer(PuzzleSeconds);
      } else {
        puzzleIndex := 8;
        LoadCustomPuzzle();
      }
    }

    /** The advance callback. */
    method Advance()
      modifies this
      ensures Snapshot() == S.AdvancePuzzle(engine, old(Snapshot()))
    {
      puzzleIndex := puzzleIndex + 1;
      if puzzleIndex < ChallengeLength {
        LoadCustomPuzzle();
      }
    }

    /** `loadSpecificPuzzle(index)`. */
    method LoadSpecificPuzzle(index: nat)
      requires index < ChallengeLength
      modifies this
      ensures Snapshot() == S.LoadSpecificPuzzle(engine, old(Snapshot()), index)
    {
      puzzleIndex := index;
      StopTimer();
      if index == 6 {
        SetupPuzzle7();
        return;
      }
      var p := CustomPuzzles[index];
      ClearAllPieces();
      solved, moveIndex, puzzle := false, 0, Some(p);
      if engine.loads(p.fen) {
        Install(p.fen);
        StartTimer(PuzzleSeconds);
      }
    }

    /** `startCustomPuzzleChallenge()`. */
    method StartChallenge()
      modifies this
      ensures Snapshot() == S.StartChallenge(engine, old(Snapshot()))
    {
      var p := CustomPuzzles[0];
      puzzleIndex, puzzle := 0, Some(p);
      if engine.loads(p.fen) {
        Install(p.fen);
        solved, moveIndex := false, 0;
        StartTimer(PuzzleSeconds);
      }
    }

    /** The submit handler of the sign-up form. */
    method SubmitSignup(phone: string)
      modifies this
      ensures Snapshot() == S.SubmitSignup(engine, old(Snapshot()), phone)
    {
      if Signup.PhoneAccepted(phone) {
        StartChallenge();
      }
    }

    /** `forceCustomPuzzleStart()`. */
    method ForceStart()
      modifies this
      ensures Snapshot() == S.ForceStart(engine, old(Snapshot()))
    {
      ClearAllPieces();
      var p := CustomPuzzles[0];
      puzzleIndex, solved, moveIndex, puzzle := 0, false, 0, Some(p);
      if engine.loads(p.fen) {
        Install(p.fen);
        StartTimer(PuzzleSeconds);
      }
    }

    /** `loadPuzzle(puzzle)`. */
    method LoadPuzzle(p: Puzzle)
      modifies this
      ensures Snapshot() == S.LoadPuzzle(engine, old(Snapshot()), p)
    {
      solved, puzzle := false, Some(p);
      LoadFen(p.fen);
      if |p.moves| == 0 {
        return;
      }
      var first := p.moves[0];
      ComputerMove(Substring(first, 0, 2), Substring(first, 2, 4));
      moveIndex := 0;
    }

    /** `loadRandomPuzzle()` with the stored rating and the two random draws
        as parameters. */
    method LoadRandomPuzzle(buckets: map<string, seq<Puzzle>>, rating: int, key: string, j: nat)
      requires PuzzleBank.Eligible(buckets.Keys, rating) != {} ==>
                 key in PuzzleBank.Eligible(buckets.Keys, rating) && j < |buckets[key]|
      modifies this
      ensures Snapshot() == S.LoadRandomPuzzle(engine, old(Snapshot()), buckets, rating, key, j)
    {
      if PuzzleBank.Eligible(buckets.Keys, rating) == {} {
        return;
      }
      var p := buckets[key][j];
      LoadPuzzle(p);
      if |p.moves| > 0 {
        clean := true;
      }
    }

    // -------------------------------------------------------------------------
    // timers
    // -------------------------------------------------------------------------

    /** Runs the pending callback at position `k`. */
    method Fire(k: nat)
      requires S.Loaded(Snapshot()) && k < |pending|
      modifies this
      ensures Snapshot() == S.Fire(engine, old(Snapshot()), k)
    {
      var step := pending[k];
      pending := pending[..k] + pending[k + 1..];
      match step
      case ScriptedReply =>
        if moveIndex < |puzzle.value.moves| {
          var m := puzzle.value.moves[moveIndex];
          ComputerMove(Substring(m, 0, 2), Substring(m, 2, 4));
        }
      case Reply(from, to) =>
        ComputerMove(from, to);
      case ComputerMove(from, to) =>
        MovePiece(from, to);
        moveIndex := moveIndex + 1;
      case ShowBackup(backup) =>
        LoadFen(backup);
        pending := pending + [S.Advance];
      case Advance =>
        Advance();
    }

    /** One firing of the countdown interval. */
    method TimerTick()
      requires timer.running
      modifies this
      ensures Snapshot() == S.TimerTick(old(Snapshot()))
    {
      var remaining := timer.remaining - 1;
      timer := timer.(remaining := remaining);
      if WarningAt(remaining) {
        timer := timer.(warning := true);
      }
      if CriticalAt(remaining) {
        timer := timer.(critical := true);
      }
      if remaining <= 0 {
        timer := timer.(running := false);
        pending := pending + [S.Advance];
      }
    }

    // -------------------------------------------------------------------------
    // clicks
    // -------------------------------------------------------------------------

    /** `selectPiece(square)`. */
    method SelectPiece(sq: string)
      modifies this
      ensures Snapshot() == S.SelectPiece(engine, old(Snapshot()), sq)
    {
      var piece := engine.pieceAt(fen, sq);
      if piece.Some? && S.CanSelect(engine.whiteToMove(fen), piece.value) {
        selection := S.Selection(Some(sq), engine.targets(fen, sq));
      }
    }

    /** `squareClicked(square)`. */
    method SquareClicked(sq: string)
      requires S.Loaded(Snapshot()) && IsSquare(sq)
      modifies this
      ensures Snapshot() == S.SquareClicked(engine, old(Snapshot()), sq)
    {
      if solved {
        return;
      }
      if selection.selected == Some(sq) {
        selection := S.NoSelection;
      } else if sq in selection.circles {
        var from := selection.selected;
        if from.Some? {
          selection := S.NoSelection;
          PlayerMove(from.value, sq);
        }
      } else {
        selection := S.NoSelection;
        if S.ShowsPiece(board, sq) {
          SelectPiece(sq);
        }
      }
    }
  }
}
