/** How `playerMove` (script.js) decides whether a move is the one the puzzle
    wants: the exact-text check against the solution line, the hard-coded
    square pairs for the first, third and fourth puzzles, and
    `validatePuzzle7Move` / `validatePuzzle8Move`. All of them are pure; the
    solved mark that the last two set on their final index is applied by the
    sequencer. */
module Validators {
  import opened Puzzles

  /** The square pairs accepted by the override of one puzzle, by move index. */
  function Puzzle1Pairs(): map<nat, string> { map[0 := "h4h7", 2 := "f3h3"] }
  function Puzzle3Pairs(): map<nat, string> { map[0 := "f2f6", 2 := "b3h6"] }
  function Puzzle4Pairs(): map<nat, string> { map[0 := "a1a6"] }
  function Puzzle7Pairs(): map<nat, string> { map[0 := "b7d5", 1 := "d5d6", 2 := "d6b8"] }
  function Puzzle8Pairs(): map<nat, string> { map[0 := "e1c1", 1 := "c1b1", 2 := "b1a1"] }

  /** The inline check for the first puzzle (`puzzleIndex === 0`). */
  predicate Puzzle1Accepts(moveIndex: nat, from: string, to: string) {
    (moveIndex == 0 && from == "h4" && to == "h7") || (moveIndex == 2 && from == "f3" && to == "h3")
  }

  /** The inline check for the third puzzle (`puzzleIndex === 2`). */
  predicate Puzzle3Accepts(moveIndex: nat, from: string, to: string) {
    (moveIndex == 0 && from == "f2" && to == "f6") || (moveIndex == 2 && from == "b3" && to == "h6")
  }

  /** The inline check for the fourth puzzle (`puzzleIndex === 3`). */
  predicate Puzzle4Accepts(moveIndex: nat, from: string, to: string) {
    moveIndex == 0 && from == "a1" && to == "a6"
  }

  /** `validatePuzzle7Move(from, to, moveIndex)`. */
  predicate Puzzle7Accepts(from: string, to: string, moveIndex: nat) {
    if moveIndex == 0 then from == "b7" && to == "d5"
    else if moveIndex == 1 then from == "d5" && to == "d6"
    else if moveIndex == 2 then from == "d6" && to == "b8"
    else false
  }

  /** `validatePuzzle8Move(from, to, moveIndex)`; `playerMove` never calls it. */
  predicate Puzzle8Accepts(from: string, to: string, moveIndex: nat) {
    if moveIndex == 0 then from == "e1" && to == "c1"
    else if moveIndex == 1 then from == "c1" && to == "b1"
    else if moveIndex == 2 then from == "b1" && to == "a1"
    else false
  }

  /** A two-character square id, as the board squares carry. */
  predicate IsId(s: string) { |s| == 2 }

  /** Each override accepts a move exactly when its move index has an entry
      in the override's table and the move is that entry, and rejects every
      other index. */
  lemma OverridesMatchTables(i: nat, from: string, to: string)
    requires IsId(from) && IsId(to)
    ensures Puzzle1Accepts(i, from, to) <==> i in Puzzle1Pairs() && from + to == Puzzle1Pairs()[i]
    ensures Puzzle3Accepts(i, from, to) <==> i in Puzzle3Pairs() && from + to == Puzzle3Pairs()[i]
    ensures Puzzle4Accepts(i, from, to) <==> i in Puzzle4Pairs() && from + to == Puzzle4Pairs()[i]
    ensures Puzzle7Accepts(from, to, i) <==> i in Puzzle7Pairs() && from + to == Puzzle7Pairs()[i]
    ensures Puzzle8Accepts(from, to, i) <==> i in Puzzle8Pairs() && from + to == Puzzle8Pairs()[i]
  {
    var m := from + to;
    assert m[..2] == from && m[2..] == to;
  }

  /** The override tables hold exactly the solution moves of the puzzles they
      guard, except the fourth override, which has no entry for the final
      `b6b7`. */
  lemma TablesFollowPuzzles()
    ensures forall i :: i in Puzzle1Pairs() ==> Puzzle1Pairs()[i] == CustomPuzzles[0].moves[i]
    ensures forall i :: i in Puzzle3Pairs() ==> Puzzle3Pairs()[i] == CustomPuzzles[2].moves[i]
    ensures forall i :: i in Puzzle4Pairs() ==> Puzzle4Pairs()[i] == CustomPuzzles[3].moves[i]
    ensures 2 !in Puzzle4Pairs() && CustomPuzzles[3].moves[2] == "b6b7"
    ensures Puzzle7Pairs().Keys == {0, 1, 2} && |Puzzle7Setup.moves| == 3
    ensures forall i :: i in Puzzle7Pairs() ==> Puzzle7Pairs()[i] == Puzzle7Setup.moves[i]
    ensures Puzzle8Pairs().Keys == {0, 1, 2} && |Puzzle8Setup.moves| == 3
    ensures forall i :: i in Puzzle8Pairs() ==> Puzzle8Pairs()[i] == Puzzle8Setup.moves[i]
  {
  }

  /** The default check: the probed move gives checkmate, or `${from}${to}` is
      exactly the expected entry of the line (an index past the end expects
      nothing and matches no move). */
  predicate DefaultAccepts(moves: seq<string>, moveIndex: nat, from: string, to: string, mates: bool) {
    mates || (moveIndex < |moves| && moves[moveIndex] == from + to)
  }

  /** A 5-character entry such as a promotion `f7e8n` never equals a move of two
      square ids, so it is passed only by giving checkmate. */
  lemma PromotionEntryNeedsMate(moves: seq<string>, moveIndex: nat, from: string, to: string, mates: bool)
    requires IsId(from) && IsId(to)
    requires moveIndex < |moves| && |moves[moveIndex]| == 5
    ensures DefaultAccepts(moves, moveIndex, from, to, mates) <==> mates
  {
    assert |from + to| == 4;
  }

  /** What `playerMove` makes of a legal move. */
  datatype Verdict =
    | Good            // `puzzleMoveGood`
    | Bad             // `puzzleMoveBad`
    | Puzzle7Good     // the puzzle-7 branch after `validatePuzzle7Move` accepted
    | Puzzle7Reject   // the puzzle-7 branch after `validatePuzzle7Move` refused

  /** The dispatch of `playerMove` on the puzzle index: the overrides for
      indices 0, 2 and 3, the puzzle-7 validator for index 6, and the default
      check for every other index, including any puzzle of the rating bank. */
  function Judge(puzzleIndex: nat, moveIndex: nat, moves: seq<string>, from: string, to: string, mates: bool): (v: Verdict)
    ensures puzzleIndex == 6 <==> v in {Puzzle7Good, Puzzle7Reject}
    ensures puzzleIndex == 6 ==> (v == Puzzle7Good <==> Puzzle7Accepts(from, to, moveIndex))
    ensures puzzleIndex == 0 ==> (v == Good <==> Puzzle1Accepts(moveIndex, from, to))
    ensures puzzleIndex == 2 ==> (v == Good <==> Puzzle3Accepts(moveIndex, from, to))
    ensures puzzleIndex == 3 ==> (v == Good <==> Puzzle4Accepts(moveIndex, from, to))
    ensures puzzleIndex !in {0, 2, 3, 6} ==> (v == Good <==> DefaultAccepts(moves, moveIndex, from, to, mates))
    ensures puzzleIndex != 6 ==> v in {Good, Bad}
  {
    if puzzleIndex == 0 then (if Puzzle1Accepts(moveIndex, from, to) then Good else Bad)
    else if puzzleIndex == 2 then (if Puzzle3Accepts(moveIndex, from, to) then Good else Bad)
    else if puzzleIndex == 3 then (if Puzzle4Accepts(moveIndex, from, to) then Good else Bad)
    else if puzzleIndex == 6 then (if Puzzle7Accepts(from, to, moveIndex) then Puzzle7Good else Puzzle7Reject)
    else if DefaultAccepts(moves, moveIndex, from, to, mates) then Good
    else Bad
  }

  /** The overrides ignore checkmate: a mating move that is not the listed pair
      is judged wrong (it may still be rescued later by `puzzleMoveBad`). */
  lemma OverridesIgnoreMate(puzzleIndex: nat, moveIndex: nat, moves: seq<string>, from: string, to: string)
    requires puzzleIndex in {0, 2, 3, 6}
    ensures Judge(puzzleIndex, moveIndex, moves, from, to, true) == Judge(puzzleIndex, moveIndex, moves, from, to, false)
  {
  }
}
