/** The puzzle records the trainer plays and the ten hand-written puzzles of the
    custom challenge (`customPuzzles` and the positions set up by `setupPuzzle7`
    and `setupPuzzle8`, script.js). */
module Puzzles {

  /** One puzzle: its id, the starting position, the solution line as
      from-square/to-square strings such as "h4h7" (player and computer moves
      alternate), and the rating text. */
  datatype Puzzle = Puzzle(id: string, fen: string, moves: seq<string>, rating: string)

  /** The position `loadFen` falls back to when a position is refused. */
  const StartFen: string := "rnbqkbnr/pppppppp/8/8/8/8/PPPPPPPP/RNBQKBNR w KQkq - 0 1"

  /** The length of the custom challenge (`customPuzzles.length`). */
  const ChallengeLength: nat := 10

  const CustomPuzzles: seq<Puzzle> := [
    Puzzle("custom1", "r2qb1rk/ppb2p1p/2n1pPp1/B3N3/2B1P2Q/2P2R2/1P4PP/7K w - - 0 1",
           ["h4h7", "h8h7", "f3h3"], "500"),
    Puzzle("custom2", "8/8/6p1/7k/3r2NP/B5PK/2br1R2/8 w - - 0 1",
           ["g4f6", "h5h6", "a3f8"], "600"),
    Puzzle("custom3", "q1nrrk2/6pp/5pbb/8/8/1B6/3B1Q2/4RK2 w - - 0 1",
           ["f2f6", "g7f6", "b3h6"], "800"),
    Puzzle("custom4", "kbK5/pp6/1P6/8/8/8/8/R7 w - - 0 1",
           ["a1a6", "b7a6", "b6b7"], "1500"),
    Puzzle("custom5", "8/8/8/2P3R1/5B2/2rP1p2/p1P1PP2/RnQ1K2k w Q - 5 3",
           ["c1b2", "b1a3", "c1d1"], "1200"),
    Puzzle("custom6", "2b3N1/8/1r2pN1b/1p2kp2/1P1R4/8/4K3/6Q1 w - - 0 1",
           ["d4f4", "h6f4", "g1c5"], "1800"),
    Puzzle("custom7", "1B2q1B1/2n1kPR1/R1b2n1Q/2p1r3/8/3Q2B1/4p3/4K3 w - - 0 1",
           ["d3d6", "e7d6", "f7e8n"], "1800"),
    Puzzle("custom8", "3N4/KPP1p3/3k4/4R3/3P4/6R1/7B/8 w - - 1 1",
           ["g3g7", "d6c7", "d5d5"], "1800"),
    Puzzle("custom9", "8/p4p2/Q7/3P4/1p1kB3/1K4N1/5R2/8 w - - 0 1",
           ["f2f6", "d4e5", "a6a1"], "2200"),
    Puzzle("custom10", "5B2/8/K7/8/kpp5/7R/8/1B6 w - - 0 1",
           ["h3c3", "b4c3", "b1c2"], "2200")
  ]

  /** The position and line `setupPuzzle7` installs in place of the seventh entry. */
  const Puzzle7Setup: Puzzle :=
    Puzzle("custom7", "8/1Q6/8/8/2k5/2P5/1KP5/8 w - - 0 1", ["b7d5", "d5d6", "d6b8"], "2000")

  /** The position and line `setupPuzzle8` installs in place of the eighth entry. */
  const Puzzle8Setup: Puzzle :=
    Puzzle("custom8", "r3k2r/p4ppp/1qnbpn2/8/8/1QNB1N2/P4PPP/R3K2R w KQkq - 0 1",
           ["e1c1", "c1b1", "b1a1"], "2100")

  /** Every custom puzzle has a three-ply line starting with a four-character
      move, and its last entry is exactly the 5-character promotion `f7e8n` only
      for the seventh entry. */
  lemma CustomPuzzleShape()
    ensures |CustomPuzzles| == ChallengeLength
    ensures forall i :: 0 <= i < |CustomPuzzles| ==>
              |CustomPuzzles[i].moves| == 3 && |CustomPuzzles[i].moves[0]| == 4
    ensures forall i :: 0 <= i < |CustomPuzzles| ==>
              (|CustomPuzzles[i].moves[2]| == 5 <==> i == 6)
  {
  }
}
