/** The board squares and the piece-placement field of a FEN position as the
    page draws it (`fenPositions` and `loadBoard`, script.js). */
module Placement {
  import opened Text

  /** The twelve piece letters (`pieces`): lower case black, upper case white. */
  const PieceLetters: set<char> := {'r', 'n', 'b', 'q', 'k', 'p', 'R', 'N', 'B', 'Q', 'K', 'P'}

  predicate IsPieceLetter(c: char) { c in PieceLetters }

  /** A square name: a file letter a-h followed by a rank digit 1-8. */
  predicate IsSquare(s: string) {
    |s| == 2 && 'a' <= s[0] <= 'h' && '1' <= s[1] <= '8'
  }

  /** The name of the square drawn at position `i`: file `i % 8`, rank `8 - i / 8`. */
  function SquareName(i: nat): (s: string)
    requires i < 64
    ensures IsSquare(s)
  {
    [(('a' as int) + i % 8) as char, (('0' as int) + 8 - i / 8) as char]
  }

  /** The square ids of the board in drawing order (`fenPositions`): rank 8
      from file a to h, then rank 7, and so on down to rank 1. */
  const FenPositions: seq<string> := seq(64, (i: int) requires 0 <= i < 64 => SquareName(i))

  /** The drawing position of a square. */
  function SquareIndex(sq: string): (i: nat)
    requires IsSquare(sq)
    ensures i < 64
  {
    8 * (('8' as int) - (sq[1] as int)) + ((sq[0] as int) - ('a' as int))
  }

  lemma DivMod8(q: nat, f: nat)
    requires f < 8
    ensures (8 * q + f) / 8 == q && (8 * q + f) % 8 == f
  {
  }

  /** Position and square name are inverse to each other, so every square is
      drawn exactly once, at the position `SquareIndex` names. */
  lemma SquareIndexInverse(sq: string)
    requires IsSquare(sq)
    ensures SquareName(SquareIndex(sq)) == sq
    ensures FenPositions[SquareIndex(sq)] == sq
  {
    var q, f := ('8' as int) - (sq[1] as int), (sq[0] as int) - ('a' as int);
    DivMod8(q, f);
    var n := SquareName(SquareIndex(sq));
    assert n[0] == sq[0] && n[1] == sq[1];
  }

  lemma SquareNameInverse(i: nat)
    requires i < 64
    ensures SquareIndex(SquareName(i)) == i
  {
  }

  // ---------------------------------------------------------------------------
  // expansion of the placement field
  // ---------------------------------------------------------------------------

  function Spaces(n: nat): (r: string)
    ensures |r| == n && forall i :: 0 <= i < n ==> r[i] == ' '
  {
    seq(n, _ => ' ')
  }

  /** What one character of the placement field becomes: a digit 0-8 becomes
      that many spaces, '/' disappears, anything else stays. */
  function ExpandChar(c: char): string {
    if '0' <= c <= '8' then Spaces((c as int) - ('0' as int))
    else if c == '/' then ""
    else [c]
  }

  /** `placement.replace(/[0-8]/g, d => " ".repeat(d)).replace(/\//g, '')`. */
  function Expand(p: string): string {
    if |p| == 0 then "" else ExpandChar(p[0]) + Expand(p[1..])
  }

  /** The placement field: the text before the first space (`fen.split(' ')[0]`). */
  function PlacementField(fen: string): string {
    Split(fen, ' ')[0]
  }

  /** True iff the square at position `i` shows a piece once `fen` is drawn. */
  predicate HasPieceAt(fen: string, i: nat) {
    var cells := Expand(PlacementField(fen));
    i < |cells| && IsPieceLetter(cells[i])
  }

  /** The squares that show a piece once `fen` is drawn. */
  function Occupied(fen: string): set<string> {
    set i | 0 <= i < 64 && HasPieceAt(fen, i) :: SquareName(i)
  }

  lemma OccupiedEmpty()
    ensures Occupied("") == {}
  {
    assert Split("", ' ') == [""];
    assert Expand("") == "";
  }

  lemma {:induction false} ExpandConcat(a: string, b: string)
    ensures Expand(a + b) == Expand(a) + Expand(b)
  {
    if |a| > 0 {
      assert (a + b)[1..] == a[1..] + b;
      ExpandConcat(a[1..], b);
    } else {
      assert a + b == b;
    }
  }

  // ---------------------------------------------------------------------------
  // well-formed placements
  // ---------------------------------------------------------------------------

  /** A character allowed inside one rank of a FEN placement: a piece letter or
      a count 1-8 of empty squares. */
  predicate IsRankChar(c: char) { IsPieceLetter(c) || '1' <= c <= '8' }

  /** The number of squares a rank describes, by the FEN rule: each digit counts
      its value, each piece letter counts one. */
  function RankWidth(r: string): nat
    requires forall i :: 0 <= i < |r| ==> IsRankChar(r[i])
  {
    if |r| == 0 then 0
    else
      assert IsRankChar(r[0]);
      (if IsPieceLetter(r[0]) then 1 else DigitValue(r[0])) + RankWidth(r[1..])
  }

  predicate WellFormedRank(r: string) {
    (forall i :: 0 <= i < |r| ==> IsRankChar(r[i])) && RankWidth(r) == 8
  }

  /** Eight '/'-separated ranks of eight squares each. */
  predicate WellFormedPlacement(p: string) {
    var ranks := Split(p, '/');
    |ranks| == 8 && forall i :: 0 <= i < 8 ==> WellFormedRank(ranks[i])
  }

  /** A rank expands to as many cells as the FEN rule counts, each a space or a piece. */
  lemma {:induction false} ExpandRank(r: string)
    requires forall i :: 0 <= i < |r| ==> IsRankChar(r[i])
    ensures |Expand(r)| == RankWidth(r)
    ensures forall j :: 0 <= j < |Expand(r)| ==> Expand(r)[j] == ' ' || IsPieceLetter(Expand(r)[j])
  {
    if |r| > 0 {
      ExpandRank(r[1..]);
      assert !IsPieceLetter(r[0]) ==> r[0] != '/';
      var head := ExpandChar(r[0]);
      assert Expand(r) == head + Expand(r[1..]);
      assert forall j :: 0 <= j < |head| ==> head[j] == ' ' || IsPieceLetter(head[j]);
    }
  }

  /** Ranks of eight squares joined by '/' expand to eight cells per rank. */
  lemma {:induction false} ExpandRanks(ranks: seq<string>)
    requires |ranks| > 0
    requires forall i :: 0 <= i < |ranks| ==> WellFormedRank(ranks[i])
    ensures |Expand(Join(ranks, '/'))| == 8 * |ranks|
    ensures forall j :: 0 <= j < |Expand(Join(ranks, '/'))| ==>
              Expand(Join(ranks, '/'))[j] == ' ' || IsPieceLetter(Expand(Join(ranks, '/'))[j])
  {
    ExpandRank(ranks[0]);
    if |ranks| > 1 {
      ExpandRanks(ranks[1..]);
      var tail := Join(ranks[1..], '/');
      assert Join(ranks, '/') == ranks[0] + ("/" + tail);
      ExpandConcat(ranks[0], "/" + tail);
      ExpandConcat("/", tail);
      assert Expand("/") == "";
    }
  }

  /** A well-formed placement covers the board exactly: 64 cells, each empty or a
      piece, so cell `i` is drawn on `FenPositions[i]` for every `i`. */
  lemma WellFormedCovers64(p: string)
    requires WellFormedPlacement(p)
    ensures |Expand(p)| == 64
    ensures forall j :: 0 <= j < 64 ==> Expand(p)[j] == ' ' || IsPieceLetter(Expand(p)[j])
  {
    JoinSplit(p, '/');
    ExpandRanks(Split(p, '/'));
  }

  // ---------------------------------------------------------------------------
  // the drawn board
  // ---------------------------------------------------------------------------

  /** True iff a square's class list holds a piece letter. */
  predicate HoldsPiece(classes: set<char>) { classes * PieceLetters != {} }

  /** `clearAllPieces` on one square: a square holding a piece class loses all
      its classes; any other square keeps them. */
  function Cleared(classes: set<char>): (r: set<char>)
    ensures !HoldsPiece(r)
  {
    if HoldsPiece(classes) then {} else classes
  }

  /** The class `loadBoard` adds to the square at position `i` for the expanded
      placement `cells`: the character there unless it is a space or missing. */
  function Placed(cells: string, i: nat): set<char> {
    if i < |cells| && cells[i] != ' ' then {cells[i]} else {}
  }

  /** The drawn board: for each square, in `FenPositions` order, the
      one-character CSS classes it carries. Only those matter here: a piece
      shows as the class named by its letter. */
  class Board {
    var cells: array<set<char>>

    ghost predicate Valid()
      reads this
    {
      cells.Length == 64
    }

    constructor ()
      ensures Valid() && fresh(cells)
      ensures forall i :: 0 <= i < 64 ==> cells[i] == {}
    {
      cells := new set<char>[64](_ => {});
    }

    /** `clearAllPieces`. */
    method ClearAllPieces()
      requires Valid()
      modifies cells
      ensures forall i :: 0 <= i < 64 ==> cells[i] == Cleared(old(cells[i]))
    {
      var i := 0;
      while i < 64
        invariant 0 <= i <= 64
        invariant forall j :: 0 <= j < i ==> cells[j] == Cleared(old(cells[j]))
        invariant forall j :: i <= j < 64 ==> cells[j] == old(cells[j])
      {
        if HoldsPiece(cells[i]) {
          cells[i] := {};
        }
        i := i + 1;
      }
    }

    /** `loadBoard(fen)`: clear the pieces, expand the placement field and add
        character `i` of the expansion to square `FenPositions[i]` unless it is
        a space; characters past the 64th have no square and are skipped. */
    method LoadBoard(fen: string)
      requires Valid()
      modifies cells
      ensures forall i :: 0 <= i < 64 ==>
                cells[i] == Cleared(old(cells[i])) + Placed(Expand(PlacementField(fen)), i)
      ensures forall i :: 0 <= i < 64 ==> (HoldsPiece(cells[i]) <==> HasPieceAt(fen, i))
    {
      ClearAllPieces();
      var placement := Expand(PlacementField(fen));
      var i := 0;
      while i < |placement|
        invariant 0 <= i <= |placement|
        invariant forall j :: 0 <= j < 64 ==>
                    cells[j] == Cleared(old(cells[j])) + (if j < i then Placed(placement, j) else {})
      {
        if i < 64 && placement[i] != ' ' {
          cells[i] := cells[i] + {placement[i]};
        }
        i := i + 1;
      }
      forall j | 0 <= j < 64
        ensures HoldsPiece(cells[j]) <==> HasPieceAt(fen, j)
      {
        assert !HoldsPiece(Cleared(old(cells[j])));
        assert HoldsPiece(Placed(placement, j)) <==> HasPieceAt(fen, j);
      }
    }
  }
}
