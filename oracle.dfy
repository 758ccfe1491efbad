/** The chess engine (`Game` of js-chess-engine) and `validateFEN`, seen only
    through the questions the page asks of them. The page rebuilds its `game`
    from `currentFEN` after every probe and every load, so each answer is a
    function of the position text. */
module Oracle {
  import opened Wrappers

  datatype Engine = Engine(
    /** `validateFEN(fen)`. */
    valid: string -> bool,
    /** `new Game(fen)` / `game.loadFEN(fen)` returns instead of throwing. */
    loads: string -> bool,
    /** `game.move(from, to)` followed by `game.exportFEN()`; `None` when the
        move throws. */
    apply: (string, string, string) -> Option<string>,
    /** `isFinished && checkMate` of `game.exportJson()`. */
    mated: string -> bool,
    /** `turn === 'white'` of `game.exportJson()` (otherwise `'black'`). */
    whiteToMove: string -> bool,
    /** `pieces[SQUARE]` of `game.exportJson()`; `None` when undefined. */
    pieceAt: (string, string) -> Option<char>,
    /** `moves[SQUARE]` of `game.exportJson()`, lower-cased square ids. */
    targets: (string, string) -> set<string>)
}
