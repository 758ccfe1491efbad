/** The rating bank read from the puzzle CSV (`initPuzzles`, script.js) and the
    rating window `loadRandomPuzzle` draws from. */
module PuzzleBank {
  import opened Wrappers
  import opened Text
  import opened Puzzles

  /** What `initPuzzles` returns: the puzzles grouped by their rating text, and
      the puzzle that the `puzzle` URL parameter names (the `param` slot). */
  datatype Bank = Bank(buckets: map<string, seq<Puzzle>>, param: Option<Puzzle>)

  /** A parsed line: the rating text it is filed under and its puzzle. */
  datatype Entry = Entry(key: string, puzzle: Puzzle)

  /** The lines of the CSV text. */
  function Lines(csv: string): seq<string> { Split(csv, '\n') }

  /** A line the loop skips: nothing but white space. */
  predicate Blank(line: string) { Trim(line) == "" }

  /** The destructuring `[puzzle_id, fen, moves, rating] = line.split(',')`
      followed by `moves.split(' ')`. With fewer than three fields `moves` is
      undefined and splitting it throws; with exactly three the rating is
      undefined and the puzzle is filed under the key "undefined"; fields past
      the fourth are ignored. */
  function ParseLine(line: string): (r: Option<Entry>)
    ensures r.Some? <==> |Split(line, ',')| >= 3
    ensures r.Some? ==> r.value.key == r.value.puzzle.rating && |r.value.puzzle.moves| > 0
  {
    ParseFields(Split(line, ','))
  }

  function ParseFields(f: seq<string>): (r: Option<Entry>)
    ensures r.Some? <==> |f| >= 3
  {
    if |f| < 3 then None
    else
      var key := if |f| >= 4 then f[3] else "undefined";
      Some(Entry(key, Puzzle(f[0], f[1], Split(f[2], ' '), key)))
  }

  /** A line written from a puzzle's four fields parses back into that puzzle. */
  lemma ParseLineOfFields(id: string, fen: string, moves: seq<string>, rating: string)
    requires ',' !in id && ',' !in fen && ',' !in rating
    requires |moves| > 0 && forall i :: 0 <= i < |moves| ==> ' ' !in moves[i] && ',' !in moves[i]
    ensures ParseLine(id + "," + fen + "," + Join(moves, ' ') + "," + rating)
            == Some(Entry(rating, Puzzle(id, fen, moves, rating)))
  {
    var ms := Join(moves, ' ');
    JoinAvoids(moves, ' ', ',');
    SplitFour(id, fen, ms, rating, ',');
    SplitJoin(moves, ' ');
    ParseSplitLine(id + "," + fen + "," + ms + "," + rating, id, fen, ms, rating, moves);
  }

  lemma SplitFour(a: string, b: string, c: string, d: string, sep: char)
    requires sep !in a && sep !in b && sep !in c && sep !in d
    ensures Split(a + [sep] + b + [sep] + c + [sep] + d, sep) == [a, b, c, d]
  {
    JoinFour(a, b, c, d, sep);
    SplitJoin([a, b, c, d], sep);
  }

  lemma JoinFour(a: string, b: string, c: string, d: string, sep: char)
    ensures Join([a, b, c, d], sep) == a + [sep] + b + [sep] + c + [sep] + d
  {
    calc {
      Join([a, b, c, d], sep);
      { assert [a, b, c, d][1..] == [b, c, d]; }
      a + [sep] + Join([b, c, d], sep);
      { assert [b, c, d][1..] == [c, d]; }
      a + [sep] + (b + [sep] + Join([c, d], sep));
      { assert [c, d][1..] == [d]; }
      a + [sep] + (b + [sep] + (c + [sep] + d));
      a + [sep] + b + [sep] + c + [sep] + d;
    }
  }

  lemma ParseSplitLine(line: string, id: string, fen: string, ms: string, rating: string, moves: seq<string>)
    requires Split(line, ',') == [id, fen, ms, rating] && Split(ms, ' ') == moves
    ensures ParseLine(line) == Some(Entry(rating, Puzzle(id, fen, moves, rating)))
  {
  }

  /** Joining pieces free of a character with a different separator keeps the
      character out. */
  lemma {:induction false} JoinAvoids(parts: seq<string>, sep: char, c: char)
    requires |parts| > 0 && c != sep
    requires forall i :: 0 <= i < |parts| ==> c !in parts[i]
    ensures c !in Join(parts, sep)
  {
    if |parts| > 1 {
      JoinAvoids(parts[1..], sep, c);
    }
  }

  /** No non-blank line throws. */
  predicate AllParse(lines: seq<string>) {
    forall j :: 0 <= j < |lines| && !Blank(lines[j]) ==> ParseLine(lines[j]).Some?
  }

  /** The puzzles filed under `key`, in line order. */
  function Bucket(lines: seq<string>, key: string): seq<Puzzle> {
    if |lines| == 0 then []
    else
      var prev := Bucket(lines[..|lines| - 1], key);
      var e := ParseLine(lines[|lines| - 1]);
      if !Blank(lines[|lines| - 1]) && e.Some? && e.value.key == key then prev + [e.value.puzzle]
      else prev
  }

  /** The puzzle the last non-blank line with id `want` gives (`puzzles['param']`). */
  function ParamOf(lines: seq<string>, want: Option<string>): Option<Puzzle> {
    if |lines| == 0 then None
    else
      var e := ParseLine(lines[|lines| - 1]);
      if !Blank(lines[|lines| - 1]) && e.Some? && want == Some(e.value.puzzle.id) then Some(e.value.puzzle)
      else ParamOf(lines[..|lines| - 1], want)
  }

  /** A puzzle is in the bucket of `key` exactly when some non-blank line
      parses into it with that rating: every line lands in the bucket of its
      own rating and in no other. */
  lemma {:induction false} BucketMembership(lines: seq<string>, key: string, p: Puzzle)
    ensures p in Bucket(lines, key) <==>
              exists j :: 0 <= j < |lines| && !Blank(lines[j]) && ParseLine(lines[j]) == Some(Entry(key, p))
  {
    if |lines| > 0 {
      var init := lines[..|lines| - 1];
      BucketMembership(init, key, p);
      forall j | 0 <= j < |init|
        ensures init[j] == lines[j]
      {
      }
      var last := |lines| - 1;
      if p in Bucket(lines, key) && p !in Bucket(init, key) {
        assert !Blank(lines[last]) && ParseLine(lines[last]) == Some(Entry(key, p));
      }
    }
  }

  /** The number of non-blank lines filed under `key`; the bucket holds one puzzle for each. */
  function KeyCount(lines: seq<string>, key: string): nat {
    if |lines| == 0 then 0
    else
      var e := ParseLine(lines[|lines| - 1]);
      KeyCount(lines[..|lines| - 1], key) + (if !Blank(lines[|lines| - 1]) && e.Some? && e.value.key == key then 1 else 0)
  }

  lemma {:induction false} BucketSize(lines: seq<string>, key: string)
    ensures |Bucket(lines, key)| == KeyCount(lines, key)
  {
    if |lines| > 0 {
      BucketSize(lines[..|lines| - 1], key);
    }
  }

  /** Taking in one more line adds its puzzle to the bucket of its own rating
      and leaves every other bucket as it was. */
  lemma PrefixBucket(lines: seq<string>, i: nat, k: string)
    requires i < |lines|
    ensures Bucket(lines[..i + 1], k) ==
              if !Blank(lines[i]) && ParseLine(lines[i]).Some? && ParseLine(lines[i]).value.key == k
              then Bucket(lines[..i], k) + [ParseLine(lines[i]).value.puzzle]
              else Bucket(lines[..i], k)
  {
    assert lines[..i + 1][..i] == lines[..i];
  }

  /** Taking in one more line moves the `param` slot to it when its id is wanted. */
  lemma PrefixParam(lines: seq<string>, i: nat, want: Option<string>)
    requires i < |lines|
    ensures ParamOf(lines[..i + 1], want) ==
              if !Blank(lines[i]) && ParseLine(lines[i]).Some? && want == Some(ParseLine(lines[i]).value.puzzle.id)
              then Some(ParseLine(lines[i]).value.puzzle)
              else ParamOf(lines[..i], want)
  {
    assert lines[..i + 1][..i] == lines[..i];
  }

  /** Taking in one more line that parses, or is blank, keeps every line parsed. */
  lemma PrefixParse(lines: seq<string>, i: nat)
    requires i < |lines| && AllParse(lines[..i])
    requires Blank(lines[i]) || ParseLine(lines[i]).Some?
    ensures AllParse(lines[..i + 1])
  {
    var p := lines[..i + 1];
    forall j | 0 <= j < |p| && !Blank(p[j])
      ensures ParseLine(p[j]).Some?
    {
      if j < i {
        assert p[j] == lines[..i][j];
      }
    }
  }

  /** A rating map holds, for exactly the ratings that occur in `lines`, the
      puzzles filed under them. */
  ghost predicate BucketsMatch(buckets: map<string, seq<Puzzle>>, lines: seq<string>) {
    && (forall k :: k in buckets <==> Bucket(lines, k) != [])
    && (forall k :: k in buckets ==> buckets[k] == Bucket(lines, k))
  }

  /** Pushing the puzzle of the next line onto the list of its rating (a new
      list when the rating is new) keeps the map matching the lines read. */
  lemma PushMatches(buckets: map<string, seq<Puzzle>>, lines: seq<string>, i: nat, e: Entry, list: seq<Puzzle>)
    requires i < |lines| && BucketsMatch(buckets, lines[..i])
    requires !Blank(lines[i]) && ParseLine(lines[i]) == Some(e)
    requires list == if e.key in buckets then buckets[e.key] else []
    ensures BucketsMatch(buckets[e.key := list + [e.puzzle]], lines[..i + 1])
  {
    var after := buckets[e.key := list + [e.puzzle]];
    forall k
      ensures k in after <==> Bucket(lines[..i + 1], k) != []
      ensures k in after ==> after[k] == Bucket(lines[..i + 1], k)
    {
      PrefixBucket(lines, i, k);
    }
  }

  /** A blank line leaves the map matching the lines read. */
  lemma SkipMatches(buckets: map<string, seq<Puzzle>>, lines: seq<string>, i: nat)
    requires i < |lines| && BucketsMatch(buckets, lines[..i]) && Blank(lines[i])
    ensures BucketsMatch(buckets, lines[..i + 1])
  {
    forall k
      ensures Bucket(lines[..i + 1], k) == Bucket(lines[..i], k)
    {
      PrefixBucket(lines, i, k);
    }
  }

  /** The `forEach` callback of `initPuzzles` for one line: a blank line is
      skipped; otherwise the line is destructured and its puzzle pushed onto
      the list of its rating, and it takes the `param` slot when its id is the
      wanted one. `ok` is false when the destructuring throws. */
  method AddLine(buckets: map<string, seq<Puzzle>>, param: Option<Puzzle>, line: string, want: Option<string>)
    returns (ok: bool, buckets': map<string, seq<Puzzle>>, param': Option<Puzzle>)
    ensures ok <==> Blank(line) || ParseLine(line).Some?
    ensures ok && Blank(line) ==> buckets' == buckets && param' == param
    ensures ok && !Blank(line) ==>
              var e := ParseLine(line).value;
              && buckets' == buckets[e.key := (if e.key in buckets then buckets[e.key] else []) + [e.puzzle]]
              && param' == if want == Some(e.puzzle.id) then Some(e.puzzle) else param
  {
    buckets', param' := buckets, param;
    if Trim(line) == "" {
      return true, buckets', param';
    }
    var fields := Split(line, ',');
    if |fields| < 3 {
      return false, buckets', param';
    }
    var rating := if |fields| >= 4 then fields[3] else "undefined";
    var puzzle := Puzzle(fields[0], fields[1], Split(fields[2], ' '), rating);
    assert ParseLine(line) == Some(Entry(rating, puzzle));
    var list: seq<Puzzle> := [];
    if rating in buckets {
      list := buckets[rating];
    }
    buckets' := buckets[rating := list + [puzzle]];
    if want == Some(fields[0]) {
      param' := Some(puzzle);
    }
    ok := true;
  }

  /** `initPuzzles(csvString)`: walks the lines, skips the blank ones, and
      pushes each puzzle onto the list of its rating, creating the list on
      first use; a line with fewer than three fields makes the whole call
      throw (`None`). `want` is the `puzzle` URL parameter, `None` when absent. */
  method InitPuzzles(csv: string, want: Option<string>) returns (r: Option<Bank>)
    ensures r.Some? <==> AllParse(Lines(csv))
    ensures r.Some? ==> forall k :: k in r.value.buckets <==> Bucket(Lines(csv), k) != []
    ensures r.Some? ==> forall k :: k in r.value.buckets ==> r.value.buckets[k] == Bucket(Lines(csv), k)
    ensures r.Some? ==> r.value.param == ParamOf(Lines(csv), want)
  {
    var lines := Split(csv, '\n');
    var buckets: map<string, seq<Puzzle>> := map[];
    var param: Option<Puzzle> := None;
    var i := 0;
    while i < |lines|
      invariant 0 <= i <= |lines|
      invariant AllParse(lines[..i])
      invariant BucketsMatch(buckets, lines[..i])
      invariant param == ParamOf(lines[..i], want)
    {
      var ok, nextBuckets, nextParam := AddLine(buckets, param, lines[i], want);
      if !ok {
        assert !AllParse(lines) by {
          assert !Blank(lines[i]) && ParseLine(lines[i]).None?;
        }
        return None;
      }
      PrefixParam(lines, i, want);
      PrefixParse(lines, i);
      if Blank(lines[i]) {
        SkipMatches(buckets, lines, i);
      } else {
        var e := ParseLine(lines[i]).value;
        PushMatches(buckets, lines, i, e, if e.key in buckets then buckets[e.key] else []);
      }
      buckets, param := nextBuckets, nextParam;
      i := i + 1;
    }
    assert lines[..i] == lines;
    return Some(Bank(buckets, param));
  }

  // ---------------------------------------------------------------------------
  // the rating window
  // ---------------------------------------------------------------------------

  /** `Number(key)` as the `>=` / `<=` comparison with a number applies it: the
      text is trimmed, the empty text is 0 and a digit string is its decimal
      value; any other text is taken as not a number, which compares false. */
  function JsNumber(s: string): (r: Option<nat>)
    ensures r.Some? <==> AllDigits(Trim(s))
  {
    var t := Trim(s);
    if AllDigits(t) then Some(DigitsValue(t)) else None
  }

  function Max(a: int, b: int): int { if a >= b then a else b }

  /** `rating >= Math.max(0, r - 100) && rating <= r + 100`. */
  predicate InWindow(v: int, rating: int) {
    Max(0, rating - 100) <= v <= rating + 100
  }

  /** `Object.keys(puzzles).filter(...)` for the player rating `rating`. */
  function Eligible(keys: set<string>, rating: int): (r: set<string>)
    ensures r <= keys
  {
    set k | k in keys && JsNumber(k).Some? && InWindow(JsNumber(k).value, rating)
  }

  /** A key printed from a number `v` is eligible exactly when it is a key and
      `v` lies within 100 of the player's rating. */
  lemma EligibleNumeral(keys: set<string>, rating: int, v: nat)
    ensures NatToString(v) in Eligible(keys, rating) <==>
              NatToString(v) in keys && rating - 100 <= v <= rating + 100
  {
    NumberOfNumeral(v);
    EligibleKey(keys, rating, NatToString(v), v);
  }

  /** A key whose numeric value is `v` is eligible exactly when it is a key
      and `v` lies within 100 of the player's rating. */
  lemma EligibleKey(keys: set<string>, rating: int, k: string, v: nat)
    requires JsNumber(k) == Some(v)
    ensures k in Eligible(keys, rating) <==> k in keys && rating - 100 <= v <= rating + 100
  {
  }

  /** A printed number reads back as itself. */
  lemma NumberOfNumeral(v: nat)
    ensures JsNumber(NatToString(v)) == Some(v)
  {
    var s := NatToString(v);
    TrimKeepsDigits(s);
    DigitsValueOfNatToString(v);
  }

  /** White space around a key, such as the carriage return a CRLF file leaves
      on the last field, does not change its value. */
  lemma NumberIgnoresPadding(w1: string, s: string, w2: string)
    requires AllSpace(w1) && AllSpace(w2)
    ensures JsNumber(w1 + s + w2) == JsNumber(s)
  {
    TrimIgnoresPadding(w1, s, w2);
  }

  /** Text that is not a number after trimming is never eligible. */
  lemma NonNumbersIneligible(keys: set<string>, rating: int, k: string)
    requires !AllDigits(Trim(k))
    ensures k !in Eligible(keys, rating)
  {
  }
}
