/**
  Counting and fingerprinting the accepted lines of a unified diff. The digest and the
  Unicode letter-or-digit test are parameters (`Env`).
 */
module AcceptedLines {
  import opened Prelude
  import opened Whitespace

  datatype Env = Env(hash: (string, string) -> string, alphanumeric: char -> bool)

  datatype Fingerprint = Fingerprint(pathHash: string, lineHash: string)

  datatype Summary = Summary(added: nat, deleted: nat, fingerprints: seq<Fingerprint>)

  const DIFF_GIT := "diff --git "
  const HUNK := "@@ "
  const NEW_FILE := "+++ "
  const OLD_FILE := "--- "

  // -------------------------------------------------------------------- text

  function Utf8Length(s: string): nat {
    if |s| == 0 then 0
    else Utf8Length(Front(s))
         + (var n := Last(s) as int; if n < 0x80 then 1 else if n < 0x800 then 2 else if n < 0x10000 then 3 else 4)
  }

  function NormalizePath(path: string): Option<string> {
    var p := TrimStart(TrimEnd(path));
    if p == "/dev/null" then None
    else if "b/" <= p || "a/" <= p then Some(p[2..])
    else Some(p)
  }

  function NormalizeLine(env: Env, line: string): Option<string> {
    var s := Join(Words(line));
    if Utf8Length(s) <= 3 then None
    else if !(exists i :: 0 <= i < |s| && (env.alphanumeric(s[i]) || s[i] == '_')) then None
    else Some(s)
  }

  /** `str::lines`: terminated by a line feed, with one carriage return before it removed. */
  function Chomp(line: string): string {
    if |line| > 0 && Last(line) == '\r' then Front(line) else line
  }

  /** The text split at its line feeds; the last piece is what follows the last of them. */
  function Pieces(s: string): (ps: seq<string>)
    ensures |ps| > 0
  {
    if |s| == 0 then [""]
    else
      var ps := Pieces(Front(s));
      if Last(s) == '\n' then ps + [""] else Front(ps) + [Last(ps) + [Last(s)]]
  }

  function ChompAll(lines: seq<string>): seq<string> {
    if |lines| == 0 then [] else ChompAll(Front(lines)) + [Chomp(Last(lines))]
  }

  /** All pieces but the last were terminated; the last is a line only if there is something in it. */
  function LinesOf(pieces: seq<string>): seq<string>
    requires |pieces| > 0
  {
    ChompAll(Front(pieces)) + (if |Last(pieces)| == 0 then [] else [Last(pieces)])
  }

  function Lines(s: string): seq<string> {
    LinesOf(Pieces(s))
  }

  // ----------------------------------------------------------------- scanner

  datatype Scanner = Scanner(path: Option<string>, inHunk: bool, sum: Summary)

  const EMPTY := Summary(0, 0, [])
  const INITIAL := Scanner(None, false, EMPTY)

  function FingerprintsOf(env: Env, path: Option<string>, text: string): seq<Fingerprint> {
    if path.Some? && NormalizeLine(env, text).Some?
    then [Fingerprint(env.hash("path", path.value), env.hash("line", NormalizeLine(env, text).value))]
    else []
  }

  function Plus(a: Summary, b: Summary): Summary {
    Summary(a.added + b.added, a.deleted + b.deleted, a.fingerprints + b.fingerprints)
  }

  function ScanLine(env: Env, sc: Scanner, line: string): Scanner {
    if DIFF_GIT <= line then Scanner(None, false, sc.sum)
    else if HUNK <= line then sc.(inHunk := true)
    else if !sc.inHunk && NEW_FILE <= line then sc.(path := NormalizePath(line[4..]))
    else if !sc.inHunk && OLD_FILE <= line then sc
    else if "+" <= line then sc.(sum := Plus(sc.sum, Summary(1, 0, FingerprintsOf(env, sc.path, line[1..]))))
    else if "-" <= line then sc.(sum := Plus(sc.sum, Summary(0, 1, [])))
    else sc
  }

  function ScanLines(env: Env, sc: Scanner, lines: seq<string>): Scanner
    decreases |lines|
  {
    if |lines| == 0 then sc else ScanLine(env, ScanLines(env, sc, Front(lines)), Last(lines))
  }

  /** One turn of the scanner's loop. */
  method Advance(env: Env, before: Scanner, line: string) returns (after: Scanner)
    ensures after == ScanLine(env, before, line)
  {
    var path, inHunk, added, deleted := before.path, before.inHunk, before.sum.added, before.sum.deleted;
    var fingerprints := before.sum.fingerprints;
    if DIFF_GIT <= line {
      path, inHunk := None, false;
    } else if HUNK <= line {
      inHunk := true;
    } else if !inHunk && NEW_FILE <= line {
      path := NormalizePath(line[4..]);
    } else if !inHunk && OLD_FILE <= line {
    } else if "+" <= line {
      added := added + 1;
      if path.Some? {
        var normalized := NormalizeLine(env, line[1..]);
        if normalized.Some? {
          var pathHash, lineHash := env.hash("path", path.value), env.hash("line", normalized.value);
          fingerprints := fingerprints + [Fingerprint(pathHash, lineHash)];
        }
      }
    } else if "-" <= line {
      deleted := deleted + 1;
    }
    after := Scanner(path, inHunk, Summary(added, deleted, fingerprints));
  }

  /** The scanner as the program runs it. */
  method Summarize(env: Env, diff: string) returns (r: Summary)
    ensures r == ScanLines(env, INITIAL, Lines(diff)).sum
  {
    var lines := Lines(diff);
    var scanner := INITIAL;
    for i := 0 to |lines|
      invariant scanner == ScanLines(env, INITIAL, lines[..i])
    {
      assert Front(lines[..i + 1]) == lines[..i];
      scanner := Advance(env, scanner, lines[i]);
    }
    assert lines[..|lines|] == lines;
    r := scanner.sum;
  }

  /** The counts alone. */
  function LineCounts(diff: string): (nat, nat) {
    var sum := ScanLines(Env((_, _) => "", _ => false), INITIAL, Lines(diff)).sum;
    (sum.added, sum.deleted)
  }

  lemma {:induction false} CountsIgnoreEnv(env: Env, env': Env, lines: seq<string>)
    ensures var a, b := ScanLines(env, INITIAL, lines), ScanLines(env', INITIAL, lines);
            a.path == b.path && a.inHunk == b.inHunk && a.sum.added == b.sum.added && a.sum.deleted == b.sum.deleted
    decreases |lines|
  {
    if |lines| > 0 { CountsIgnoreEnv(env, env', Front(lines)); }
  }

  // ------------------------------------------------ parsing is compositional

  /** The counts of a diff are those of its summary, whatever the environment. */
  lemma {:induction false} LineCountsAreTheSummary(env: Env, diff: string)
    ensures var sum := ScanLines(env, INITIAL, Lines(diff)).sum; LineCounts(diff) == (sum.added, sum.deleted)
  {
    CountsIgnoreEnv(env, Env((_, _) => "", _ => false), Lines(diff));
  }

  lemma {:induction false} ScanAppend(env: Env, sc: Scanner, a: seq<string>, b: seq<string>)
    ensures ScanLines(env, sc, a + b) == ScanLines(env, ScanLines(env, sc, a), b)
    decreases |b|
  {
    if |b| == 0 {
      assert a + b == a;
    } else {
      assert Front(a + b) == a + Front(b) && Last(a + b) == Last(b);
      ScanAppend(env, sc, a, Front(b));
    }
  }

  lemma {:induction false} PlusAssociative(a: Summary, b: Summary, c: Summary)
    ensures Plus(Plus(a, b), c) == Plus(a, Plus(b, c))
    ensures Plus(a, EMPTY) == a && Plus(EMPTY, a) == a
  {
  }
  lemma {:induction false} LineShift(env: Env, before: Summary, sc: Scanner, line: string)
    ensures var t := ScanLine(env, sc, line);
            ScanLine(env, sc.(sum := Plus(before, sc.sum)), line) == t.(sum := Plus(before, t.sum))
  {
    PlusAssociative(before, sc.sum, Summary(0, 1, []));
    if "+" <= line { PlusAssociative(before, sc.sum, Summary(1, 0, FingerprintsOf(env, sc.path, line[1..]))); }
  }

  /** What was counted before does not influence what is counted next. */
  lemma {:induction false} ScanShift(env: Env, sc: Scanner, lines: seq<string>)
    ensures var t := ScanLines(env, sc.(sum := EMPTY), lines);
            ScanLines(env, sc, lines) == t.(sum := Plus(sc.sum, t.sum))
    decreases |lines|
  {
    if |lines| > 0 {
      ScanShift(env, sc, Front(lines));
      LineShift(env, sc.sum, ScanLines(env, sc.(sum := EMPTY), Front(lines)), Last(lines));
    }
  }

  /** Scanning forgets everything at a `diff --git` line. */
  lemma {:induction false} ScanFromFileBoundary(env: Env, sc: Scanner, lines: seq<string>)
    requires |lines| > 0 && DIFF_GIT <= lines[0]
    ensures ScanLines(env, sc, lines).sum == Plus(sc.sum, ScanLines(env, INITIAL, lines).sum)
  {
    assert lines == [lines[0]] + lines[1..];
    ScanAppend(env, sc, [lines[0]], lines[1..]);
    ScanAppend(env, INITIAL, [lines[0]], lines[1..]);
    assert Front([lines[0]]) == [];
    assert ScanLines(env, sc, [lines[0]]) == Scanner(None, false, sc.sum);
    assert ScanLines(env, INITIAL, [lines[0]]) == INITIAL;
    ScanShift(env, Scanner(None, false, sc.sum), lines[1..]);
  }

  predicate EndsLine(s: string) {
    |s| == 0 || Last(s) == '\n'
  }

  lemma {:induction false} PiecesAppend(a: string, b: string)
    requires EndsLine(a)
    ensures Last(Pieces(a)) == "" && Pieces(a + b) == Front(Pieces(a)) + Pieces(b)
    decreases |b|
  {
    if |b| == 0 {
      assert a + b == a;
      assert Pieces(a) == Front(Pieces(a)) + [""];
    } else {
      PiecesAppend(a, Front(b));
      assert Front(a + b) == a + Front(b) && Last(a + b) == Last(b);
      var pa, pb, c := Front(Pieces(a)), Pieces(Front(b)), Last(b);
      GrowsAtTheEnd(pa, pb, c);
      if c == '\n' {
        assert Pieces(a + b) == (pa + pb) + [""];
      } else {
        assert Pieces(a + b) == Front(pa + pb) + [Last(pa + pb) + [c]];
      }
    }
  }

  lemma {:induction false} ChompAllAppend(a: seq<string>, b: seq<string>)
    ensures ChompAll(a + b) == ChompAll(a) + ChompAll(b)
    decreases |b|
  {
    if |b| == 0 {
      assert a + b == a;
    } else {
      assert Front(a + b) == a + Front(b) && Last(a + b) == Last(b);
      ChompAllAppend(a, Front(b));
    }
  }

  lemma {:induction false} LinesOfAppend(a: seq<string>, b: seq<string>)
    requires |b| > 0
    ensures LinesOf(a + b) == ChompAll(a) + LinesOf(b)
  {
    assert Last(a + b) == Last(b) && Front(a + b) == a + Front(b);
    ChompAllAppend(a, Front(b));
  }

  lemma {:induction false} LinesOfTerminated(pieces: seq<string>)
    requires |pieces| > 0 && Last(pieces) == ""
    ensures LinesOf(pieces) == ChompAll(Front(pieces))
  {
  }

  lemma {:induction false} LinesAppend(a: string, b: string)
    requires EndsLine(a)
    ensures Lines(a + b) == Lines(a) + Lines(b)
  {
    PiecesAppend(a, b);
    LinesOfAppend(Front(Pieces(a)), Pieces(b));
    LinesOfTerminated(Pieces(a));
  }

  /** Parsing distributes over concatenation where the second part starts with `diff --git`. */
  lemma {:induction false} SummaryOfConcatenation(env: Env, a: string, b: string)
    requires EndsLine(a) && "diff --git " <= b
    ensures ScanLines(env, INITIAL, Lines(a + b)).sum
            == Plus(ScanLines(env, INITIAL, Lines(a)).sum, ScanLines(env, INITIAL, Lines(b)).sum)
  {
    LinesAppend(a, b);
    ScanAppend(env, INITIAL, Lines(a), Lines(b));
    FirstLineKeepsPrefix(b);
    ScanFromFileBoundary(env, ScanLines(env, INITIAL, Lines(a)), Lines(b));
  }

  lemma {:induction false} FirstLineKeepsPrefix(b: string)
    requires DIFF_GIT <= b
    ensures |Lines(b)| > 0 && DIFF_GIT <= Lines(b)[0]
  {
    FirstPiece(DIFF_GIT, b[|DIFF_GIT|..]);
    assert b == DIFF_GIT + b[|DIFF_GIT|..];
    var ps := Pieces(b);
    if |ps| == 1 {
      assert Lines(b) == [] + [ps[0]];
    } else {
      assert Front(ps) == [ps[0]] + Front(ps)[1..];
      ChompAllAppend([ps[0]], Front(ps)[1..]);
      assert Front([ps[0]]) == [] && ChompAll([ps[0]]) == [Chomp(ps[0])];
      ChompKeepsPrefix(DIFF_GIT, ps[0]);
    }
  }

  lemma {:induction false} FirstPiece(p: string, s: string)
    requires '\n' !in p
    ensures p <= Pieces(p + s)[0]
    decreases |s|
  {
    if |s| == 0 {
      assert p + s == p;
      WholePiece(p);
    } else {
      FirstPiece(p, Front(s));
      assert Front(p + s) == p + Front(s);
    }
  }

  lemma {:induction false} WholePiece(p: string)
    requires '\n' !in p
    ensures Pieces(p) == [p]
  {
    if |p| > 0 {
      assert p == Front(p) + [Last(p)];
      WholePiece(Front(p));
    }
  }

  lemma {:induction false} ChompKeepsPrefix(p: string, line: string)
    requires '\r' !in p
    ensures p <= line <==> p <= Chomp(line)
  {
  }
}
