/**
  Git diffs as data, their rendering, and the proof that scanning the rendering gives back
  what the data says. Also: normalising a line forgets its spacing and nothing else.
 */
module DiffRoundTrip {
  import opened Prelude
  import opened Whitespace
  import opened AcceptedLines

  datatype HunkLine = Added(text: string) | Deleted(text: string) | Other(raw: string)

  datatype Hunk = Hunk(header: string, lines: seq<HunkLine>)

  datatype Side = OldSide | NewSide

  /** What a file becomes: nothing, a file named with git's prefix, or one named without. */
  datatype Target = Removed | InTree(side: Side, name: string) | Unprefixed(name: string)

  /** The two path lines; the target may be padded with whitespace. */
  datatype Paths = Paths(oldPath: string, before: string, target: Target, after: string)

  /**
    One file. `extended` are the lines between `diff --git` and the path lines (index, mode,
    rename, ...), `loose` those between the path lines and the first hunk.
   */
  datatype FileDiff = FileDiff(
    names: string, extended: seq<HunkLine>, paths: Option<Paths>, loose: seq<HunkLine>, hunks: seq<Hunk>)

  /** A line that is not a header, an addition or a deletion. */
  predicate Inert(line: string) {
    !("diff --git " <= line) && !("@@ " <= line) && !("+" <= line) && !("-" <= line)
  }

  /** In a hunk any text can be added or deleted; outside, not one that makes a path line. */
  predicate WellFormedLine(l: HunkLine, inHunk: bool) {
    match l
    case Added(text) => inHunk || !("++ " <= text)
    case Deleted(text) => inHunk || !("-- " <= text)
    case Other(raw) => Inert(raw)
  }

  predicate AllSpace(s: string) {
    forall i :: 0 <= i < |s| ==> IsSpace(s[i])
  }

  predicate NoOuterSpace(s: string) {
    |s| > 0 ==> !IsSpace(s[0]) && !IsSpace(Last(s))
  }

  function Shown(t: Target): string {
    match t
    case Removed => "/dev/null"
    case InTree(OldSide, name) => "a/" + name
    case InTree(NewSide, name) => "b/" + name
    case Unprefixed(name) => name
  }

  predicate WellFormedPaths(p: Paths) {
    && AllSpace(p.before) && AllSpace(p.after) && NoOuterSpace(Shown(p.target))
    && (p.target.Unprefixed? ==>
          p.target.name != "/dev/null" && !("a/" <= p.target.name) && !("b/" <= p.target.name))
  }

  predicate WellFormedFile(f: FileDiff) {
    && (forall l :: l in f.extended ==> WellFormedLine(l, false))
    && (forall l :: l in f.loose ==> WellFormedLine(l, false))
    && (f.paths.Some? ==> WellFormedPaths(f.paths.value))
    && (forall h :: h in f.hunks ==> forall l :: l in h.lines ==> WellFormedLine(l, true))
  }

  // --------------------------------------------------------------- rendering

  function RenderLine(l: HunkLine): string {
    match l
    case Added(text) => "+" + text
    case Deleted(text) => "-" + text
    case Other(raw) => raw
  }

  function RenderLines(ls: seq<HunkLine>): seq<string> {
    if |ls| == 0 then [] else RenderLines(Front(ls)) + [RenderLine(Last(ls))]
  }

  function RenderHunks(hs: seq<Hunk>): seq<string> {
    if |hs| == 0 then [] else RenderHunks(Front(hs)) + (["@@ " + Last(hs).header] + RenderLines(Last(hs).lines))
  }

  function RenderPaths(p: Option<Paths>): seq<string> {
    if p.None? then []
    else ["--- " + p.value.oldPath, "+++ " + (p.value.before + Shown(p.value.target) + p.value.after)]
  }

  function RenderFile(f: FileDiff): seq<string> {
    ["diff --git " + f.names] + RenderLines(f.extended) + RenderPaths(f.paths)
    + RenderLines(f.loose) + RenderHunks(f.hunks)
  }

  function RenderDiff(fs: seq<FileDiff>): seq<string> {
    if |fs| == 0 then [] else RenderDiff(Front(fs)) + RenderFile(Last(fs))
  }

  /** Each line followed by a line feed. */
  function Text(lines: seq<string>): string {
    if |lines| == 0 then "" else Text(Front(lines)) + (Last(lines) + "\n")
  }

  // ------------------------------------------------------------ what it says

  /** The file's own name; a removed file has none. */
  function PathOf(p: Option<Paths>): Option<string> {
    if p.None? || p.value.target.Removed? then None else Some(p.value.target.name)
  }

  /** The line, its words separated by single spaces. */
  function Effective(text: string): string {
    Join(Words(text))
  }

  /** A line worth a fingerprint: more than three bytes, and a letter, digit or underscore among them. */
  predicate IsEffective(env: Env, text: string) {
    var s := Effective(text);
    |Utf8(s)| > 3 && exists i :: 0 <= i < |s| && (env.alphanumeric(s[i]) || s[i] == '_')
  }

  function LineSays(env: Env, path: Option<string>, l: HunkLine): Summary {
    match l
    case Added(text) =>
      Summary(1, 0, if path.Some? && IsEffective(env, text)
                    then [Fingerprint(env.hash("path", path.value), env.hash("line", Effective(text)))] else [])
    case Deleted(_) => Summary(0, 1, [])
    case Other(_) => EMPTY
  }

  function LinesSay(env: Env, path: Option<string>, ls: seq<HunkLine>): Summary {
    if |ls| == 0 then EMPTY else Plus(LinesSay(env, path, Front(ls)), LineSays(env, path, Last(ls)))
  }

  function HunksSay(env: Env, path: Option<string>, hs: seq<Hunk>): Summary {
    if |hs| == 0 then EMPTY else Plus(HunksSay(env, path, Front(hs)), LinesSay(env, path, Last(hs).lines))
  }

  function FileSays(env: Env, f: FileDiff): Summary {
    var path := PathOf(f.paths);
    Plus(Plus(LinesSay(env, None, f.extended), LinesSay(env, path, f.loose)), HunksSay(env, path, f.hunks))
  }

  function DiffSays(env: Env, fs: seq<FileDiff>): Summary {
    if |fs| == 0 then EMPTY else Plus(DiffSays(env, Front(fs)), FileSays(env, Last(fs)))
  }

  // ---------------------------------------------------------------- bytes and paths

  /** UTF-8, as in section 3 of RFC 3629. */
  function Utf8Char(c: char): seq<int> {
    var n := c as int;
    if n < 0x80 then [n]
    else if n < 0x800 then [0xC0 + n / 0x40, 0x80 + n % 0x40]
    else if n < 0x10000 then [0xE0 + n / 0x1000, 0x80 + n / 0x40 % 0x40, 0x80 + n % 0x40]
    else [0xF0 + n / 0x40000, 0x80 + n / 0x1000 % 0x40, 0x80 + n / 0x40 % 0x40, 0x80 + n % 0x40]
  }

  function Utf8(s: string): seq<int> {
    if |s| == 0 then [] else Utf8(Front(s)) + Utf8Char(Last(s))
  }

  lemma {:induction false} Utf8LengthIsTheEncoding(s: string)
    ensures Utf8Length(s) == |Utf8(s)|
  {
    if |s| > 0 { Utf8LengthIsTheEncoding(Front(s)); }
  }

  lemma {:induction false} EffectiveLines(env: Env, path: Option<string>, text: string)
    ensures Summary(1, 0, FingerprintsOf(env, path, text)) == LineSays(env, path, Added(text))
  {
    Utf8LengthIsTheEncoding(Effective(text));
  }

  /** Padding is trimmed away, git's prefix is taken off, and the name is left as it is. */
  lemma {:induction false} PathComesBack(p: Paths)
    requires WellFormedPaths(p)
    ensures NormalizePath(p.before + Shown(p.target) + p.after) == PathOf(Some(p))
  {
    var shown := Shown(p.target);
    TrimBoth(p.before, shown, p.after);
    if p.target.InTree? {
      assert shown[0] != '/' && shown[2..] == p.target.name;
    }
  }

  /** Whatever follows `+++ ` is some target with some padding. */
  lemma {:induction false} EveryPathIsShown(text: string) returns (p: Paths)
    ensures WellFormedPaths(p) && text == p.before + Shown(p.target) + p.after
  {
    var before, shown, after := Unpad(text);
    var target :=
      if shown == "/dev/null" then Removed
      else if "a/" <= shown then InTree(OldSide, shown[2..])
      else if "b/" <= shown then InTree(NewSide, shown[2..])
      else Unprefixed(shown);
    assert Shown(target) == shown;
    p := Paths("", before, target, after);
  }

  lemma {:induction false} Unpad(text: string) returns (before: string, core: string, after: string)
    ensures text == before + core + after && AllSpace(before) && AllSpace(after) && NoOuterSpace(core)
    decreases |text|
  {
    if |text| == 0 {
      before, core, after := "", "", "";
    } else if IsSpace(text[0]) {
      before, core, after := Unpad(text[1..]);
      assert text == [text[0]] + text[1..];
      assert [text[0]] + (before + core + after) == ([text[0]] + before) + core + after;
      before := [text[0]] + before;
    } else if IsSpace(Last(text)) {
      before, core, after := Unpad(Front(text));
      assert text == Front(text) + [Last(text)];
      assert (before + core + after) + [Last(text)] == before + core + (after + [Last(text)]);
      after := after + [Last(text)];
    } else {
      before, core, after := "", text, "";
    }
  }

  lemma {:induction false} TrimEndAll(s: string, after: string)
    requires AllSpace(after)
    ensures TrimEnd(s + after) == TrimEnd(s)
    decreases |after|
  {
    if |after| == 0 {
      assert s + after == s;
    } else {
      assert s + after == (s + Front(after)) + [Last(after)];
      TrimEndSpace(s + Front(after), Last(after));
      TrimEndAll(s, Front(after));
    }
  }

  lemma {:induction false} TrimStartAll(before: string, s: string)
    requires AllSpace(before)
    ensures TrimStart(before + s) == TrimStart(s)
    decreases |before|
  {
    if |before| == 0 {
      assert before + s == s;
    } else {
      assert (before + s)[0] == before[0] && (before + s)[1..] == before[1..] + s;
      TrimStartAll(before[1..], s);
    }
  }

  lemma {:induction false} TrimBoth(before: string, core: string, after: string)
    requires AllSpace(before) && AllSpace(after) && NoOuterSpace(core)
    ensures TrimStart(TrimEnd(before + core + after)) == core
  {
    TrimEndAll(before + core, after);
    if |core| == 0 {
      assert before + core == "" + before;
      TrimEndAll("", before);
    } else {
      assert Last(before + core) == Last(core);
      TrimStartAll(before, core);
    }
  }

  // ------------------------------------------------------ scanning the lines

  lemma {:induction false} ScanTaggedLine(env: Env, sc: Scanner, l: HunkLine)
    requires WellFormedLine(l, sc.inHunk)
    ensures ScanLine(env, sc, RenderLine(l)) == sc.(sum := Plus(sc.sum, LineSays(env, sc.path, l)))
  {
    var line := RenderLine(l);
    PlusAssociative(sc.sum, EMPTY, EMPTY);
    if !l.Other? {
      assert line[0] == '+' || line[0] == '-';
      assert line[1..] == l.text;
      assert NEW_FILE <= line ==> "++ " <= l.text by { assert NEW_FILE[1..] == "++ "; }
      assert OLD_FILE <= line ==> "-- " <= l.text by { assert OLD_FILE[1..] == "-- "; }
      EffectiveLines(env, sc.path, l.text);
    }
  }

  lemma {:induction false} ScanTaggedLines(env: Env, sc: Scanner, ls: seq<HunkLine>)
    requires forall l :: l in ls ==> WellFormedLine(l, sc.inHunk)
    ensures ScanLines(env, sc, RenderLines(ls)) == sc.(sum := Plus(sc.sum, LinesSay(env, sc.path, ls)))
    decreases |ls|
  {
    if |ls| == 0 {
      PlusAssociative(sc.sum, EMPTY, EMPTY);
    } else {
      ScanTaggedLines(env, sc, Front(ls));
      var before := ScanLines(env, sc, RenderLines(Front(ls)));
      assert Front(RenderLines(ls)) == RenderLines(Front(ls)) && Last(ls) in ls;
      ScanTaggedLine(env, before, Last(ls));
      PlusAssociative(sc.sum, LinesSay(env, sc.path, Front(ls)), LineSays(env, sc.path, Last(ls)));
    }
  }

  lemma {:induction false} ScanOne(env: Env, sc: Scanner, line: string)
    ensures ScanLines(env, sc, [line]) == ScanLine(env, sc, line)
  {
  }

  lemma {:induction false} ScanHunks(env: Env, sc: Scanner, hs: seq<Hunk>)
    requires forall h :: h in hs ==> forall l :: l in h.lines ==> WellFormedLine(l, true)
    ensures ScanLines(env, sc, RenderHunks(hs))
            == sc.(inHunk := sc.inHunk || |hs| > 0, sum := Plus(sc.sum, HunksSay(env, sc.path, hs)))
    decreases |hs|
  {
    if |hs| == 0 {
      PlusAssociative(sc.sum, EMPTY, EMPTY);
    } else {
      var h := Last(hs);
      ScanHunks(env, sc, Front(hs));
      var s1 := ScanLines(env, sc, RenderHunks(Front(hs)));
      ScanAppend(env, sc, RenderHunks(Front(hs)), [HUNK + h.header] + RenderLines(h.lines));
      ScanAppend(env, s1, [HUNK + h.header], RenderLines(h.lines));
      ScanOne(env, s1, HUNK + h.header);
      assert !(DIFF_GIT <= HUNK + h.header) by { assert (HUNK + h.header)[0] == '@'; }
      ScanTaggedLines(env, s1.(inHunk := true), h.lines);
      PlusAssociative(sc.sum, HunksSay(env, sc.path, Front(hs)), LinesSay(env, sc.path, h.lines));
    }
  }

  lemma {:induction false} ScanPaths(env: Env, sc: Scanner, p: Option<Paths>)
    requires !sc.inHunk && sc.path.None? && (p.Some? ==> WellFormedPaths(p.value))
    ensures ScanLines(env, sc, RenderPaths(p)) == sc.(path := PathOf(p))
  {
    if p.Some? {
      var path := p.value.before + Shown(p.value.target) + p.value.after;
      var o, n := OLD_FILE + p.value.oldPath, NEW_FILE + path;
      assert [o, n] == [o] + [n];
      ScanAppend(env, sc, [o], [n]);
      ScanOne(env, sc, o);
      ScanOne(env, sc, n);
      assert o[0] == '-' && n[0] == '+' && n[4..] == path;
      PathComesBack(p.value);
    }
  }

  lemma {:induction false} ScanFile(env: Env, sc: Scanner, f: FileDiff)
    requires WellFormedFile(f)
    ensures ScanLines(env, sc, RenderFile(f)).sum == Plus(sc.sum, FileSays(env, f))
  {
    var head, s1 := [DIFF_GIT + f.names], Scanner(None, false, sc.sum);
    var ext, paths := RenderLines(f.extended), RenderPaths(f.paths);
    var loose, hunks := RenderLines(f.loose), RenderHunks(f.hunks);
    ScanAppend(env, sc, head + ext + paths + loose, hunks);
    ScanAppend(env, sc, head + ext + paths, loose);
    ScanAppend(env, sc, head + ext, paths);
    ScanAppend(env, sc, head, ext);
    ScanOne(env, sc, DIFF_GIT + f.names);
    ScanBody(env, s1, f);
  }

  /** What comes after the `diff --git` line. */
  lemma {:induction false} ScanBody(env: Env, s1: Scanner, f: FileDiff)
    requires WellFormedFile(f) && s1.path.None? && !s1.inHunk
    ensures var s2 := ScanLines(env, s1, RenderLines(f.extended));
            var s3 := ScanLines(env, s2, RenderPaths(f.paths));
            var s4 := ScanLines(env, s3, RenderLines(f.loose));
            ScanLines(env, s4, RenderHunks(f.hunks)).sum == Plus(s1.sum, FileSays(env, f))
  {
    var path := PathOf(f.paths);
    var a, b, c := LinesSay(env, None, f.extended), LinesSay(env, path, f.loose), HunksSay(env, path, f.hunks);
    ScanTaggedLines(env, s1, f.extended);
    var s2 := s1.(sum := Plus(s1.sum, a));
    ScanPaths(env, s2, f.paths);
    var s3 := s2.(path := path);
    ScanTaggedLines(env, s3, f.loose);
    ScanHunks(env, s3.(sum := Plus(s3.sum, b)), f.hunks);
    PlusAssociative(Plus(s1.sum, a), b, c);
    PlusAssociative(s1.sum, a, Plus(b, c));
    PlusAssociative(a, b, c);
  }

  lemma {:induction false} ScanDiff(env: Env, fs: seq<FileDiff>)
    requires forall f :: f in fs ==> WellFormedFile(f)
    ensures ScanLines(env, INITIAL, RenderDiff(fs)).sum == DiffSays(env, fs)
    decreases |fs|
  {
    if |fs| > 0 {
      ScanDiff(env, Front(fs));
      ScanAppend(env, INITIAL, RenderDiff(Front(fs)), RenderFile(Last(fs)));
      ScanFile(env, ScanLines(env, INITIAL, RenderDiff(Front(fs))), Last(fs));
    }
  }

  // -------------------------------------------- carriage returns do not matter

  lemma {:induction false} PathChomp(line: string)
    requires NEW_FILE <= line
    ensures NEW_FILE <= Chomp(line) && NormalizePath(Chomp(line)[4..]) == NormalizePath(line[4..])
  {
    ChompKeepsPrefix(NEW_FILE, line);
    if Last(line) == '\r' {
      assert line[4..] == Front(line)[4..] + ['\r'];
      TrimEndSpace(Front(line)[4..], '\r');
    }
  }

  lemma {:induction false} TextChomp(env: Env, path: Option<string>, line: string)
    requires "+" <= line
    ensures "+" <= Chomp(line) && FingerprintsOf(env, path, Chomp(line)[1..]) == FingerprintsOf(env, path, line[1..])
  {
    ChompKeepsPrefix("+", line);
    if Last(line) == '\r' {
      assert line[1..] == Front(line)[1..] + ['\r'];
      WordsSpace(Front(line)[1..], '\r');
    }
  }

  lemma {:induction false} ScanLineChomp(env: Env, sc: Scanner, line: string)
    ensures ScanLine(env, sc, Chomp(line)) == ScanLine(env, sc, line)
  {
    ChompKeepsPrefix(DIFF_GIT, line);
    ChompKeepsPrefix(HUNK, line);
    ChompKeepsPrefix(NEW_FILE, line);
    ChompKeepsPrefix(OLD_FILE, line);
    ChompKeepsPrefix("+", line);
    ChompKeepsPrefix("-", line);
    if NEW_FILE <= line { PathChomp(line); }
    if "+" <= line { TextChomp(env, sc.path, line); }
  }

  lemma {:induction false} ScanChompAll(env: Env, sc: Scanner, lines: seq<string>)
    ensures ScanLines(env, sc, ChompAll(lines)) == ScanLines(env, sc, lines)
    decreases |lines|
  {
    if |lines| > 0 {
      ScanChompAll(env, sc, Front(lines));
      assert Front(ChompAll(lines)) == ChompAll(Front(lines));
      ScanLineChomp(env, ScanLines(env, sc, Front(lines)), Last(lines));
    }
  }

  lemma {:induction false} LinesOfText(lines: seq<string>)
    requires forall l :: l in lines ==> '\n' !in l
    ensures Lines(Text(lines)) == ChompAll(lines)
    decreases |lines|
  {
    if |lines| > 0 {
      LinesOfText(Front(lines));
      TextEndsLine(Front(lines));
      LinesAppend(Text(Front(lines)), Last(lines) + "\n");
      LinesOfOneLine(Last(lines));
    }
  }

  lemma {:induction false} TextEndsLine(lines: seq<string>)
    ensures EndsLine(Text(lines))
  {
  }

  lemma {:induction false} LinesOfOneLine(line: string)
    requires '\n' !in line
    ensures Lines(line + "\n") == [Chomp(line)]
  {
    assert Front(line + "\n") == line && Last(line + "\n") == '\n';
    WholePiece(line);
    assert Pieces(line + "\n") == [line] + [""];
    assert Front([line] + [""]) == [line] && Front([line]) == [];
    assert ChompAll([line]) == ChompAll([]) + [Chomp(line)];
  }

  /** A carriage return before the line feed is not part of the line. */
  lemma {:induction false} CarriageReturns(line: string)
    requires '\n' !in line
    ensures Lines(line + "\r\n") == [line]
    ensures |line| > 0 && Last(line) != '\r' ==> Lines(line + "\n") == [line] && Lines(line) == [line]
  {
    assert line + "\r\n" == (line + "\r") + "\n" && Front(line + "\r") == line;
    LinesOfOneLine(line + "\r");
    LinesOfOneLine(line);
    LinesOfUnterminated(line);
  }

  /** The same lines without the last line feed. */
  function OpenText(lines: seq<string>): string {
    if |lines| == 0 then "" else Text(Front(lines)) + Last(lines)
  }

  lemma {:induction false} LinesOfUnterminated(line: string)
    requires '\n' !in line
    ensures Lines(line) == if line == "" then [] else [line]
  {
    WholePiece(line);
    assert Front([line]) == [];
  }

  lemma {:induction false} ScanOpenText(env: Env, lines: seq<string>)
    requires forall l :: l in lines ==> '\n' !in l
    ensures ScanLines(env, INITIAL, Lines(OpenText(lines))) == ScanLines(env, INITIAL, lines)
  {
    if |lines| == 0 {
      LinesOfText([]);
    } else {
      var before, line := Front(lines), Last(lines);
      LinesOfText(before);
      TextEndsLine(before);
      LinesAppend(Text(before), line);
      LinesOfUnterminated(line);
      ScanAppend(env, INITIAL, ChompAll(before), Lines(line));
      ScanChompAll(env, INITIAL, before);
      ScanOne(env, ScanLines(env, INITIAL, before), line);
    }
  }

  /**
    Round trip. For every structured diff whose lines hold no line feed, scanning its text
    counts exactly its additions and deletions and fingerprints exactly its effective added
    lines, in order, under their file's own name - whatever the lines look like, whether or
    not they end in carriage returns, and whether or not the last one is terminated.
   */
  lemma {:induction false} RoundTrip(env: Env, fs: seq<FileDiff>)
    requires forall f :: f in fs ==> WellFormedFile(f)
    requires forall l :: l in RenderDiff(fs) ==> '\n' !in l
    ensures ScanLines(env, INITIAL, Lines(Text(RenderDiff(fs)))).sum == DiffSays(env, fs)
    ensures ScanLines(env, INITIAL, Lines(OpenText(RenderDiff(fs)))).sum == DiffSays(env, fs)
  {
    ScanOpenText(env, RenderDiff(fs));
    LinesOfText(RenderDiff(fs));
    ScanChompAll(env, INITIAL, RenderDiff(fs));
    ScanDiff(env, fs);
  }

  // --------------------------------------------------- normalised lines are fixed

  /** A normalised line is its own normal form, and lines with the same words are fingerprinted alike. */
  lemma {:induction false} NormalizeLineIsCanonical(env: Env, x: string, y: string)
    ensures NormalizeLine(env, x).Some? ==> NormalizeLine(env, NormalizeLine(env, x).value) == NormalizeLine(env, x)
    ensures NormalizeLine(env, x).Some? && NormalizeLine(env, y).Some? ==>
              (NormalizeLine(env, x) == NormalizeLine(env, y) <==> Words(x) == Words(y))
  {
    WordsAreWords(x);
    WordsOfJoin(Words(x));
    WordsAreWords(y);
    WordsOfJoin(Words(y));
  }
}
