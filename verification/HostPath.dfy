/** Paths in the form of the app-server's host, which may not be the client's. */
module HostPath {
  import opened Prelude

  predicate AsciiAlphabetic(c: char) {
    'a' <= c <= 'z' || 'A' <= c <= 'Z'
  }

  predicate DrivePrefix(p: string) {
    |p| >= 2 && AsciiAlphabetic(p[0]) && p[1] == ':'
  }

  /** `is_windows_absolute_path`. */
  predicate IsWindows(p: string) {
    || (|p| >= 3 && DrivePrefix(p) && (p[2] == '\\' || p[2] == '/'))
    || "\\\\" <= p
    || "//" <= p
  }

  predicate IsSeparator(c: char, windows: bool) {
    c == '/' || (windows && c == '\\')
  }

  /** The pieces between separators; always at least one. */
  function Split(p: string, windows: bool): (ps: seq<string>)
    ensures |ps| > 0
  {
    if |p| == 0 then [""]
    else
      var ps := Split(Front(p), windows);
      if IsSeparator(Last(p), windows) then ps + [""] else Front(ps) + [Last(ps) + [Last(p)]]
  }

  function NonEmpty(ps: seq<string>): seq<string> {
    if |ps| == 0 then []
    else if |Last(ps)| == 0 then NonEmpty(Front(ps))
    else NonEmpty(Front(ps)) + [Last(ps)]
  }

  function Components(p: string): seq<string> {
    NonEmpty(Split(p, IsWindows(p)))
  }

  function TrimEnd(p: string, windows: bool): string {
    if |p| > 0 && IsSeparator(Last(p), windows) then TrimEnd(Front(p), windows) else p
  }

  function Join(p: string, segment: string): string {
    if IsWindows(p) then TrimEnd(p, true) + "\\" + segment else TrimEnd(p, false) + "/" + segment
  }

  /** One file name: not empty, no separator of either kind. */
  predicate IsSegment(s: string) {
    |s| > 0 && '/' !in s && '\\' !in s
  }

  predicate OnlySeparators(p: string) {
    forall i :: 0 <= i < |p| ==> IsSeparator(p[i], true)
  }

  // ------------------------------------------------------------------ splitting

  lemma {:induction false} NonEmptyAppend(a: seq<string>, b: seq<string>)
    ensures NonEmpty(a + b) == NonEmpty(a) + NonEmpty(b)
    decreases |b|
  {
    if |b| == 0 {
      assert a + b == a;
    } else {
      assert Front(a + b) == a + Front(b) && Last(a + b) == Last(b);
      NonEmptyAppend(a, Front(b));
    }
  }

  lemma {:induction false} SplitAtSeparator(a: string, c: char, b: string, windows: bool)
    requires IsSeparator(c, windows)
    ensures Split(a + [c] + b, windows) == Split(a, windows) + Split(b, windows)
    decreases |b|
  {
    var pa := Split(a, windows);
    if |b| == 0 {
      assert a + [c] + b == a + [c] && Front(a + [c]) == a;
    } else {
      var s := a + [c] + b;
      assert Front(s) == a + [c] + Front(b) && Last(s) == Last(b);
      SplitAtSeparator(a, c, Front(b), windows);
      GrowsAtTheEnd(pa, Split(Front(b), windows), Last(b));
    }
  }

  lemma {:induction false} SplitWhole(s: string, windows: bool)
    requires forall i :: 0 <= i < |s| ==> !IsSeparator(s[i], windows)
    ensures Split(s, windows) == [s]
  {
    if |s| > 0 {
      SplitWhole(Front(s), windows);
      assert s == Front(s) + [Last(s)];
    }
  }

  lemma {:induction false} TrimKeepsParts(p: string, windows: bool)
    ensures NonEmpty(Split(TrimEnd(p, windows), windows)) == NonEmpty(Split(p, windows))
  {
    if |p| > 0 && IsSeparator(Last(p), windows) {
      TrimKeepsParts(Front(p), windows);
      assert Front(Split(Front(p), windows) + [""]) == Split(Front(p), windows);
    }
  }

  lemma {:induction false} NonEmptyOne(s: string)
    requires |s| > 0
    ensures NonEmpty([s]) == [s]
  {
    assert Front([s]) == [];
  }

  lemma {:induction false} PartsOfJoin(p: string, c: char, segment: string, windows: bool)
    requires IsSegment(segment) && IsSeparator(c, windows)
    ensures NonEmpty(Split(TrimEnd(p, windows) + [c] + segment, windows)) == NonEmpty(Split(p, windows)) + [segment]
  {
    var t := TrimEnd(p, windows);
    SplitAtSeparator(t, c, segment, windows);
    SplitWhole(segment, windows);
    NonEmptyAppend(Split(t, windows), [segment]);
    TrimKeepsParts(p, windows);
    NonEmptyOne(segment);
  }

  // ------------------------------------------------------------------- trimming

  lemma {:induction false} TrimIsPrefix(p: string, windows: bool)
    ensures var t := TrimEnd(p, windows);
            && t <= p && (|t| > 0 ==> !IsSeparator(Last(t), windows))
            && (forall i :: |t| <= i < |p| ==> IsSeparator(p[i], windows))
  {
    if |p| > 0 && IsSeparator(Last(p), windows) { TrimIsPrefix(Front(p), windows); }
  }

  /** Joining to a Windows path gives a Windows path, unless nothing but separators was there. */
  lemma {:induction false} WindowsStays(p: string, segment: string)
    requires IsWindows(p) && !OnlySeparators(p)
    ensures IsWindows(Join(p, segment))
  {
    var t := TrimEnd(p, true);
    TrimIsPrefix(p, true);
    assert |t| >= 2;
    var j := Join(p, segment);
    assert j[0] == p[0] && j[1] == p[1] && |j| >= 3;
    assert j[2] == if |t| == 2 then '\\' else p[2];
  }

  predicate BareDrive(p: string) {
    |p| == 2 && DrivePrefix(p)
  }

  /** Joining to any other path gives a Windows path only by completing a bare drive. */
  lemma {:induction false} OtherStays(p: string, segment: string)
    requires !IsWindows(p) && IsSegment(segment) && !BareDrive(p)
    ensures !IsWindows(Join(p, segment))
  {
    var t := TrimEnd(p, false);
    TrimIsPrefix(p, false);
    var j := Join(p, segment);
    if |t| == 0 {
      assert j[0] == '/' && j[1] == segment[0] && segment[0] in segment;
    } else if |t| == 1 {
      assert j[0] == p[0] && j[1] == '/';
    } else {
      assert j[0] == p[0] && j[1] == p[1];
      assert j[2] == if |t| == 2 then '/' else p[2];
    }
  }

  /**
    Join and components agree: the components of a join are those of the path followed by
    the segment, even where the join changes which separators count - exactly unless the
    path is a Windows path made only of separators.
   */
  lemma {:induction false} JoinAddsOneComponent(p: string, segment: string)
    requires IsSegment(segment)
    ensures Components(Join(p, segment)) == Components(p) + [segment]
            <==> !(IsWindows(p) && OnlySeparators(p))
  {
    if IsWindows(p) && OnlySeparators(p) {
      RootJoinKeepsBackslash(p, segment);
      assert |"\\" + segment| != |segment|;
      assert ([] + [segment])[0] == segment;
    } else if IsWindows(p) {
      WindowsStays(p, segment);
      PartsOfJoin(p, '\\', segment, true);
    } else if BareDrive(p) {
      PartsOfJoin(p, '/', segment, true);
      SplitWhole(p, true);
      SplitWhole(p, false);
    } else {
      OtherStays(p, segment);
      PartsOfJoin(p, '/', segment, false);
    }
  }

  lemma {:induction false} RootJoinKeepsBackslash(p: string, segment: string)
    requires IsWindows(p) && OnlySeparators(p) && IsSegment(segment)
    ensures Components(Join(p, segment)) == ["\\" + segment] && Components(p) == []
  {
    TrimIsPrefix(p, true);
    var t := TrimEnd(p, true);
    assert t == "";
    var j := "\\" + segment;
    assert Join(p, segment) == j;
    assert segment[0] in segment && j[1] == segment[0];
    assert !IsWindows(j);
    SplitWhole(j, false);
    NonEmptyOne(j);
    TrimKeepsParts(p, true);
    assert Front([""]) == [];
  }

  // --------------------------------------------------------------- what they are

  /** A drive letter, a colon and a separator; or two separators of the same kind. */
  lemma {:induction false} IsWindowsExactly(p: string)
    ensures IsWindows(p)
            <==> || (|p| >= 3 && p[0] as int in DRIVE_LETTERS && p[1] == ':' && p[2] in {'\\', '/'})
                 || (|p| >= 2 && p[0] == p[1] && p[0] in {'\\', '/'})
  {
    assert "\\\\" <= p <==> |p| >= 2 && p[0] == '\\' && p[1] == '\\';
    assert "//" <= p <==> |p| >= 2 && p[0] == '/' && p[1] == '/';
  }

  /** The ASCII codes of `A` to `Z` and `a` to `z`. */
  const DRIVE_LETTERS: set<int> := (set n: int | 65 <= n <= 90) + (set n: int | 97 <= n <= 122)

  /**
    A join is the path up to its last character that is not a separator, one separator - a
    backslash exactly for a Windows path - and the segment.
   */
  lemma {:induction false} JoinExactly(p: string, segment: string)
    ensures exists k :: 0 <= k <= |p|
                        && (forall i :: k <= i < |p| ==> p[i] == '/' || (IsWindows(p) && p[i] == '\\'))
                        && (k > 0 ==> p[k - 1] != '/' && !(IsWindows(p) && p[k - 1] == '\\'))
                        && Join(p, segment) == p[..k] + (if IsWindows(p) then "\\" else "/") + segment
  {
    TrimIsPrefix(p, IsWindows(p));
    var t := TrimEnd(p, IsWindows(p));
    assert p[..|t|] == t;
  }

  function Concat(ps: seq<string>): string {
    if |ps| == 0 then "" else Concat(Front(ps)) + Last(ps)
  }

  function WithoutSeparators(p: string, windows: bool): string {
    if |p| == 0 then ""
    else if Last(p) == '/' || (windows && Last(p) == '\\') then WithoutSeparators(Front(p), windows)
    else WithoutSeparators(Front(p), windows) + [Last(p)]
  }

  lemma {:induction false} SplitKeeps(p: string, windows: bool)
    ensures Concat(Split(p, windows)) == WithoutSeparators(p, windows)
    ensures forall c :: c in Split(p, windows) ==> '/' !in c && !(windows && '\\' in c)
  {
    if |p| == 0 {
      assert Front([""]) == [];
    } else {
      SplitKeeps(Front(p), windows);
      var ps := Split(Front(p), windows);
      assert ps == Front(ps) + [Last(ps)] && Last(ps) in ps;
      assert Front(ps + [""]) == ps;
      assert Front(Front(ps) + [Last(ps) + [Last(p)]]) == Front(ps);
    }
  }

  lemma {:induction false} NonEmptyKeeps(ps: seq<string>)
    ensures Concat(NonEmpty(ps)) == Concat(ps)
    ensures forall c :: c in NonEmpty(ps) ==> c in ps && |c| > 0
  {
    if |ps| > 0 {
      NonEmptyKeeps(Front(ps));
      assert ps == Front(ps) + [Last(ps)];
      if |Last(ps)| > 0 { assert Front(NonEmpty(Front(ps)) + [Last(ps)]) == NonEmpty(Front(ps)); }
    }
  }

  /** Components are not empty, hold no separator, and together are the path without its separators. */
  lemma {:induction false} ComponentsExactly(p: string)
    ensures Concat(Components(p)) == WithoutSeparators(p, IsWindows(p))
    ensures forall c :: c in Components(p) ==> |c| > 0 && '/' !in c && !(IsWindows(p) && '\\' in c)
  {
    SplitKeeps(p, IsWindows(p));
    NonEmptyKeeps(Split(p, IsWindows(p)));
  }
}
