/** Whitespace: words, their joining and trimming. */
module Whitespace {
  import opened Prelude

  /** Unicode White_Space. */
  predicate IsSpace(c: char) {
    var n := c as int;
    || 0x9 <= n <= 0xD || n == 0x20 || n == 0x85 || n == 0xA0 || n == 0x1680
    || 0x2000 <= n <= 0x200A || n == 0x2028 || n == 0x2029 || n == 0x202F || n == 0x205F || n == 0x3000
  }

  lemma {:induction false} IsSpaceExactly(c: char)
    ensures IsSpace(c) <==> c as int in {0x9, 0xA, 0xB, 0xC, 0xD, 0x20, 0x85, 0xA0, 0x1680,
                                         0x2000, 0x2001, 0x2002, 0x2003, 0x2004, 0x2005, 0x2006, 0x2007, 0x2008,
                                         0x2009, 0x200A, 0x2028, 0x2029, 0x202F, 0x205F, 0x3000}
  {
  }

  function WordLength(s: string): (n: nat)
    ensures n <= |s|
    ensures |s| > 0 && !IsSpace(s[0]) ==> n > 0
    ensures forall i :: 0 <= i < n ==> !IsSpace(s[i])
    ensures n < |s| ==> IsSpace(s[n])
  {
    if |s| == 0 || IsSpace(s[0]) then 0 else 1 + WordLength(s[1..])
  }

  /** `split_whitespace`. */
  function Words(s: string): seq<string>
    decreases |s|
  {
    if |s| == 0 then []
    else if IsSpace(s[0]) then Words(s[1..])
    else [s[..WordLength(s)]] + Words(s[WordLength(s)..])
  }

  function Join(ws: seq<string>): string {
    if |ws| == 0 then "" else if |ws| == 1 then ws[0] else ws[0] + " " + Join(ws[1..])
  }

  function TrimEnd(s: string): string {
    if |s| > 0 && IsSpace(Last(s)) then TrimEnd(Front(s)) else s
  }

  function TrimStart(s: string): string {
    if |s| > 0 && IsSpace(s[0]) then TrimStart(s[1..]) else s
  }

  predicate IsWord(w: string) {
    |w| > 0 && forall i :: 0 <= i < |w| ==> !IsSpace(w[i])
  }

  lemma {:induction false} WordLengthSpace(s: string, c: char)
    requires IsSpace(c)
    ensures WordLength(s + [c]) == WordLength(s)
  {
    if |s| > 0 && !IsSpace(s[0]) {
      assert (s + [c])[1..] == s[1..] + [c];
      WordLengthSpace(s[1..], c);
    }
  }

  lemma {:induction false} WordsSpace(s: string, c: char)
    requires IsSpace(c)
    ensures Words(s + [c]) == Words(s)
    decreases |s|
  {
    if |s| == 0 {
      assert s + [c] == [c] && [c][1..] == "";
    } else if IsSpace(s[0]) {
      assert (s + [c])[1..] == s[1..] + [c];
      WordsSpace(s[1..], c);
    } else {
      var n := WordLength(s);
      WordLengthSpace(s, c);
      assert (s + [c])[..n] == s[..n] && (s + [c])[n..] == s[n..] + [c];
      WordsSpace(s[n..], c);
    }
  }

  lemma {:induction false} TrimEndSpace(s: string, c: char)
    requires IsSpace(c)
    ensures TrimEnd(s + [c]) == TrimEnd(s)
  {
  }

  lemma {:induction false} WordsAreWords(s: string)
    ensures forall w :: w in Words(s) ==> IsWord(w)
    decreases |s|
  {
    if |s| > 0 {
      if IsSpace(s[0]) { WordsAreWords(s[1..]); } else { WordsAreWords(s[WordLength(s)..]); }
    }
  }

  lemma {:induction false} WordLengthOfWord(w: string, rest: string)
    requires (forall i :: 0 <= i < |w| ==> !IsSpace(w[i])) && (|rest| > 0 ==> IsSpace(rest[0]))
    ensures WordLength(w + rest) == |w|
  {
    if |w| == 0 {
      assert w + rest == rest;
    } else {
      assert (w + rest)[1..] == w[1..] + rest;
      WordLengthOfWord(w[1..], rest);
    }
  }

  lemma {:induction false} WordsOfWordThen(w: string, rest: string)
    requires IsWord(w) && (|rest| > 0 ==> IsSpace(rest[0]))
    ensures Words(w + rest) == [w] + Words(rest)
  {
    WordLengthOfWord(w, rest);
    assert (w + rest)[0] == w[0] && (w + rest)[..|w|] == w && (w + rest)[|w|..] == rest;
  }

  lemma {:induction false} WordsOfJoin(ws: seq<string>)
    requires forall w :: w in ws ==> IsWord(w)
    ensures Words(Join(ws)) == ws
    decreases |ws|
  {
    if |ws| == 1 {
      WordsOfWordThen(ws[0], "");
      assert ws[0] + "" == ws[0] && [ws[0]] == ws;
    } else if |ws| > 1 {
      WordsOfJoin(ws[1..]);
      var rest := " " + Join(ws[1..]);
      WordsOfWordThen(ws[0], rest);
      assert ws[0] + " " + Join(ws[1..]) == ws[0] + rest;
      assert rest[1..] == Join(ws[1..]);
      assert [ws[0]] + ws[1..] == ws;
    }
  }

  /** One more word is joined with one space. */
  lemma {:induction false} JoinOneMore(ws: seq<string>, w: string)
    ensures Join(ws + [w]) == if |ws| == 0 then w else Join(ws) + " " + w
  {
    if |ws| == 1 {
      assert (ws + [w])[1..] == [w];
    } else if |ws| > 1 {
      assert (ws + [w])[1..] == ws[1..] + [w];
      JoinOneMore(ws[1..], w);
      assert ws[0] + " " + (Join(ws[1..]) + " " + w) == (ws[0] + " " + Join(ws[1..])) + " " + w;
    }
  }

  /** A text that starts with whitespace has the words of the rest. */
  lemma {:induction false} WordsAfterSpaces(spaces: string, s: string)
    requires forall i :: 0 <= i < |spaces| ==> IsSpace(spaces[i])
    ensures Words(spaces + s) == Words(s)
    decreases |spaces|
  {
    if |spaces| == 0 {
      assert spaces + s == s;
    } else {
      assert (spaces + s)[0] == spaces[0] && (spaces + s)[1..] == spaces[1..] + s;
      WordsAfterSpaces(spaces[1..], s);
    }
  }

  /** A text whose first word is this one: spaces, the word, and nothing or a space after it. */
  ghost predicate StartsWithWord(s: string, spaces: string, word: string, rest: string) {
    && s == spaces + word + rest && IsWord(word)
    && (forall i :: 0 <= i < |spaces| ==> IsSpace(spaces[i]))
    && (|rest| > 0 ==> IsSpace(rest[0]))
  }

  lemma {:induction false} OneMoreSpace(c: char, s: string, spaces: string, word: string, rest: string)
    requires IsSpace(c) && StartsWithWord(s, spaces, word, rest)
    ensures StartsWithWord([c] + s, [c] + spaces, word, rest)
  {
    assert [c] + (spaces + word + rest) == ([c] + spaces) + word + rest;
  }

  lemma {:induction false} WordAtTheStart(s: string)
    requires |s| > 0 && !IsSpace(s[0])
    ensures StartsWithWord(s, "", s[..WordLength(s)], s[WordLength(s)..])
  {
    assert s == "" + s[..WordLength(s)] + s[WordLength(s)..];
  }

  lemma {:induction false} FirstWord(s: string) returns (spaces: string, rest: string)
    requires |Words(s)| > 0
    ensures StartsWithWord(s, spaces, Words(s)[0], rest)
    decreases |s|
  {
    if IsSpace(s[0]) {
      spaces, rest := FirstWord(s[1..]);
      OneMoreSpace(s[0], s[1..], spaces, Words(s)[0], rest);
      spaces := [s[0]] + spaces;
      assert s == [s[0]] + s[1..];
    } else {
      WordAtTheStart(s);
      spaces, rest := "", s[WordLength(s)..];
    }
  }
}
