/** Small shared vocabulary. */
module Prelude {

  datatype Option<+T> = None | Some(value: T)

  function Last<T>(s: seq<T>): T
    requires |s| > 0
  {
    s[|s| - 1]
  }

  function Front<T>(s: seq<T>): seq<T>
    requires |s| > 0
  {
    s[..|s| - 1]
  }

  lemma PrefixGrows<T>(s: seq<T>, i: nat)
    requires i < |s|
    ensures s[..i + 1] == s[..i] + [s[i]]
  {
  }

  lemma {:induction false} SuffixGrows<T>(s: seq<T>, n: nat)
    requires n < |s|
    ensures s[n..] == Front(s)[n..] + [Last(s)]
  {
  }

  /** How often `x` occurs. */
  function Occurs(xs: seq<nat>, x: nat): nat {
    if |xs| == 0 then 0 else Occurs(Front(xs), x) + (if Last(xs) == x then 1 else 0)
  }

  lemma {:induction false} OccursAppend(xs: seq<nat>, y: nat)
    ensures forall x: nat :: Occurs(xs + [y], x) == Occurs(xs, x) + (if x == y then 1 else 0)
  {
    assert Front(xs + [y]) == xs;
  }

  lemma {:induction false} OccursMeansIn(xs: seq<nat>, x: nat)
    ensures Occurs(xs, x) > 0 <==> x in xs
  {
    if |xs| > 0 {
      OccursMeansIn(Front(xs), x);
      assert xs == Front(xs) + [Last(xs)];
    }
  }

  /** Growing the last of some pieces, or adding one, does not depend on the pieces before. */
  lemma {:induction false} GrowsAtTheEnd(a: seq<string>, b: seq<string>, c: char)
    requires |b| > 0
    ensures (a + b) + [""] == a + (b + [""])
    ensures Front(a + b) + [Last(a + b) + [c]] == a + (Front(b) + [Last(b) + [c]])
  {
  }

  /** A JSON-RPC request id. */
  datatype RequestId = StringId(text: string) | IntegerId(value: int)
}
