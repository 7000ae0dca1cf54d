/**
  What the lag markers tell the consumer: gap by gap, how many events were dropped, and
  exactly when a marker says too little.
 */
module ForwarderGaps {
  import opened Prelude
  import opened Forwarder

  /** No real event lies between: `p` is a real event (or -1, the start), `q` the next (or the end). */
  ghost predicate Neighbours(log: seq<Entry>, p: int, q: nat) {
    && -1 <= p < q <= |log|
    && (p >= 0 ==> log[p].Real?)
    && (q < |log| ==> log[q].Real?)
    && (forall m :: p < m < q ==> log[m].Marker?)
  }

  function IndexAt(log: seq<Entry>, p: int): int
    requires -1 <= p < |log| && (p >= 0 ==> log[p].Real?)
  {
    if p < 0 then -1 else log[p].index
  }

  /** The members of `xs` strictly between two inputs. */
  function Within(xs: seq<nat>, lo: int, hi: int): set<nat> {
    set k | k in xs && lo < k < hi
  }

  lemma {:induction false} BetweenIsSet(xs: seq<nat>, lo: int, hi: int)
    requires forall k: nat :: Occurs(xs, k) <= 1
    ensures Between(xs, lo, hi) == |Within(xs, lo, hi)|
  {
    if |xs| == 0 {
      assert Within(xs, lo, hi) == {};
    } else {
      var rest, x := Front(xs), Last(xs);
      forall k: nat ensures Occurs(rest, k) <= 1 { assert Occurs(xs, k) <= 1; }
      BetweenIsSet(rest, lo, hi);
      assert Occurs(xs, x) <= 1;
      OccursMeansIn(rest, x);
      assert xs == rest + [x];
      assert Within(xs, lo, hi) == if lo < x < hi then Within(rest, lo, hi) + {x} else Within(rest, lo, hi);
    }
  }

  /** After the last real event, at `p`, there are only markers. */
  lemma {:induction false} MarkersRead(log: seq<Entry>, p: int)
    requires -1 <= p < |log| && (p >= 0 ==> log[p].Real?) && forall m :: p < m < |log| ==> log[m].Marker?
    ensures LastIndex(log) == IndexAt(log, p) && MarkersSince(log) == MarkerTotal(log[p + 1..])
  {
    if p < |log| - 1 {
      MarkersRead(Front(log), p);
      TailFront(log, p + 1);
    }
  }

  lemma {:induction false} TailFront(log: seq<Entry>, i: nat)
    requires i < |log|
    ensures Front(log[i..]) == Front(log)[i..] && Last(log[i..]) == Last(log)
  {
  }

  /** The readings of the invariant, for two neighbours. */
  lemma {:induction false} NeighboursRead(log: seq<Entry>, p: int, q: nat)
    requires Neighbours(log, p, q)
    ensures LastIndex(log[..q]) == IndexAt(log, p) && MarkersSince(log[..q]) == MarkerTotal(log[p + 1..q])
  {
    MarkersRead(log[..q], p);
    assert log[..q][p + 1..] == log[p + 1..q];
  }

  // -------------------------------------------------------- when a drop is lost

  /** The queue is full and the counter cannot grow: polling now loses input `k`. */
  function OverflowOn(k: nat): State -> bool {
    (s: State) =>
      && s.phase != Idle && s.open && Full(s) && s.skipped == USIZE_MAX
      && |s.h.inputs| == k + 1 && !RequiresDelivery(Last(s.h.inputs))
  }

  lemma {:induction false} StepLoses(s: State, a: Action, k: nat)
    requires CallInv(s)
    ensures k in Step(s, a).h.lost <==> k in s.h.lost || (a == Poll && OverflowOn(k)(s))
  {
  }

  /** A drop is lost exactly when a poll meets a full queue with the counter at its maximum. */
  lemma {:induction false} LostExactly(capacity: nat, actions: seq<Action>, k: nat)
    ensures k in Run(Init(capacity), actions).h.lost <==> PolledWhen(capacity, actions, OverflowOn(k))
    decreases |actions|
  {
    if |actions| > 0 {
      var before, a := Front(actions), Last(actions);
      LostExactly(capacity, before, k);
      RunKeepsCallInv(capacity, before);
      StepLoses(Run(Init(capacity), before), a, k);
    }
  }

  // ------------------------------------------------------------------ the gaps

  /** Nothing was lost between two inputs. */
  ghost predicate NeverOverflowed(capacity: nat, actions: seq<Action>, lo: int, hi: int) {
    forall k: nat :: lo < k < hi ==> !PolledWhen(capacity, actions, OverflowOn(k))
  }

  lemma {:induction false} NoneLost(capacity: nat, actions: seq<Action>, lo: int, hi: int)
    ensures Within(Run(Init(capacity), actions).h.lost, lo, hi) == {} <==> NeverOverflowed(capacity, actions, lo, hi)
  {
    var lost := Run(Init(capacity), actions).h.lost;
    forall k: nat
      ensures k in lost <==> PolledWhen(capacity, actions, OverflowOn(k))
    {
      LostExactly(capacity, actions, k);
    }
    if k: nat :| lo < k < hi && PolledWhen(capacity, actions, OverflowOn(k)) {
      assert k in Within(lost, lo, hi);
    } else if k :| k in Within(lost, lo, hi) {
      assert k in lost;
    }
  }

  /** Balance, as sets of inputs. */
  lemma {:induction false} BalancedSets(h: History, busy: bool, before: seq<Entry>, hi: int, skipped: nat)
    requires FateInv(h, busy) && Balanced(before, h.dropped, h.lost, hi, skipped)
    requires forall k: nat :: Occurs(h.lost, k) <= Occurs(h.dropped, k)
    ensures var lo := LastIndex(before);
            var drops, lost := Within(h.dropped, lo, hi), Within(h.lost, lo, hi);
            && MarkersSince(before) + skipped + |lost| == |drops|
            && (|drops| <= USIZE_MAX ==> lost == {})
  {
    forall k: nat
      ensures Occurs(h.dropped, k) <= 1 && Occurs(h.lost, k) <= 1
    {
      assert Fates(h, busy, k) <= 1;
    }
    BetweenIsSet(h.dropped, LastIndex(before), hi);
    BetweenIsSet(h.lost, LastIndex(before), hi);
  }

  /** A closed gap of a history. */
  lemma {:induction false} ClosedGap(h: History, busy: bool, settled: nat, skipped: nat, p: int, q: nat)
    requires FateInv(h, busy) && GapInv(h.log, h.dropped, h.lost, settled, skipped)
    requires Neighbours(h.log, p, q) && q < |h.log|
    ensures var lo, hi := IndexAt(h.log, p), h.log[q].index;
            var drops, lost := Within(h.dropped, lo, hi), Within(h.lost, lo, hi);
            && MarkerTotal(h.log[p + 1..q]) + |lost| == |drops|
            && (|drops| <= USIZE_MAX ==> lost == {})
  {
    NeighboursRead(h.log, p, q);
    BalancedSets(h, busy, h.log[..q], h.log[q].index, 0);
  }

  /**
    Exact gaps. In every run, for every two neighbouring real events (or the start and the
    first): the markers between them say how many events were dropped between them, less
    those whose drop met a saturated counter. So they are exact if and only if there was no
    such drop, and there was none if at most USIZE_MAX events were dropped in that gap -
    whatever happened in other gaps.
   */
  lemma {:induction false} ExactGaps(capacity: nat, actions: seq<Action>, p: int, q: nat)
    requires var h := Run(Init(capacity), actions).h; Neighbours(h.log, p, q) && q < |h.log|
    ensures var h := Run(Init(capacity), actions).h;
            var lo, hi := IndexAt(h.log, p), h.log[q].index;
            var drops, lost := Within(h.dropped, lo, hi), Within(h.lost, lo, hi);
            var told := MarkerTotal(h.log[p + 1..q]);
            && told + |lost| == |drops|
            && (told == |drops| <==> NeverOverflowed(capacity, actions, lo, hi))
            && (|drops| <= USIZE_MAX ==> told == |drops|)
  {
    RunKeepsInv(capacity, actions);
    var s := Run(Init(capacity), actions);
    var busy := s.phase != Idle;
    ClosedGap(s.h, busy, |Decided(s.h, busy)|, s.skipped, p, q);
    NoneLost(capacity, actions, IndexAt(s.h.log, p), s.h.log[q].index);
  }

  /** The gap of a history that no real event has closed yet. */
  lemma {:induction false} LastGap(h: History, busy: bool, settled: nat, skipped: nat, p: int)
    requires FateInv(h, busy) && GapInv(h.log, h.dropped, h.lost, settled, skipped) && settled <= |h.inputs|
    requires Neighbours(h.log, p, |h.log|)
    ensures var lo, hi := IndexAt(h.log, p), |h.inputs|;
            var drops, lost := Within(h.dropped, lo, hi), Within(h.lost, lo, hi);
            && MarkerTotal(h.log[p + 1..]) + skipped + |lost| == |drops|
            && (|drops| <= USIZE_MAX ==> lost == {})
  {
    var lo := IndexAt(h.log, p);
    NeighboursRead(h.log, p, |h.log|);
    assert h.log[..|h.log|] == h.log;
    BetweenWiden(h.dropped, lo, settled, |h.inputs|);
    BetweenWiden(h.lost, lo, settled, |h.inputs|);
    BalancedSets(h, busy, h.log, |h.inputs|, skipped);
  }

  /** The same for the gap still open: its markers and the counter together. */
  lemma {:induction false} OpenGap(capacity: nat, actions: seq<Action>, p: int)
    requires var h := Run(Init(capacity), actions).h; Neighbours(h.log, p, |h.log|)
    ensures var s := Run(Init(capacity), actions);
            var lo, hi := IndexAt(s.h.log, p), |s.h.inputs|;
            var drops, lost := Within(s.h.dropped, lo, hi), Within(s.h.lost, lo, hi);
            var told := MarkerTotal(s.h.log[p + 1..]) + s.skipped;
            && told + |lost| == |drops|
            && (told == |drops| <==> NeverOverflowed(capacity, actions, lo, hi))
            && (|drops| <= USIZE_MAX ==> told == |drops|)
  {
    RunKeepsInv(capacity, actions);
    var s := Run(Init(capacity), actions);
    var busy := s.phase != Idle;
    LastGap(s.h, busy, |Decided(s.h, busy)|, s.skipped, p);
    NoneLost(capacity, actions, IndexAt(s.h.log, p), |s.h.inputs|);
  }

  lemma {:induction false} SkippedIn(h: History, busy: bool, p: int, q: nat, k: nat)
    requires PendingInv(h, busy) && FateInv(h, busy) && KindInv(h) && OrderInv(h, busy)
    requires Neighbours(h.log, p, q) && q < |h.log| && IndexAt(h.log, p) < k < h.log[q].index
    ensures k < |h.inputs| && (k in h.dropped <==> !IsAuthRefresh(h.inputs[k]))
  {
    assert Fates(h, busy, k) == 1;
    OccursMeansIn(h.dropped, k);
    OccursMeansIn(h.unsupported, k);
    if Enqueued(h.log, k) > 0 {
      EnqueuedMeansInLog(h.log, k);
      assert false;
    }
  }

  /** Between two neighbouring real events, an input was dropped unless it was an auth refresh. */
  lemma {:induction false} SkippedBetween(capacity: nat, actions: seq<Action>, p: int, q: nat, k: nat)
    requires var h := Run(Init(capacity), actions).h;
             && Neighbours(h.log, p, q) && q < |h.log|
             && IndexAt(h.log, p) < k < h.log[q].index
    ensures var h := Run(Init(capacity), actions).h;
            k < |h.inputs| && (k in h.dropped <==> !IsAuthRefresh(h.inputs[k]))
  {
    RunKeepsInv(capacity, actions);
    var s := Run(Init(capacity), actions);
    SkippedIn(s.h, s.phase != Idle, p, q, k);
  }

  // ------------------------------------------------------ a gap that is not exact

  /** Fill a queue of one, then offer `n` best-effort events that the consumer never makes room for. */
  function Flood(e: Event, n: nat): seq<Action> {
    if n == 0 then [Take(e), Poll] else Flood(e, n - 1) + [Take(e), Poll]
  }

  function OneTo(n: nat): (xs: seq<nat>)
    ensures |xs| == n && forall x :: x in xs <==> 1 <= x <= n
  {
    if n == 0 then [] else OneTo(n - 1) + [n]
  }

  /** After `n` drops against the full queue. */
  ghost predicate Flooded(s: State, e: Event, n: nat) {
    && s.open && s.running && s.streamEnabled && s.phase == Idle && s.capacity == 1
    && s.queue == [Real(0, e)] && s.h.log == [Real(0, e)]
    && s.h.dropped == OneTo(n) && |s.h.inputs| == n + 1
    && s.skipped == if n <= USIZE_MAX then n else USIZE_MAX
  }

  lemma {:induction false} FloodStart(e: Event)
    requires !IsAuthRefresh(e)
    ensures Flooded(Step(Step(Init(1), Take(e)), Poll), e, 0)
  {
  }

  lemma {:induction false} FloodStep(s: State, e: Event, n: nat)
    requires Flooded(s, e, n) && !RequiresDelivery(e) && !IsAuthRefresh(e)
    ensures Flooded(Step(Step(s, Take(e)), Poll), e, n + 1)
  {
    assert Step(Step(s, Take(e)), Poll) == Drop(TakeStep(s, e));
  }

  lemma {:induction false} FloodState(e: Event, n: nat)
    requires !RequiresDelivery(e) && !IsAuthRefresh(e)
    ensures Flooded(Run(Init(1), Flood(e, n)), e, n)
  {
    if n == 0 {
      assert Flood(e, 0) == [] + [Take(e), Poll];
      RunTwoMore(Init(1), [], Take(e), Poll);
      FloodStart(e);
    } else {
      FloodState(e, n - 1);
      RunTwoMore(Init(1), Flood(e, n - 1), Take(e), Poll);
      FloodStep(Run(Init(1), Flood(e, n - 1)), e, n - 1);
    }
  }

  /** The flood, and then the consumer makes room for one must-deliver event. */
  function FloodThen(e: Event, n: nat, l: Event): seq<Action> {
    Flood(e, n) + [Pop, Take(l)] + [Poll, Pop] + [Poll, Poll]
  }

  lemma {:induction false} FloodThenSteps(e: Event, n: nat, l: Event)
    ensures Run(Init(1), FloodThen(e, n, l))
            == Step(Step(Step(Step(Step(Step(Run(Init(1), Flood(e, n)), Pop), Take(l)), Poll), Pop), Poll), Poll)
  {
    RunTwoMore(Init(1), Flood(e, n) + [Pop, Take(l)] + [Poll, Pop], Poll, Poll);
    RunTwoMore(Init(1), Flood(e, n) + [Pop, Take(l)], Poll, Pop);
    RunTwoMore(Init(1), Flood(e, n), Pop, Take(l));
  }

  /**
    With `n > 0` drops in one gap the log is the first event, one marker and the last event,
    and the marker tells the truth exactly when `n` fits in a usize.
   */
  lemma {:induction false} SaturatedGap(e: Event, n: nat, l: Event)
    requires !RequiresDelivery(e) && !IsAuthRefresh(e) && RequiresDelivery(l) && n > 0
    ensures var h := Run(Init(1), FloodThen(e, n, l)).h;
            var told := if n <= USIZE_MAX then n else USIZE_MAX;
            && h.log == [Real(0, e), Marker(told), Real(n + 1, l)]
            && h.dropped == OneTo(n)
            && (told == |h.dropped| <==> n <= USIZE_MAX)
  {
    FloodState(e, n);
    FloodThenSteps(e, n, l);
    var s := Run(Init(1), Flood(e, n));
    var s1 := Step(s, Pop);
    assert s1.queue == [] && s1.h == s.h;
    var s2 := Step(s1, Take(l));
    assert s2 == TakeStep(s1, l);
    var s3 := Step(s2, Poll);
    assert s3 == FlushMarker(s2);
    var s4 := Step(s3, Pop);
    assert s4.queue == [] && s4.h == s3.h;
    assert Step(s4, Poll) == Deliver(s4);
  }
}
