/** Grouping analytics events into requests. */
module Batches {
  import opened Prelude

  datatype TrackEvent = AcceptedLineFingerprints(body: string) | OtherEvent(name: string, body: string)

  /** `should_send_in_isolated_request`. */
  predicate Isolated(e: TrackEvent) {
    e.AcceptedLineFingerprints?
  }

  function Flatten(bs: seq<seq<TrackEvent>>): seq<TrackEvent> {
    if |bs| == 0 then [] else Flatten(Front(bs)) + Last(bs)
  }

  /** An isolated event shares its batch with nothing. */
  predicate Rule(b: seq<TrackEvent>) {
    (exists i :: 0 <= i < |b| && b[i].AcceptedLineFingerprints?) ==> |b| == 1
  }

  ghost predicate Partitions(bs: seq<seq<TrackEvent>>, events: seq<TrackEvent>) {
    Flatten(bs) == events && forall b :: b in bs ==> Rule(b)
  }

  /** A new batch has to start at `e` when it follows `before`. */
  predicate Starts(before: seq<TrackEvent>, e: TrackEvent) {
    Isolated(e) || |before| == 0 || Isolated(Last(before))
  }

  function Need(events: seq<TrackEvent>): nat {
    if |events| == 0 then 0
    else Need(Front(events)) + (if Starts(Front(events), Last(events)) then 1 else 0)
  }

  function Greedy(events: seq<TrackEvent>): (bs: seq<seq<TrackEvent>>)
    ensures |bs| == Need(events)
    ensures |events| > 0 ==> |bs| > 0
  {
    if |events| == 0 then []
    else
      var before, e := Greedy(Front(events)), Last(events);
      if Starts(Front(events), e) then before + [[e]] else Front(before) + [Last(before) + [e]]
  }

  lemma {:induction false} FlattenAppend(bs: seq<seq<TrackEvent>>, b: seq<TrackEvent>)
    ensures Flatten(bs + [b]) == Flatten(bs) + b
  {
  }

  /** The batch under construction holds no isolated event. */
  ghost predicate OpenBatch(b: seq<TrackEvent>) {
    |b| > 0 && forall i :: 0 <= i < |b| ==> !Isolated(b[i])
  }

  ghost predicate Lawful(bs: seq<seq<TrackEvent>>) {
    forall b :: b in bs ==> |b| > 0 && Rule(b)
  }

  lemma {:induction false} LawfulAppend(bs: seq<seq<TrackEvent>>, b: seq<TrackEvent>)
    requires Lawful(bs) && |b| > 0 && Rule(b)
    ensures Lawful(bs + [b])
  {
  }

  lemma {:induction false} GreedyPartitions(events: seq<TrackEvent>)
    ensures Flatten(Greedy(events)) == events && Lawful(Greedy(events))
    ensures |events| > 0 && !Isolated(Last(events)) ==> OpenBatch(Last(Greedy(events)))
  {
    if |events| > 0 {
      var es, e := Front(events), Last(events);
      var before := Greedy(es);
      GreedyPartitions(es);
      assert events == es + [e];
      if Starts(es, e) {
        FlattenAppend(before, [e]);
        LawfulAppend(before, [e]);
      } else {
        var b := Last(before) + [e];
        FlattenAppend(Front(before), b);
        assert Flatten(Front(before)) + b == Flatten(before) + [e];
        assert OpenBatch(b);
        LawfulAppend(Front(before), b);
      }
    }
  }

  /** One more lawful batch adds at most one to the need, and only if it starts where it must. */
  lemma {:induction false} NeedOfBatch(a: seq<TrackEvent>, b: seq<TrackEvent>)
    requires Rule(b)
    ensures Need(a + b) <= Need(a) + (if |b| > 0 && Starts(a, b[0]) then 1 else 0)
    decreases |b|
  {
    if |b| == 0 {
      assert a + b == a;
    } else if |b| == 1 {
      assert Front(a + b) == a && b == [b[0]];
    } else {
      assert Front(a + b) == a + Front(b) && Last(a + b) == Last(b);
      NeedOfBatch(a, Front(b));
      assert Last(a + Front(b)) == b[|b| - 2];
    }
  }

  lemma {:induction false} GreedyExtends(
    es: seq<TrackEvent>, e: TrackEvent, g: seq<seq<TrackEvent>>, b: seq<TrackEvent>)
    requires !Starts(es, e) && Greedy(es) == g + [b]
    ensures Greedy(es + [e]) == g + [b + [e]]
  {
  }

  /** Where a batch may start, the greedy choice is to take all of it. */
  lemma {:induction false} GreedyOfBatch(a: seq<TrackEvent>, b: seq<TrackEvent>)
    requires Rule(b) && |b| > 0 && Starts(a, b[0])
    ensures Greedy(a + b) == Greedy(a) + [b]
    decreases |b|
  {
    if |b| == 1 {
      assert Front(a + b) == a && b == [b[0]];
    } else {
      var b', e := Front(b), Last(b);
      GreedyOfBatch(a, b');
      assert b == b' + [e] && a + b == (a + b') + [e];
      assert Last(a + b') == b[|b| - 2] && !Isolated(b[|b| - 2]) && !Isolated(b[|b| - 1]);
      GreedyExtends(a + b', e, Greedy(a), b');
    }
  }

  lemma {:induction false} EveryPartitionNeeds(bs: seq<seq<TrackEvent>>)
    requires forall b :: b in bs ==> Rule(b)
    ensures Need(Flatten(bs)) <= |bs|
    ensures |bs| == Need(Flatten(bs)) ==> bs == Greedy(Flatten(bs))
    decreases |bs|
  {
    if |bs| > 0 {
      assert bs == Front(bs) + [Last(bs)] && Last(bs) in bs;
      assert forall b :: b in Front(bs) ==> b in bs;
      EveryPartitionNeeds(Front(bs));
      var a, b := Flatten(Front(bs)), Last(bs);
      NeedOfBatch(a, b);
      if |b| > 0 && Starts(a, b[0]) { GreedyOfBatch(a, b); }
    }
  }

  /**
    Batching is lossless and optimal: the batches give back the events in order, none is
    empty, isolated events stand alone, no other partition that isolates them is smaller,
    and no other one is as small.
   */
  method TrackEventRequestBatches(events: seq<TrackEvent>) returns (batches: seq<seq<TrackEvent>>)
    ensures Flatten(batches) == events
    ensures forall b :: b in batches ==> |b| > 0 && Rule(b)
    ensures forall other :: Partitions(other, events) ==> |batches| <= |other|
    ensures forall other :: Partitions(other, events) && |other| == |batches| ==> other == batches
  {
    batches := [];
    var current: seq<TrackEvent> := [];
    for i := 0 to |events|
      invariant |current| == 0 ==> batches == Greedy(events[..i]) && (i == 0 || Isolated(events[i - 1]))
      invariant |current| > 0 ==> i > 0 && !Isolated(events[i - 1]) && batches + [current] == Greedy(events[..i])
    {
      var e := events[i];
      assert Front(events[..i + 1]) == events[..i] && Last(events[..i + 1]) == e;
      assert i > 0 ==> Last(events[..i]) == events[i - 1];
      assert Front(batches + [current]) == batches && Last(batches + [current]) == current;
      if Isolated(e) {
        if |current| > 0 {
          batches := batches + [current];
          current := [];
        }
        batches := batches + [[e]];
      } else {
        ghost var grown := current + [e];
        assert |current| == 0 ==> grown == [e];
        current := current + [e];
      }
    }
    if |current| > 0 {
      batches := batches + [current];
    }
    assert events[..|events|] == events;
    GreedyPartitions(events);
    forall other | Partitions(other, events)
      ensures |batches| <= |other| && (|other| == |batches| ==> other == batches)
    {
      EveryPartitionNeeds(other);
    }
  }
}
