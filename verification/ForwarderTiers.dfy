/**
  The two tiers of events, by their names: which events may be dropped, when they are, and
  that the others never are.
 */
module ForwarderTiers {
  import opened Prelude
  import opened Forwarder

  /** The transcript and completion notifications. */
  predicate Listed(e: Event) {
    e.Notification? &&
    match e.notification
    case TurnCompleted(_) => true
    case ThreadSettingsUpdated(_) => true
    case ItemCompleted(_) => true
    case ExternalAgentConfigImportCompleted(_) => true
    case AgentMessageDelta(_) => true
    case PlanDelta(_) => true
    case ReasoningSummaryTextDelta(_) => true
    case ReasoningTextDelta(_) => true
    case OtherNotification(_, _) => false
  }

  function ListedOnly(es: seq<Event>): seq<Event> {
    if |es| == 0 then []
    else if Listed(Last(es)) then ListedOnly(Front(es)) + [Last(es)]
    else ListedOnly(Front(es))
  }

  lemma {:induction false} ListedIsLossless(es: seq<Event>)
    ensures ListedOnly(es) == Lossless(es)
  {
    if |es| > 0 { ListedIsLossless(Front(es)); }
  }

  lemma {:induction false} ListedOnce(h: History, busy: bool, k: nat)
    requires PendingInv(h, busy) && FateInv(h, busy) && KindInv(h) && k < |Decided(h, busy)| && Listed(h.inputs[k])
    ensures Enqueued(h.log, k) == 1
  {
    assert Fates(h, busy, k) == 1;
    OccursMeansIn(h.dropped, k);
    OccursMeansIn(h.unsupported, k);
  }

  /**
    In every run: none of the eight listed notifications is ever dropped; each one that is
    settled is in the log once; and those in the log are those settled, in order.
   */
  lemma {:induction false} ListedAreNeverLost(capacity: nat, actions: seq<Action>)
    ensures var s := Run(Init(capacity), actions);
            var settled := Decided(s.h, s.phase != Idle);
            && (forall d :: d in s.h.dropped ==> d < |s.h.inputs| && !Listed(s.h.inputs[d]))
            && (forall k :: 0 <= k < |settled| && Listed(settled[k]) ==> Enqueued(s.h.log, k) == 1)
            && ListedOnly(RealEvents(s.h.log)) == ListedOnly(settled)
  {
    RunKeepsInv(capacity, actions);
    var s := Run(Init(capacity), actions);
    var settled := Decided(s.h, s.phase != Idle);
    forall k | 0 <= k < |settled| && Listed(settled[k])
      ensures Enqueued(s.h.log, k) == 1
    {
      assert settled[k] == s.h.inputs[k];
      ListedOnce(s.h, s.phase != Idle, k);
    }
    ListedIsLossless(RealEvents(s.h.log));
    ListedIsLossless(settled);
  }

  /** The channel has the capacity asked for, and at least one place. */
  lemma {:induction false} CapacityStays(capacity: nat, actions: seq<Action>)
    ensures Run(Init(capacity), actions).capacity == if capacity == 0 then 1 else capacity
    decreases |actions|
  {
    if |actions| > 0 { CapacityStays(capacity, Front(actions)); }
  }

  lemma {:induction false} PollOfFull(s: State)
    requires CallInv(s) && s.phase != Idle && s.open && |s.queue| == s.capacity
    ensures var e, t := Last(s.h.inputs), Step(s, Poll);
            && (Listed(e) ==> t == s)
            && (!Listed(e) ==>
                  && t.phase == Idle && t.streamEnabled == s.streamEnabled
                  && t.queue == s.queue && t.h.log == s.h.log
                  && t.h.dropped == s.h.dropped + [|s.h.inputs| - 1]
                  && t.skipped == if s.skipped < 18446744073709551615 then s.skipped + 1 else s.skipped)
  {
  }

  lemma {:induction false} PollWithRoom(s: State)
    requires CallInv(s) && s.phase != Idle && s.open && |s.queue| < s.capacity
    ensures var t := Step(s, Poll);
            && t.h.dropped == s.h.dropped
            && t.h.log == s.h.log + [if s.phase == Flushing then Marker(s.skipped)
                                     else Real(|s.h.inputs| - 1, Last(s.h.inputs))]
            && (t.phase == Idle <==> s.phase == Sending)
  {
  }

  /**
    A poll with the consumer there, in every run and for every capacity. If the queue holds
    all it can, a listed event waits and any other is dropped at once and counted, marker or
    no marker. If there is room nothing is dropped: the pending marker goes in, or the event.
   */
  lemma {:induction false} PollExactly(capacity: nat, actions: seq<Action>)
    requires var s := Run(Init(capacity), actions); s.phase != Idle && s.open
    ensures |Run(Init(capacity), actions).h.inputs| > 0
    ensures var s := Run(Init(capacity), actions);
            var e, t := Last(s.h.inputs), Step(s, Poll);
            var full := |s.queue| == if capacity == 0 then 1 else capacity;
            && (full && Listed(e) ==> t == s)
            && (full && !Listed(e) ==>
                  && t.phase == Idle && t.h.log == s.h.log && t.h.dropped == s.h.dropped + [|s.h.inputs| - 1]
                  && t.skipped == if s.skipped < 18446744073709551615 then s.skipped + 1 else s.skipped)
            && (!full ==>
                  && t.h.dropped == s.h.dropped && |t.h.log| == |s.h.log| + 1 && t.h.log[..|s.h.log|] == s.h.log
                  && (Last(t.h.log).Real? ==> Last(t.h.log) == Real(|s.h.inputs| - 1, e) && t.phase == Idle)
                  && (Last(t.h.log).Marker? ==> s.skipped > 0 && Last(t.h.log) == Marker(s.skipped) && t.skipped == 0))
  {
    RunKeepsCallInv(capacity, actions);
    CapacityStays(capacity, actions);
    LosslessTier(capacity, actions);
    PhaseKnowsTheCounter(capacity, actions);
    var s := Run(Init(capacity), actions);
    if |s.queue| == s.capacity { PollOfFull(s); } else { PollWithRoom(s); }
  }

  lemma {:induction false} PhaseKnowsTheCounter(capacity: nat, actions: seq<Action>)
    ensures var s := Run(Init(capacity), actions);
            (s.phase == Flushing ==> s.skipped > 0) && (s.phase == Sending ==> s.skipped == 0)
  {
    RunKeepsInv(capacity, actions);
  }

  /**
    Taking an event, while the worker runs, its stream is enabled and no call is under way: an
    auth refresh is refused at once, anything else starts a call. Otherwise nothing is taken;
    in particular nothing is once a call has found the consumer gone.
   */
  lemma {:induction false} TakeExactly(s: State, e: Event)
    ensures var t := Step(s, Take(e));
            var refresh := e.Request? && e.request.ChatgptAuthTokensRefresh?;
            if !(s.running && s.streamEnabled && s.phase == Idle) then t == s
            else
              && t.h.inputs == s.h.inputs + [e] && t.queue == s.queue && t.h.dropped == s.h.dropped
              && (refresh ==> t.phase == Idle
                              && t.h.rejections == s.h.rejections + [Rejection(|s.h.inputs|, e.request.id, -32000)])
              && (!refresh ==> t.phase != Idle && t.h.rejections == s.h.rejections)
  {
  }

  /** Once a call has found the consumer gone, it stays the last one. */
  lemma {:induction false} GivenUpIsLast(capacity: nat, actions: seq<Action>, k: nat)
    requires PolledWhen(capacity, actions, ClosedOn(k))
    ensures var s := Run(Init(capacity), actions); |s.h.inputs| == k + 1 && s.phase == Idle && !s.streamEnabled
  {
    GivenUpExactly(capacity, actions, k);
    RunKeepsInv(capacity, actions);
  }

  /** A worker that has stopped between two calls takes nothing any more, whatever happens. */
  lemma {:induction false} StoppedTakesNothing(s: State, actions: seq<Action>)
    requires s.phase == Idle
    ensures var t := Run(Step(s, Exit), actions); t.phase == Idle && !t.running && t.h == s.h
    decreases |actions|
  {
    if |actions| > 0 { StoppedTakesNothing(s, Front(actions)); }
  }

  /** How entries look to the consumer: a marker is a `Lagged` event with its own count. */
  lemma {:induction false} PayloadExactly(e: Entry)
    ensures e.Real? ==> Payload(e) == e.event
    ensures e.Marker? ==> Payload(e) == Lagged(e.skipped)
  {
  }
}
