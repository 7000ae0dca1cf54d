/**
  The in-process event forwarder and the event branch of the worker that drives it.

  The worker takes events from the runtime one at a time and pushes them into a bounded
  queue. Pushing may have to wait, so a call is a small state machine: it may first have
  to flush a lag marker (`Flushing`) and then sends the event itself (`Sending`). The
  consumer pops the queue, or drops its end, between any two of those steps. A run is an
  arbitrary sequence of actions; an action that is not enabled changes nothing.
 */
module Forwarder {
  import opened Prelude

  const USIZE_MAX: nat := 0xFFFF_FFFF_FFFF_FFFF
  const UNSUPPORTED_CODE: int := -32000
  const OVERLOAD_CODE: int := -32001

  datatype ServerNotification =
    | TurnCompleted(body: string)
    | ThreadSettingsUpdated(body: string)
    | ItemCompleted(body: string)
    | ExternalAgentConfigImportCompleted(body: string)
    | AgentMessageDelta(body: string)
    | PlanDelta(body: string)
    | ReasoningSummaryTextDelta(body: string)
    | ReasoningTextDelta(body: string)
    | OtherNotification(name: string, body: string)

  datatype ServerRequest =
    | ChatgptAuthTokensRefresh(id: RequestId)
    | OtherRequest(id: RequestId, name: string)

  datatype Event =
    | Lagged(skipped: nat)
    | Notification(notification: ServerNotification)
    | Request(request: ServerRequest)

  /** The lossless tier. */
  predicate RequiresDelivery(e: Event) {
    e.Notification? && !e.notification.OtherNotification?
  }

  predicate IsAuthRefresh(e: Event) {
    e.Request? && e.request.ChatgptAuthTokensRefresh?
  }

  /**
    What is put in the queue. `Real` is an event of the runtime together with its position
    among the events taken; `Marker` is a `Lagged` event made by the forwarder, as opposed
    to a `Lagged` event that the runtime itself sent.
   */
  datatype Entry = Real(index: nat, event: Event) | Marker(skipped: nat)

  /** How a queue entry looks to the consumer. */
  function Payload(e: Entry): Event {
    match e
    case Real(_, event) => event
    case Marker(n) => Lagged(n)
  }

  datatype Rejection = Rejection(index: nat, id: RequestId, code: int)

  datatype Phase = Idle | Flushing | Sending

  /** What has happened so far. Inputs are named by their position in `inputs`. */
  datatype History = History(
    inputs: seq<Event>,            // taken from the runtime
    log: seq<Entry>,               // put in the queue
    dropped: seq<nat>,             // counted as skipped
    unsupported: seq<nat>,         // auth refreshes, refused before forwarding
    abandoned: Option<nat>,        // the event whose call found the consumer gone
    rejections: seq<Rejection>,    // `fail_server_request` calls
    lost: seq<nat>)                // dropped when the counter could no longer grow

  datatype State = State(
    capacity: nat,
    open: bool,
    queue: seq<Entry>,
    seen: seq<Entry>,
    running: bool,
    streamEnabled: bool,
    skipped: nat,
    phase: Phase,
    h: History)

  datatype Action =
    | Take(event: Event)     // the runtime hands over its next event
    | Poll                   // the pending send is tried (again)
    | Pop                    // the consumer receives one event
    | CloseConsumer          // the consumer drops its end
    | Exit                   // shutdown, or the runtime's stream ended

  function Init(channelCapacity: nat): State {
    State(if channelCapacity < 1 then 1 else channelCapacity, true, [], [], true, true, 0, Idle,
          History([], [], [], [], None, [], []))
  }

  // ------------------------------------------------------------------ steps

  function SaturatingIncrement(n: nat): nat {
    if n < USIZE_MAX then n + 1 else n
  }

  function RecordUnsupported(h: History, e: Event): History
    requires IsAuthRefresh(e)
  {
    var k := |h.inputs|;
    h.(inputs := h.inputs + [e],
       unsupported := h.unsupported + [k],
       rejections := h.rejections + [Rejection(k, e.request.id, UNSUPPORTED_CODE)])
  }

  function RecordEnqueued(h: History, e: Entry): History {
    h.(log := h.log + [e])
  }

  function RecordDropped(h: History, saturated: bool): History
    requires |h.inputs| > 0
  {
    var k := |h.inputs| - 1;
    var e := Last(h.inputs);
    h.(lost := if saturated then h.lost + [k] else h.lost,
       dropped := h.dropped + [k],
       rejections := if e.Request? then h.rejections + [Rejection(k, e.request.id, OVERLOAD_CODE)]
                     else h.rejections)
  }

  /** The event of the call under way, as a queue entry. */
  function Current(h: History): Entry
    requires |h.inputs| > 0
  {
    Real(|h.inputs| - 1, Last(h.inputs))
  }

  function TakeStep(s: State, e: Event): State {
    if IsAuthRefresh(e) then
      s.(h := RecordUnsupported(s.h, e))
    else
      s.(h := s.h.(inputs := s.h.inputs + [e]), phase := if s.skipped > 0 then Flushing else Sending)
  }

  /** The marker went in; the event itself comes next. */
  function FlushMarker(s: State): State {
    var m := Marker(s.skipped);
    s.(queue := s.queue + [m], skipped := 0, phase := Sending, h := RecordEnqueued(s.h, m))
  }

  function Deliver(s: State): State
    requires |s.h.inputs| > 0
  {
    var e := Current(s.h);
    s.(queue := s.queue + [e], phase := Idle, h := RecordEnqueued(s.h, e))
  }

  /** The queue is full: count the event, and refuse it if it is a request. */
  function Drop(s: State): State
    requires |s.h.inputs| > 0
  {
    s.(skipped := SaturatingIncrement(s.skipped), phase := Idle,
       h := RecordDropped(s.h, s.skipped >= USIZE_MAX))
  }

  /** The consumer is gone: the call returns `DisableStream` and its event goes nowhere. */
  function Abandon(s: State): State
    requires |s.h.inputs| > 0
  {
    s.(streamEnabled := false, phase := Idle, h := s.h.(abandoned := Some(|s.h.inputs| - 1)))
  }

  predicate Full(s: State) {
    |s.queue| >= s.capacity
  }

  function PollStep(s: State): State
    requires |s.h.inputs| > 0
  {
    if s.phase == Idle then s
    else if !s.open then Abandon(s)
    else if Full(s) then (if RequiresDelivery(Last(s.h.inputs)) then s else Drop(s))
    else if s.phase == Flushing then FlushMarker(s)
    else Deliver(s)
  }

  function Step(s: State, a: Action): State {
    match a
    case Take(e) =>
      if s.running && s.streamEnabled && s.phase == Idle then TakeStep(s, e) else s
    case Poll =>
      if |s.h.inputs| > 0 then PollStep(s) else s
    case Pop =>
      if s.open && |s.queue| > 0 then s.(queue := s.queue[1..], seen := s.seen + [s.queue[0]]) else s
    case CloseConsumer =>
      s.(open := false, queue := [])
    case Exit =>
      if s.phase == Idle then s.(running := false) else s
  }

  function Run(s: State, actions: seq<Action>): State
    decreases |actions|
  {
    if |actions| == 0 then s else Step(Run(s, Front(actions)), Last(actions))
  }

  // ------------------------------------------------ readings of the histories

  /** How often input `k` was put in the queue. */
  function Enqueued(log: seq<Entry>, k: nat): nat {
    if |log| == 0 then 0
    else Enqueued(Front(log), k) + (if Last(log).Real? && Last(log).index == k then 1 else 0)
  }

  /** How often input `k` was refused. */
  function Refused(rs: seq<Rejection>, k: nat): nat {
    if |rs| == 0 then 0 else Refused(Front(rs), k) + (if Last(rs).index == k then 1 else 0)
  }

  /** In how many ways input `k` is accounted for. */
  function Fates(h: History, busy: bool, k: nat): nat {
    Enqueued(h.log, k) + Occurs(h.dropped, k) + Occurs(h.unsupported, k)
    + (if busy && k == |h.inputs| - 1 then 1 else 0)
    + (if h.abandoned == Some(k) then 1 else 0)
  }

  /** The sum of the counts carried by the forwarder's own markers. */
  function MarkerTotal(log: seq<Entry>): nat {
    if |log| == 0 then 0
    else MarkerTotal(Front(log)) + (if Last(log).Marker? then Last(log).skipped else 0)
  }

  /** The input that the last real event is, or -1. */
  function LastIndex(log: seq<Entry>): int {
    if |log| == 0 then -1
    else if Last(log).Real? then Last(log).index
    else LastIndex(Front(log))
  }

  /** The sum of the counts of the markers after the last real event. */
  function MarkersSince(log: seq<Entry>): nat {
    if |log| == 0 || Last(log).Real? then 0 else MarkersSince(Front(log)) + Last(log).skipped
  }

  /** How many entries lie strictly between two positions. */
  function Between(xs: seq<nat>, lo: int, hi: int): nat {
    if |xs| == 0 then 0 else Between(Front(xs), lo, hi) + (if lo < Last(xs) < hi then 1 else 0)
  }

  /** How many of the events taken are handed to the forwarder (all but auth refreshes). */
  function Forwarded(inputs: seq<Event>): nat {
    if |inputs| == 0 then 0
    else Forwarded(Front(inputs)) + (if IsAuthRefresh(Last(inputs)) then 0 else 1)
  }

  function RealEvents(log: seq<Entry>): seq<Event> {
    if |log| == 0 then []
    else if Last(log).Real? then RealEvents(Front(log)) + [Last(log).event]
    else RealEvents(Front(log))
  }

  function Lossless(es: seq<Event>): seq<Event> {
    if |es| == 0 then []
    else if RequiresDelivery(Last(es)) then Lossless(Front(es)) + [Last(es)]
    else Lossless(Front(es))
  }

  /** The inputs whose fate is settled: all but the last one while a call is under way or was given up. */
  function Decided(h: History, busy: bool): seq<Event> {
    if |h.inputs| > 0 && (busy || h.abandoned.Some?) then Front(h.inputs) else h.inputs
  }

  // ------------------------------------------------------------- invariants

  ghost predicate ChannelInv(s: State) {
    && 1 <= s.capacity && |s.queue| <= s.capacity
    && (s.open ==> s.seen + s.queue == s.h.log)
    && s.seen <= s.h.log
    && (s.streamEnabled ==> s.h.abandoned.None?)
    && (s.h.abandoned.Some? ==> !s.open && s.phase == Idle)
    && (s.phase == Flushing ==> s.skipped > 0)
    && (s.phase == Sending ==> s.skipped == 0)
    && (s.phase != Idle ==> s.streamEnabled)
  }

  /** Something is pending (or was given up) only for the last input, and never for an auth refresh. */
  ghost predicate PendingInv(h: History, busy: bool) {
    && (busy ==> |h.inputs| > 0 && h.abandoned.None? && !IsAuthRefresh(Last(h.inputs)))
    && (h.abandoned.Some? ==> |h.inputs| > 0 && h.abandoned.value == |h.inputs| - 1 && !IsAuthRefresh(Last(h.inputs)))
  }

  ghost predicate FateInv(h: History, busy: bool) {
    && (forall k: nat :: Fates(h, busy, k) == if k < |h.inputs| then 1 else 0)
    && (forall k: nat :: Refused(h.rejections, k)
                         == if k < |h.inputs| && h.inputs[k].Request?
                            then Occurs(h.dropped, k) + Occurs(h.unsupported, k) else 0)
  }

  ghost predicate KindInv(h: History) {
    && (forall d :: d in h.dropped ==> d < |h.inputs| && !RequiresDelivery(h.inputs[d]) && !IsAuthRefresh(h.inputs[d]))
    && (forall u :: u in h.unsupported ==> u < |h.inputs| && IsAuthRefresh(h.inputs[u]))
    && (forall r :: r in h.rejections ==>
          && r.index < |h.inputs| && h.inputs[r.index].Request?
          && r.id == h.inputs[r.index].request.id
          && r.code == if IsAuthRefresh(h.inputs[r.index]) then UNSUPPORTED_CODE else OVERLOAD_CODE)
  }

  ghost predicate OrderInv(h: History, busy: bool) {
    && (forall p :: 0 <= p < |h.log| && h.log[p].Real? ==>
          h.log[p].index < |Decided(h, busy)| && h.inputs[h.log[p].index] == h.log[p].event
          && !IsAuthRefresh(h.log[p].event))
    && (forall p, q :: 0 <= p < q < |h.log| && h.log[p].Real? && h.log[q].Real? ==> h.log[p].index < h.log[q].index)
    && (forall p :: 0 <= p < |h.log| && h.log[p].Marker? ==> h.log[p].skipped > 0)
  }

  ghost predicate CountInv(h: History, busy: bool, skipped: nat) {
    && Lossless(RealEvents(h.log)) == Lossless(Decided(h, busy))
    && Forwarded(Decided(h, busy)) == |RealEvents(h.log)| + MarkerTotal(h.log) + skipped + |h.lost|
    && skipped + |h.lost| <= |h.dropped|
    && skipped <= USIZE_MAX
    && (|h.lost| > 0 ==> |h.dropped| > USIZE_MAX)
  }

  /**
    From the last real event of `before` up to input `hi`: what the markers and the counter
    say, plus what the counter lost, is what was dropped; and nothing was lost unless more
    than USIZE_MAX events were dropped there.
   */
  ghost predicate Balanced(before: seq<Entry>, dropped: seq<nat>, lost: seq<nat>, hi: int, skipped: nat) {
    var lo := LastIndex(before);
    && MarkersSince(before) + skipped + Between(lost, lo, hi) == Between(dropped, lo, hi)
    && (Between(lost, lo, hi) > 0 ==> Between(dropped, lo, hi) > USIZE_MAX)
  }

  /** Every gap in the log is balanced, and so is the one still open. */
  ghost predicate GapInv(log: seq<Entry>, dropped: seq<nat>, lost: seq<nat>, settled: nat, skipped: nat) {
    && LastIndex(log) < settled
    && (forall d :: d in dropped ==> d < settled)
    && (forall d :: d in lost ==> d < settled)
    && (forall k: nat :: Occurs(lost, k) <= Occurs(dropped, k))
    && Balanced(log, dropped, lost, settled, skipped)
    && (forall q :: 0 <= q < |log| && log[q].Real? ==>
          log[q].index < settled && Balanced(log[..q], dropped, lost, log[q].index, 0))
  }

  ghost predicate HistoryInv(h: History, busy: bool, skipped: nat) {
    && PendingInv(h, busy) && FateInv(h, busy) && KindInv(h)
    && OrderInv(h, busy) && CountInv(h, busy, skipped)
    && GapInv(h.log, h.dropped, h.lost, |Decided(h, busy)|, skipped)
  }

  ghost predicate Inv(s: State) {
    ChannelInv(s) && HistoryInv(s.h, s.phase != Idle, s.skipped)
  }

  // ------------------------------------------- what each record does to a history

  lemma {:induction false} LogAppend(log: seq<Entry>, e: Entry)
    ensures RealEvents(log + [e]) == if e.Real? then RealEvents(log) + [e.event] else RealEvents(log)
    ensures MarkerTotal(log + [e]) == MarkerTotal(log) + (if e.Marker? then e.skipped else 0)
    ensures forall k: nat :: Enqueued(log + [e], k) == Enqueued(log, k) + (if e.Real? && e.index == k then 1 else 0)
  {
  }

  lemma {:induction false} InputAppend(es: seq<Event>, e: Event)
    ensures Forwarded(es + [e]) == Forwarded(es) + (if IsAuthRefresh(e) then 0 else 1)
    ensures Lossless(es + [e]) == if RequiresDelivery(e) then Lossless(es) + [e] else Lossless(es)
  {
  }

  lemma {:induction false} RefusedAppend(rs: seq<Rejection>, r: Rejection)
    ensures forall k: nat :: Refused(rs + [r], k) == Refused(rs, k) + (if r.index == k then 1 else 0)
  {
  }

  lemma {:induction false} BetweenAppend(xs: seq<nat>, x: nat)
    ensures forall lo: int, hi: int ::
              Between(xs + [x], lo, hi) == Between(xs, lo, hi) + (if lo < x < hi then 1 else 0)
  {
    assert Front(xs + [x]) == xs;
  }

  lemma {:induction false} BetweenWiden(xs: seq<nat>, lo: int, hi: int, hi': int)
    requires hi <= hi' && forall x :: x in xs ==> x < hi
    ensures Between(xs, lo, hi') == Between(xs, lo, hi)
  {
    if |xs| > 0 {
      assert Last(xs) in xs && forall x :: x in Front(xs) ==> x in xs;
      BetweenWiden(Front(xs), lo, hi, hi');
    }
  }

  lemma {:induction false} BetweenNone(xs: seq<nat>, lo: int, hi: int)
    requires forall x :: x in xs ==> x <= lo
    ensures Between(xs, lo, hi) == 0
  {
    if |xs| > 0 {
      assert Last(xs) in xs && forall x :: x in Front(xs) ==> x in xs;
      BetweenNone(Front(xs), lo, hi);
    }
  }

  /** More inputs are settled, and none of the new ones was dropped. */
  lemma {:induction false} GapWiden(log: seq<Entry>, dropped: seq<nat>, lost: seq<nat>, settled: nat, skipped: nat)
    requires GapInv(log, dropped, lost, settled, skipped)
    ensures GapInv(log, dropped, lost, settled + 1, skipped)
  {
    BetweenWiden(dropped, LastIndex(log), settled, settled + 1);
    BetweenWiden(lost, LastIndex(log), settled, settled + 1);
  }

  /** The gaps already closed do not see what is put in the log later. */
  lemma {:induction false} ClosedGapsStay(log: seq<Entry>, e: Entry, dropped: seq<nat>, lost: seq<nat>)
    requires forall q :: 0 <= q < |log| && log[q].Real? ==> Balanced(log[..q], dropped, lost, log[q].index, 0)
    ensures var more := log + [e];
            forall q :: 0 <= q < |log| && more[q].Real? ==> Balanced(more[..q], dropped, lost, more[q].index, 0)
  {
    var more := log + [e];
    forall q | 0 <= q < |log| && more[q].Real?
      ensures Balanced(more[..q], dropped, lost, more[q].index, 0)
    {
      assert more[..q] == log[..q] && more[q] == log[q];
    }
  }

  /** A marker takes over what the counter said. */
  lemma {:induction false} GapMarker(log: seq<Entry>, dropped: seq<nat>, lost: seq<nat>, settled: nat, skipped: nat)
    requires GapInv(log, dropped, lost, settled, skipped)
    ensures GapInv(log + [Marker(skipped)], dropped, lost, settled, 0)
  {
    ClosedGapsStay(log, Marker(skipped), dropped, lost);
    assert Front(log + [Marker(skipped)]) == log;
  }

  /** A real event closes the open gap and starts the next one. */
  lemma {:induction false} GapReal(log: seq<Entry>, dropped: seq<nat>, lost: seq<nat>, settled: nat, event: Event)
    requires GapInv(log, dropped, lost, settled, 0)
    ensures GapInv(log + [Real(settled, event)], dropped, lost, settled + 1, 0)
  {
    var more := log + [Real(settled, event)];
    ClosedGapsStay(log, Real(settled, event), dropped, lost);
    assert more[..|log|] == log;
    BetweenNone(dropped, settled, settled + 1);
    BetweenNone(lost, settled, settled + 1);
  }

  /** A drop widens the open gap by one, which the counter or the list of losses remembers. */
  lemma {:induction false} GapDrop(log: seq<Entry>, dropped: seq<nat>, lost: seq<nat>, settled: nat, skipped: nat)
    requires GapInv(log, dropped, lost, settled, skipped) && skipped <= USIZE_MAX
    ensures GapInv(log, dropped + [settled], if skipped >= USIZE_MAX then lost + [settled] else lost,
                   settled + 1, SaturatingIncrement(skipped))
  {
    GapWiden(log, dropped, lost, settled, skipped);
    BetweenAppend(dropped, settled);
    BetweenAppend(lost, settled);
    OccursAppend(dropped, settled);
    OccursAppend(lost, settled);
  }

  lemma {:induction false} UnsupportedFates(h: History, e: Event)
    requires PendingInv(h, false) && FateInv(h, false) && KindInv(h) && h.abandoned.None? && IsAuthRefresh(e)
    ensures FateInv(RecordUnsupported(h, e), false)
  {
    var h' := RecordUnsupported(h, e);
    OccursAppend(h.unsupported, |h.inputs|);
    RefusedAppend(h.rejections, Last(h'.rejections));
    forall k: nat
      ensures Fates(h', false, k) == if k < |h'.inputs| then 1 else 0
      ensures Refused(h'.rejections, k) == if k < |h'.inputs| && h'.inputs[k].Request?
                                           then Occurs(h'.dropped, k) + Occurs(h'.unsupported, k) else 0
    {
      assert Fates(h, false, k) == if k < |h.inputs| then 1 else 0;
      assert k < |h.inputs| ==> h'.inputs[k] == h.inputs[k];
    }
  }

  lemma {:induction false} UnsupportedKinds(h: History, skipped: nat, e: Event)
    requires KindInv(h) && OrderInv(h, false) && CountInv(h, false, skipped) && h.abandoned.None? && IsAuthRefresh(e)
    ensures var h' := RecordUnsupported(h, e); KindInv(h') && OrderInv(h', false) && CountInv(h', false, skipped)
  {
    InputAppend(h.inputs, e);
  }

  lemma {:induction false} UnsupportedKeeps(h: History, skipped: nat, e: Event)
    requires HistoryInv(h, false, skipped) && h.abandoned.None? && IsAuthRefresh(e)
    ensures HistoryInv(RecordUnsupported(h, e), false, skipped)
  {
    UnsupportedFates(h, e);
    UnsupportedKinds(h, skipped, e);
    GapWiden(h.log, h.dropped, h.lost, |h.inputs|, skipped);
  }

  lemma {:induction false} TakenFates(h: History, e: Event)
    requires PendingInv(h, false) && FateInv(h, false) && h.abandoned.None?
    ensures FateInv(h.(inputs := h.inputs + [e]), true)
  {
    var h' := h.(inputs := h.inputs + [e]);
    forall k: nat
      ensures Fates(h', true, k) == if k < |h'.inputs| then 1 else 0
      ensures Refused(h'.rejections, k) == if k < |h'.inputs| && h'.inputs[k].Request?
                                           then Occurs(h'.dropped, k) + Occurs(h'.unsupported, k) else 0
    {
      assert Fates(h, false, k) == if k < |h.inputs| then 1 else 0;
      assert k < |h.inputs| ==> h'.inputs[k] == h.inputs[k];
    }
  }

  lemma {:induction false} TakenKeeps(h: History, skipped: nat, e: Event)
    requires HistoryInv(h, false, skipped) && h.abandoned.None? && !IsAuthRefresh(e)
    ensures HistoryInv(h.(inputs := h.inputs + [e]), true, skipped)
  {
    var h' := h.(inputs := h.inputs + [e]);
    TakenFates(h, e);
    assert Decided(h', true) == h.inputs;
  }

  lemma {:induction false} MarkerCounts(h: History, skipped: nat)
    requires PendingInv(h, true) && CountInv(h, true, skipped)
    ensures CountInv(RecordEnqueued(h, Marker(skipped)), true, 0)
    ensures FateInv(h, true) ==> FateInv(RecordEnqueued(h, Marker(skipped)), true)
  {
    var h' := RecordEnqueued(h, Marker(skipped));
    LogAppend(h.log, Marker(skipped));
    assert forall k: nat :: Fates(h', true, k) == Fates(h, true, k);
  }

  lemma {:induction false} MarkerOrder(h: History, skipped: nat)
    requires OrderInv(h, true) && skipped > 0
    ensures OrderInv(RecordEnqueued(h, Marker(skipped)), true)
  {
  }

  lemma {:induction false} MarkerKeeps(h: History, skipped: nat)
    requires HistoryInv(h, true, skipped) && skipped > 0
    ensures HistoryInv(RecordEnqueued(h, Marker(skipped)), true, 0)
  {
    MarkerCounts(h, skipped);
    MarkerOrder(h, skipped);
    GapMarker(h.log, h.dropped, h.lost, |Decided(h, true)|, skipped);
  }

  lemma {:induction false} DeliveredCounts(h: History)
    requires PendingInv(h, true) && CountInv(h, true, 0)
    ensures CountInv(RecordEnqueued(h, Current(h)), false, 0)
    ensures FateInv(h, true) ==> FateInv(RecordEnqueued(h, Current(h)), false)
  {
    var e := Current(h);
    var h' := RecordEnqueued(h, e);
    LogAppend(h.log, e);
    assert h.inputs == Front(h.inputs) + [e.event];
    InputAppend(Front(h.inputs), e.event);
    InputAppend(RealEvents(h.log), e.event);
    assert forall k: nat :: Fates(h', false, k) == Fates(h, true, k);
  }

  lemma {:induction false} DeliveredOrder(h: History)
    requires PendingInv(h, true) && OrderInv(h, true)
    ensures OrderInv(RecordEnqueued(h, Current(h)), false)
  {
  }

  lemma {:induction false} DeliveredKeeps(h: History)
    requires HistoryInv(h, true, 0)
    ensures HistoryInv(RecordEnqueued(h, Current(h)), false, 0)
  {
    DeliveredCounts(h);
    DeliveredOrder(h);
    GapReal(h.log, h.dropped, h.lost, |h.inputs| - 1, Last(h.inputs));
  }

  lemma {:induction false} DroppedFates(h: History, saturated: bool)
    requires PendingInv(h, true) && FateInv(h, true)
    ensures FateInv(RecordDropped(h, saturated), false)
  {
    var h' := RecordDropped(h, saturated);
    var last := |h.inputs| - 1;
    OccursAppend(h.dropped, last);
    if Last(h.inputs).Request? { RefusedAppend(h.rejections, Last(h'.rejections)); }
    forall k: nat
      ensures Fates(h', false, k) == if k < |h'.inputs| then 1 else 0
      ensures Refused(h'.rejections, k) == if k < |h'.inputs| && h'.inputs[k].Request?
                                           then Occurs(h'.dropped, k) + Occurs(h'.unsupported, k) else 0
    {
      assert Fates(h, true, k) == if k < |h.inputs| then 1 else 0;
      if k == last {
        assert h.inputs[k] == Last(h.inputs);
      } else {
        assert Occurs(h'.dropped, k) == Occurs(h.dropped, k) && Refused(h'.rejections, k) == Refused(h.rejections, k);
      }
    }
  }

  lemma {:induction false} DroppedCounts(h: History, skipped: nat)
    requires PendingInv(h, true) && CountInv(h, true, skipped) && !RequiresDelivery(Last(h.inputs))
    ensures CountInv(RecordDropped(h, skipped >= USIZE_MAX), false, SaturatingIncrement(skipped))
  {
  }

  lemma {:induction false} DroppedKinds(h: History, saturated: bool)
    requires PendingInv(h, true) && KindInv(h) && OrderInv(h, true) && !RequiresDelivery(Last(h.inputs))
    ensures KindInv(RecordDropped(h, saturated)) && OrderInv(RecordDropped(h, saturated), false)
  {
  }

  lemma {:induction false} DroppedKeeps(h: History, skipped: nat)
    requires HistoryInv(h, true, skipped) && !RequiresDelivery(Last(h.inputs))
    ensures HistoryInv(RecordDropped(h, skipped >= USIZE_MAX), false, SaturatingIncrement(skipped))
  {
    DroppedFates(h, skipped >= USIZE_MAX);
    DroppedCounts(h, skipped);
    DroppedKinds(h, skipped >= USIZE_MAX);
    GapDrop(h.log, h.dropped, h.lost, |h.inputs| - 1, skipped);
  }

  lemma {:induction false} AbandonedKeeps(h: History, skipped: nat)
    requires HistoryInv(h, true, skipped)
    ensures HistoryInv(h.(abandoned := Some(|h.inputs| - 1)), false, skipped)
  {
    var h' := h.(abandoned := Some(|h.inputs| - 1));
    assert FateInv(h', false) by {
      assert forall k: nat :: Fates(h', false, k) == Fates(h, true, k);
    }
  }

  // ----------------------------------------------------------- over whole runs

  lemma {:induction false} PollKeepsChannel(s: State)
    requires ChannelInv(s) && PendingInv(s.h, s.phase != Idle) && s.phase != Idle
    ensures ChannelInv(PollStep(s))
  {
  }

  lemma {:induction false} PopKeepsChannel(s: State)
    requires ChannelInv(s) && s.open && |s.queue| > 0
    ensures ChannelInv(Step(s, Pop))
  {
  }

  lemma {:induction false} PollKeepsInv(s: State)
    requires Inv(s) && s.phase != Idle
    ensures Inv(PollStep(s))
  {
    PollKeepsChannel(s);
    if !s.open { AbandonedKeeps(s.h, s.skipped); }
    else if Full(s) {
      if !RequiresDelivery(Last(s.h.inputs)) { DroppedKeeps(s.h, s.skipped); }
    }
    else if s.phase == Flushing { MarkerKeeps(s.h, s.skipped); }
    else { DeliveredKeeps(s.h); }
  }

  lemma {:induction false} TakeKeepsInv(s: State, e: Event)
    requires Inv(s) && s.streamEnabled && s.phase == Idle
    ensures Inv(TakeStep(s, e))
  {
    if IsAuthRefresh(e) { UnsupportedKeeps(s.h, s.skipped, e); } else { TakenKeeps(s.h, s.skipped, e); }
  }

  lemma {:induction false} StepKeepsInv(s: State, a: Action)
    requires Inv(s)
    ensures Inv(Step(s, a))
  {
    match a
    case Take(e) =>
      if s.running && s.streamEnabled && s.phase == Idle { TakeKeepsInv(s, e); }
    case Poll =>
      if s.phase != Idle { PollKeepsInv(s); }
    case Pop =>
      if s.open && |s.queue| > 0 { PopKeepsChannel(s); }
    case _ =>
  }

  lemma {:induction false} RunKeepsInv(capacity: nat, actions: seq<Action>)
    ensures Inv(Run(Init(capacity), actions))
    decreases |actions|
  {
    if |actions| > 0 {
      RunKeepsInv(capacity, Front(actions));
      StepKeepsInv(Run(Init(capacity), Front(actions)), Last(actions));
    }
  }

  // ------------------------------------------------------------- main results

  lemma {:induction false} EnqueuedMeansInLog(log: seq<Entry>, k: nat)
    requires Enqueued(log, k) > 0
    ensures exists p :: 0 <= p < |log| && log[p].Real? && log[p].index == k
  {
    if !(Last(log).Real? && Last(log).index == k) {
      EnqueuedMeansInLog(Front(log), k);
      var p :| 0 <= p < |Front(log)| && Front(log)[p].Real? && Front(log)[p].index == k;
      assert log[p].Real? && log[p].index == k;
    }
  }

  /**
    Conservation. In every run, each event handed to the forwarder and settled is a real
    event of the log, is counted by a marker of the log, is counted in `skipped_events`, or
    is one of the drops that came when the counter could no longer grow; there are none of
    the last kind unless more than USIZE_MAX events were dropped.
   */
  lemma {:induction false} Conservation(capacity: nat, actions: seq<Action>)
    ensures var s := Run(Init(capacity), actions);
            && Forwarded(Decided(s.h, s.phase != Idle))
               == |RealEvents(s.h.log)| + MarkerTotal(s.h.log) + s.skipped + |s.h.lost|
            && (|s.h.dropped| <= USIZE_MAX ==> s.h.lost == [])
  {
    RunKeepsInv(capacity, actions);
  }

  /** The log names its inputs at strictly growing positions. */
  ghost predicate SubsequenceOf(log: seq<Entry>, inputs: seq<Event>) {
    && (forall p :: 0 <= p < |log| && log[p].Real? ==> log[p].index < |inputs| && inputs[log[p].index] == log[p].event)
    && (forall p, q :: 0 <= p < q < |log| && log[p].Real? && log[q].Real? ==> log[p].index < log[q].index)
  }

  /**
    The lossless tier. In every run the must-deliver events put in the queue are exactly the
    must-deliver events settled so far, in order; the real events are a subsequence of the
    inputs; the consumer has received a prefix of the log and, while it is open, the queue
    holds exactly the rest, never more than the capacity.
   */
  lemma {:induction false} LosslessTier(capacity: nat, actions: seq<Action>)
    ensures var s := Run(Init(capacity), actions);
            && Lossless(RealEvents(s.h.log)) == Lossless(Decided(s.h, s.phase != Idle))
            && SubsequenceOf(s.h.log, s.h.inputs)
            && s.seen <= s.h.log
            && (s.open ==> s.seen + s.queue == s.h.log && s.h.abandoned.None?)
            && |s.queue| <= s.capacity
            && (forall d :: d in s.h.dropped ==> d < |s.h.inputs| && !RequiresDelivery(s.h.inputs[d]))
  {
    RunKeepsInv(capacity, actions);
  }

  /** At some moment of the run a state satisfying the guard was polled. */
  predicate PolledWhen(capacity: nat, actions: seq<Action>, guard: State -> bool)
    decreases |actions|
  {
    |actions| > 0 &&
    (PolledWhen(capacity, Front(actions), guard)
     || (Last(actions) == Poll && guard(Run(Init(capacity), Front(actions)))))
  }

  /** The same, as a position in the run. */
  lemma {:induction false} PolledWhenMeans(capacity: nat, actions: seq<Action>, guard: State -> bool)
    ensures PolledWhen(capacity, actions, guard)
            <==> exists n :: 0 <= n < |actions| && actions[n] == Poll && guard(Run(Init(capacity), actions[..n]))
    decreases |actions|
  {
    if |actions| > 0 {
      var before := Front(actions);
      PolledWhenMeans(capacity, before, guard);
      assert actions[..|actions| - 1] == before;
      assert forall n :: 0 <= n < |before| ==> actions[n] == before[n] && actions[..n] == before[..n];
    }
  }

  /** The call for input `k` is under way and the consumer is gone. */
  function ClosedOn(k: nat): State -> bool {
    (s: State) => s.phase != Idle && !s.open && |s.h.inputs| == k + 1
  }

  /** No call is under way once one was given up, and a call under way has an input. */
  ghost predicate CallInv(s: State) {
    (s.h.abandoned.Some? ==> s.phase == Idle) && (s.phase != Idle ==> |s.h.inputs| > 0) && s.skipped <= USIZE_MAX
  }

  lemma {:induction false} RunKeepsCallInv(capacity: nat, actions: seq<Action>)
    ensures CallInv(Run(Init(capacity), actions))
  {
    RunKeepsInv(capacity, actions);
  }

  lemma {:induction false} StepAbandons(s: State, a: Action, k: nat)
    requires CallInv(s)
    ensures Step(s, a).h.abandoned == Some(k) <==> s.h.abandoned == Some(k) || (a == Poll && ClosedOn(k)(s))
  {
  }

  /** A call is given up exactly when a poll of it finds the consumer gone. */
  lemma {:induction false} GivenUpExactly(capacity: nat, actions: seq<Action>, k: nat)
    ensures Run(Init(capacity), actions).h.abandoned == Some(k) <==> PolledWhen(capacity, actions, ClosedOn(k))
    decreases |actions|
  {
    if |actions| > 0 {
      var before, a := Front(actions), Last(actions);
      GivenUpExactly(capacity, before, k);
      RunKeepsCallInv(capacity, before);
      StepAbandons(Run(Init(capacity), before), a, k);
    }
  }

  lemma {:induction false} RequestFate(h: History, busy: bool, k: nat)
    requires PendingInv(h, busy) && FateInv(h, busy) && KindInv(h) && OrderInv(h, busy)
    requires k < |h.inputs| && h.inputs[k].Request?
    ensures var answered := Enqueued(h.log, k) + Refused(h.rejections, k);
            && answered == 1 - (if (busy && k == |h.inputs| - 1) || h.abandoned == Some(k) then 1 else 0)
            && (IsAuthRefresh(h.inputs[k]) ==> Refused(h.rejections, k) == 1)
  {
    assert Fates(h, busy, k) == 1;
    if IsAuthRefresh(h.inputs[k]) {
      OccursMeansIn(h.dropped, k);
      if Enqueued(h.log, k) > 0 { EnqueuedMeansInLog(h.log, k); }
      assert Enqueued(h.log, k) == 0 && Occurs(h.dropped, k) == 0;
    }
  }

  /**
    Server requests. In every run a request taken from the runtime is in the queue once, or
    refused once, and never both. It is neither exactly while its call is under way, or if a
    poll of its call found the consumer gone. A refusal carries the request's own id and the
    code that says why.
   */
  lemma {:induction false} RequestPartition(capacity: nat, actions: seq<Action>, k: nat)
    requires var h := Run(Init(capacity), actions).h; k < |h.inputs| && h.inputs[k].Request?
    ensures var s := Run(Init(capacity), actions);
            var answered := Enqueued(s.h.log, k) + Refused(s.h.rejections, k);
            && answered <= 1
            && (answered == 0
                <==> (s.phase != Idle && k == |s.h.inputs| - 1) || PolledWhen(capacity, actions, ClosedOn(k)))
            && (s.open && s.phase == Idle ==> answered == 1)
            && (s.h.inputs[k].request.ChatgptAuthTokensRefresh? ==> Refused(s.h.rejections, k) == 1)
            && (forall r :: r in s.h.rejections && r.index == k ==>
                  && r.id == s.h.inputs[k].request.id
                  && r.code == if s.h.inputs[k].request.ChatgptAuthTokensRefresh? then -32000 else -32001)
  {
    GivenUpExactly(capacity, actions, k);
    RunKeepsInv(capacity, actions);
    var s := Run(Init(capacity), actions);
    RequestFate(s.h, s.phase != Idle, k);
  }

  /** A request can go unanswered: the consumer closes while its call is under way. */
  lemma {:induction false} ClosedConsumerLeavesRequestUnanswered(id: RequestId)
    ensures var s := Run(Init(1), [Take(Request(OtherRequest(id, "approval"))), CloseConsumer, Poll]);
            && s.phase == Idle && s.h.inputs == [Request(OtherRequest(id, "approval"))]
            && Enqueued(s.h.log, 0) + Refused(s.h.rejections, 0) == 0
  {
    var e := Request(OtherRequest(id, "approval"));
    var s1 := Step(Init(1), Take(e));
    var s2 := Step(s1, CloseConsumer);
    RunThree(Init(1), Take(e), CloseConsumer, Poll);
    assert Step(s2, Poll) == Abandon(s2);
  }

  lemma {:induction false} RunThree(s: State, a: Action, b: Action, c: Action)
    ensures Run(s, [a, b, c]) == Step(Step(Step(s, a), b), c)
  {
    assert [a] + [b, c] == [a, b, c] && Front([a]) == [];
    RunTwoMore(s, [a], b, c);
    assert Run(s, [a]) == Step(Run(s, []), a);
  }

  lemma {:induction false} RunTwoMore(s: State, actions: seq<Action>, a: Action, b: Action)
    ensures Run(s, actions + [a, b]) == Step(Step(Run(s, actions), a), b)
  {
    assert Front(actions + [a, b]) == actions + [a] && Front(actions + [a]) == actions;
  }

  /** Room is made, and the pending send goes through. */
  lemma {:induction false} PopThenPoll(s: State)
    requires s.open && |s.h.inputs| > 0 && 1 <= s.capacity && |s.queue| <= s.capacity
    ensures var s1 := Step(s, Pop);
            && s1.open && s1.h == s.h && s1.phase == s.phase && s1.skipped == s.skipped
            && s1.capacity == s.capacity && s1.streamEnabled == s.streamEnabled && |s1.queue| < s1.capacity
            && Step(s1, Poll) == if s.phase == Idle then s1
                                 else if s.phase == Flushing then FlushMarker(s1) else Deliver(s1)
  {
  }

  /** A call always finishes, and delivers its event, once the consumer makes room twice. */
  lemma {:induction false} CallCompletes(s: State)
    requires Inv(s) && s.open && s.phase != Idle
    ensures var t := Step(Step(Step(Step(s, Pop), Poll), Pop), Poll);
            && t.phase == Idle && t.streamEnabled && t.open
            && |t.h.log| > |s.h.log| && Last(t.h.log) == Current(s.h)
            && t.h.dropped == s.h.dropped
  {
    PopThenPoll(s);
    PopThenPoll(Step(Step(s, Pop), Poll));
  }
}
