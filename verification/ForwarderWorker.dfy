/**
  The worker of the in-process client as an object: the fields the worker owns, and one
  method for each point at which it (or the consumer) does something. The ghost fields
  remember the history that the specification in `Forwarder` speaks about. Every method
  performs exactly one `Forwarder.Step`, so whatever `Forwarder` proves of all runs holds
  of every sequence of calls.
 */
module ForwarderWorker {
  import opened Prelude
  import opened Forwarder

  /** What the caller of `forward_in_process_event` is told. */
  datatype ForwardEventResult = Continue | DisableStream

  /** One poll of a call: still waiting (or half way), or finished. */
  datatype PollOutcome = Pending | Ready(result: ForwardEventResult)

  /** A call of `fail_server_request`. */
  datatype Failure = Failure(id: RequestId, code: int)

  class Worker {
    const capacity: nat
    var open: bool
    var queue: seq<Entry>
    var running: bool
    var eventStreamEnabled: bool
    var skippedEvents: nat
    var phase: Phase
    var current: Option<Event>
    var taken: nat
    ghost var seen: seq<Entry>
    ghost var history: History

    ghost function Abstract(): State
      reads this
    {
      State.State(capacity, open, queue, seen, running, eventStreamEnabled, skippedEvents, phase, history)
    }

    ghost predicate Valid()
      reads this
    {
      && taken == |history.inputs|
      && (phase != Idle ==> taken > 0 && current == Some(Last(history.inputs)))
    }

    constructor (channelCapacity: nat)
      ensures Valid() && Abstract() == Init(channelCapacity)
    {
      capacity := if channelCapacity < 1 then 1 else channelCapacity;
      open, queue, running, eventStreamEnabled := true, [], true, true;
      skippedEvents, phase, current, taken := 0, Idle, None, 0;
      seen := [];
      history := History([], [], [], [], None, [], []);
    }

    /** The event branch of the worker's select loop. */
    method Take(event: Event) returns (failed: Option<Failure>)
      requires Valid() && running && eventStreamEnabled && phase == Idle
      modifies this
      ensures Valid() && Abstract() == Step(old(Abstract()), Action.Take(event))
      ensures failed == if IsAuthRefresh(event) then Some(Failure(event.request.id, UNSUPPORTED_CODE)) else None
    {
      failed := None;
      if event.Request? && event.request.ChatgptAuthTokensRefresh? {
        failed := Some(Failure(event.request.id, UNSUPPORTED_CODE));
        history := RecordUnsupported(history, event);
      } else {
        current := Some(event);
        phase := if skippedEvents > 0 then Flushing else Sending;
        history := history.(inputs := history.inputs + [event]);
      }
      taken := taken + 1;
    }

    /** One poll of the send that the call under way is waiting for. */
    method Poll() returns (outcome: PollOutcome, failed: Option<Failure>)
      requires Valid() && phase != Idle
      modifies this
      ensures Valid() && Abstract() == Step(old(Abstract()), Action.Poll)
      ensures outcome.Pending? <==> phase != Idle
      ensures outcome == Ready(DisableStream) <==> !old(open)
      ensures failed.Some? <==> |history.rejections| == |old(history).rejections| + 1
      ensures failed.Some? ==>
                history.rejections
                == old(history).rejections + [Rejection(taken - 1, failed.value.id, failed.value.code)]
    {
      outcome, failed := Pending, None;
      var event := current.value;
      if !open {
        eventStreamEnabled, phase := false, Idle;
        history := history.(abandoned := Some(|history.inputs| - 1));
        outcome := Ready(DisableStream);
      } else if |queue| < capacity {
        if phase == Flushing {
          Push(Marker(skippedEvents));
          skippedEvents, phase := 0, Sending;
        } else {
          Push(Real(taken - 1, event));
          phase, outcome := Idle, Ready(Continue);
        }
      } else if !RequiresDelivery(event) {
        history := RecordDropped(history, skippedEvents >= USIZE_MAX);
        skippedEvents := if skippedEvents < USIZE_MAX then skippedEvents + 1 else skippedEvents;
        if event.Request? {
          failed := Some(Failure(event.request.id, OVERLOAD_CODE));
        }
        phase, outcome := Idle, Ready(Continue);
      }
    }

    method Push(entry: Entry)
      modifies this`queue, this`history
      ensures queue == old(queue) + [entry] && history == RecordEnqueued(old(history), entry)
    {
      queue := queue + [entry];
      history := RecordEnqueued(history, entry);
    }

    /** The consumer's `next_event`. */
    method Pop() returns (event: Option<Event>)
      requires Valid() && open
      modifies this
      ensures Valid() && Abstract() == Step(old(Abstract()), Action.Pop)
      ensures event == if |old(queue)| > 0 then Some(Payload(old(queue)[0])) else None
    {
      if |queue| == 0 {
        event := None;
      } else {
        event := Some(Payload(queue[0]));
        seen := seen + [queue[0]];
        queue := queue[1..];
      }
    }

    method CloseConsumer()
      requires Valid()
      modifies this
      ensures Valid() && Abstract() == Step(old(Abstract()), Action.CloseConsumer)
    {
      open, queue := false, [];
    }

    /** Shutdown, or the end of the runtime's stream; the select loop only notices between calls. */
    method Exit()
      requires Valid() && phase == Idle
      modifies this
      ensures Valid() && Abstract() == Step(old(Abstract()), Action.Exit)
    {
      running := false;
    }
  }
}
