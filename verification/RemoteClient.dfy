/** The remote client as an object. */
module RemoteClient {
  import opened Prelude
  import opened RemoteCalls
  import opened RemoteWorker
  import opened RemoteHandshake

  /**
    The remote client: the fields the worker and the consumer handle own. What the
    worker sends to callers and to the server is appended to `effects`. Every method
    performs one `RemoteWorker.Step` (`DrainPending` a whole run of them), so what
    `RemoteWorker` proves of all runs holds of every sequence of calls.
   */
  class Client {
    const capacity: nat
    var phase: Phase
    var submitted: seq<RemoteCalls.Command>
    var blocked: seq<nat>
    var commands: seq<nat>
    var pendingRequests: map<RequestId, nat>
    var effects: seq<Effect>
    var pendingEvents: seq<RemoteWorker.Event>
    var events: seq<RemoteWorker.Event>
    var consumerOpen: bool
    var workerExitError: Option<IoError>
    ghost var consumed: seq<Frame>
    ghost var seen: seq<RemoteWorker.Event>

    ghost function Abstract(): State
      reads this
    {
      State(phase, Calls(capacity, submitted, blocked, commands, pendingRequests, effects),
            Stream(consumed, pendingEvents, events, seen, consumerOpen, workerExitError))
    }

    /** The worker starts from a successful handshake over `inbound[..used]`. */
    constructor (channelCapacity: nat, inbound: seq<Inbound>, used: nat, buffered: seq<RemoteWorker.Event>)
      requires used <= |inbound| && buffered == EventsOf(Frames(inbound[..used]))
      ensures Abstract() == Start(channelCapacity, Frames(inbound[..used]), EventsOf(Frames(inbound[..used])))
      ensures Inv(Abstract())
    {
      capacity := if channelCapacity < 1 then 1 else channelCapacity;
      phase, submitted, blocked, commands := Running, [], [], [];
      pendingRequests, effects, pendingEvents, events := map[], [], buffered, [];
      consumerOpen, workerExitError := true, None;
      consumed, seen := Frames(inbound[..used]), [];
      new;
      StartInv(channelCapacity, Frames(inbound[..used]));
    }

    method Answer(caller: nat, outcome: Outcome)
      modifies this`effects
      ensures effects == old(effects) + [Answered(caller, outcome)]
    {
      effects := effects + [Answered(caller, outcome)];
    }

    method Write(caller: Option<nat>, message: Message, io: Io)
      modifies this`effects
      ensures effects == old(effects) + [Wrote(caller, message, io.IoOk?)]
    {
      effects := effects + [Wrote(caller, message, io.IoOk?)];
    }

    /** Leaves the loop; with an error, the consumer is told first. */
    method Exit(error: Option<IoError>)
      modifies this`phase, this`workerExitError, this`events
      ensures Abstract() == Proceed(old(Abstract()), Break(error))
    {
      if error.Some? && consumerOpen {
        events := events + [Disconnected(error.value.reason)];
      }
      workerExitError, phase := error, Draining;
    }

    method Submit(command: RemoteCalls.Command) returns (caller: nat)
      modifies this
      ensures Abstract() == Step(old(Abstract()), Action.Submit(command)) && caller == |old(submitted)|
    {
      caller := |submitted|;
      submitted := submitted + [command];
      if phase == Done {
        Answer(caller, Failed(IoError(BrokenPipe, WorkerChannelClosed)));
      } else if |commands| < capacity && |blocked| == 0 {
        commands := commands + [caller];
      } else {
        blocked := blocked + [caller];
      }
    }

    method Admit()
      modifies this
      ensures Abstract() == Step(old(Abstract()), Action.Admit)
    {
      if |blocked| > 0 && |commands| < capacity {
        blocked, commands := blocked[1..], commands + [blocked[0]];
      }
    }

    /** A request: refused if its id is in flight, else registered and written. */
    method SendRequest(caller: nat, id: RequestId, body: string, io: Io)
      modifies this
      ensures var c := HandleRequest(old(Abstract()).calls, caller, id, body, io);
              Abstract() == Proceed(old(Abstract()).(calls := c.0), c.1)
    {
      if id in pendingRequests {
        Answer(caller, Failed(IoError(InvalidInput, DuplicateId(id))));
        return;
      }
      ghost var before := pendingRequests;
      pendingRequests := pendingRequests[id := caller];
      Write(Some(caller), RequestMessage(id, body), io);
      if io.IoFailed? {
        assert before[id := caller] - {id} == before;
        pendingRequests := pendingRequests - {id};
        Answer(caller, Failed(WriteError(io)));
        Exit(Some(IoError(BrokenPipe, DisconnectedByWrite(io.err))));
      }
    }

    method WriteThenAnswer(caller: nat, message: Message, io: Io)
      modifies this`effects
      ensures Abstract() == old(Abstract()).(calls := WriteAndAnswer(old(Abstract()).calls, caller, message, io))
    {
      Write(Some(caller), message, io);
      Answer(caller, WriteOutcome(io));
    }

    /** The command branch of the worker's select loop. */
    method HandleNextCommand(io: Io)
      requires phase == Running && |commands| > 0 && commands[0] < |submitted|
      modifies this
      ensures Abstract() == Step(old(Abstract()), Action.Command(io))
    {
      var caller := commands[0];
      commands := commands[1..];
      match submitted[caller]
      case Request(id, body) => SendRequest(caller, id, body, io);
      case Notify(body) => WriteThenAnswer(caller, NotificationMessage(body), io);
      case ResolveServerRequest(id, result) => WriteThenAnswer(caller, ResponseMessage(id, result), io);
      case RejectServerRequest(id, error) => WriteThenAnswer(caller, ErrorMessage(id, error), io);
      case Shutdown =>
        Answer(caller, if io.IoOk? || io.alreadyClosed then Sent else Failed(IoError(OtherKind, CloseFailed(io.err))));
        Exit(None);
    }

    method SettleCaller(id: RequestId, outcome: Outcome)
      modifies this`pendingRequests, this`effects
      ensures Abstract() == old(Abstract()).(calls := Settle(old(Abstract()).calls, id, outcome))
    {
      if id in pendingRequests {
        Answer(pendingRequests[id], outcome);
        pendingRequests := pendingRequests - {id};
      }
    }

    /** Hands an event to the consumer, or leaves the loop if there is none. */
    method Deliver(event: RemoteWorker.Event)
      modifies this`phase, this`workerExitError, this`events
      ensures old(consumerOpen) ==>
                Abstract() == old(Abstract()).(stream := old(Abstract()).stream.(channel := old(events) + [event]))
      ensures !old(consumerOpen) ==> Abstract() == Proceed(old(Abstract()), Break(None))
    {
      if consumerOpen {
        events := events + [event];
      } else {
        Exit(None);
      }
    }

    /** An unsupported server request is answered by the worker itself. */
    method RefuseRequest(id: RequestId, name: string, io: Io)
      modifies this
      ensures var calls := RemoteCalls.Write(old(Abstract()).calls, None, MethodNotFound(id, name), io);
              Abstract() == Proceed(old(Abstract()).(calls := calls),
                                    if io.IoOk? then Continue
                                    else Break(Some(IoError(BrokenPipe, DisconnectedByWrite(io.err)))))
    {
      Write(None, MethodNotFound(id, name), io);
      if io.IoFailed? {
        Exit(Some(IoError(BrokenPipe, DisconnectedByWrite(io.err))));
      }
    }

    /** The frame branch of the worker's select loop. */
    method HandleFrame(frame: Frame, io: Io)
      requires phase == Running
      modifies this
      ensures Abstract() == Step(old(Abstract()), Action.Receive(frame, io))
    {
      consumed := consumed + [frame];
      match frame
      case ResponseFrame(id, result) => SettleCaller(id, Reply(id, result));
      case ErrorFrame(id, error) => SettleCaller(id, ServerError(id, error));
      case NotificationFrame(notification) =>
        if notification.Some? { Deliver(ServerNotification(notification.value)); }
      case RequestFrame(id, name, request) =>
        if request.Some? {
          Deliver(ServerRequest(id, request.value));
        } else {
          RefuseRequest(id, name, io);
        }
      case InvalidText(err) => Exit(Some(IoError(InvalidData, InvalidJsonRpc(err))));
      case CloseFrame(reason) => Exit(Some(IoError(ConnectionAborted, PeerClosed(CloseReason(reason)))));
      case ControlFrame =>
      case TransportError(err) => Exit(Some(IoError(InvalidData, TransportFailed(err))));
      case EndOfStream => Exit(Some(IoError(UnexpectedEof, StreamEnded)));
    }

    /** After the loop: fail whoever is pending, in the map's arbitrary order. */
    method DrainPending() returns (ghost actions: seq<Action>)
      requires phase == Draining
      modifies this
      ensures phase == Draining && pendingRequests == map[] && Abstract() == Run(old(Abstract()), actions)
    {
      actions := [];
      while pendingRequests.Keys != {}
        invariant phase == Draining && Abstract() == Run(old(Abstract()), actions)
        decreases pendingRequests.Keys
      {
        var id :| id in pendingRequests;
        RunAppend(old(Abstract()), actions, Drain(id));
        DrainOne(id);
        actions := actions + [Drain(id)];
      }
    }

    method DrainOne(id: RequestId)
      requires phase == Draining && id in pendingRequests
      modifies this`pendingRequests, this`effects
      ensures Abstract() == Step(old(Abstract()), Drain(id))
      ensures pendingRequests.Keys == old(pendingRequests).Keys - {id}
    {
      var error := if workerExitError.Some? then workerExitError.value else IoError(BrokenPipe, WorkerChannelClosed);
      SettleCaller(id, Failed(error));
    }

    /** The worker ends: its end of the command channel is dropped with whatever is in it. */
    method EndTask()
      requires phase == Draining && pendingRequests == map[]
      modifies this
      ensures phase == Done && Abstract() == Step(old(Abstract()), Finish)
    {
      effects := effects + AnswerEach(commands, Failed(IoError(BrokenPipe, ReplyChannelClosed)))
                         + AnswerEach(blocked, Failed(IoError(BrokenPipe, WorkerChannelClosed)));
      commands, blocked, phase := [], [], Done;
    }

    /** From wherever the loop was left: the worker ends and every call has its one answer. */
    method RunToTheEnd() returns (ghost actions: seq<Action>)
      requires phase == Draining && Inv(Abstract())
      modifies this
      ensures phase == Done && Abstract() == Run(old(Abstract()), actions)
      ensures forall w: nat :: w < |submitted| ==> Answers(effects, w) == 1
    {
      actions := DrainPending();
      RunAppend(old(Abstract()), actions, Finish);
      EndTask();
      actions := actions + [Finish];
      RunFromKeepsInv(old(Abstract()), actions);
      AllAnswered(Abstract());
    }

    /** The consumer's `next_event`: the handshake's leftovers first, then the channel. */
    method NextEvent() returns (event: Option<RemoteWorker.Event>)
      requires consumerOpen
      modifies this
      ensures Abstract() == Step(old(Abstract()), Action.NextEvent)
      ensures event.Some? ==> seen == old(seen) + [event.value]
      ensures event.None? ==> Abstract() == old(Abstract())
    {
      if |pendingEvents| > 0 {
        event := Some(pendingEvents[0]);
        pendingEvents, seen := pendingEvents[1..], seen + [pendingEvents[0]];
      } else if |events| > 0 {
        event := Some(events[0]);
        events, seen := events[1..], seen + [events[0]];
      } else {
        event := None;
      }
    }

    method DropConsumer()
      modifies this
      ensures Abstract() == Step(old(Abstract()), Action.DropConsumer)
    {
      consumerOpen, pendingEvents, events := false, [], [];
    }
  }

  lemma {:induction false} AllAnswered(s: State)
    requires Inv(s) && s.phase == Done
    ensures forall w: nat :: w < |s.calls.submitted| ==> Answers(s.calls.effects, w) == 1
  {
    forall w: nat | w < |s.calls.submitted|
      ensures Answers(s.calls.effects, w) == 1
    {
      assert Places(s.calls, w) == 1;
    }
  }
}
