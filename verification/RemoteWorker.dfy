/**
  The worker of the remote client: commands from callers, frames from the server, events to
  the consumer. Frames are taken as already decoded; what a write or close returned is part
  of the action. A run is any sequence of actions; an action that is not enabled changes
  nothing.
 */
module RemoteWorker {
  import opened Prelude
  import opened RemoteCalls

  datatype Frame =
    | ResponseFrame(id: RequestId, result: string)
    | ErrorFrame(id: RequestId, error: string)
    | NotificationFrame(notification: Option<string>)                      // None: not a known notification
    | RequestFrame(id: RequestId, name: string, request: Option<string>)   // None: unsupported method
    | InvalidText(err: string)
    | CloseFrame(reason: Option<string>)
    | ControlFrame                                                         // binary, ping, pong, raw frame
    | TransportError(err: string)
    | EndOfStream

  datatype Event =
    | ServerNotification(body: string)
    | ServerRequest(id: RequestId, body: string)
    | Disconnected(reason: Reason)

  /** The event a frame stands for, if any. */
  function EventOf(f: Frame): Option<Event> {
    match f
    case NotificationFrame(Some(body)) => Some(ServerNotification(body))
    case RequestFrame(id, _, Some(body)) => Some(ServerRequest(id, body))
    case _ => None
  }

  function EventsOf(fs: seq<Frame>): seq<Event> {
    if |fs| == 0 then []
    else match EventOf(Last(fs))
         case Some(e) => EventsOf(Front(fs)) + [e]
         case None => EventsOf(Front(fs))
  }

  function CloseReason(reason: Option<string>): string {
    if reason.Some? && |reason.value| > 0 then reason.value else "connection closed"
  }

  datatype Phase = Running | Draining | Done

  datatype Stream = Stream(
    consumed: seq<Frame>,      // frames read from the socket, the handshake's included
    buffer: seq<Event>,        // left over from the handshake
    channel: seq<Event>,       // the worker's event channel
    seen: seq<Event>,          // what `next_event` has returned
    open: bool,
    exit: Option<IoError>)     // the worker's exit error

  datatype State = State(phase: Phase, calls: Calls, stream: Stream)

  datatype Action =
    | Submit(command: Command)           // a caller makes a call
    | Admit                              // a blocked caller gets into the command channel
    | Command(io: Io)                    // the worker handles the oldest command
    | SendersGone                        // every command sender was dropped
    | Receive(frame: Frame, reply: Io)   // the worker handles the next frame
    | Drain(id: RequestId)               // after the loop: one pending caller is failed
    | Finish                             // the worker ends
    | NextEvent                          // the consumer takes an event
    | DropConsumer                       // the consumer drops its end

  /** After a handshake that read `frames` and buffered their events. */
  function Start(capacity: nat, frames: seq<Frame>, events: seq<Event>): State {
    State(Running, NoCalls(capacity), Stream(frames, events, [], [], true, None))
  }

  // ------------------------------------------------------------------- steps

  function Leave(st: Stream, error: Option<IoError>): Stream {
    st.(exit := error,
        channel := if error.Some? && st.open then st.channel + [Disconnected(error.value.reason)] else st.channel)
  }

  function Proceed(s: State, next: Next): State {
    match next
    case Continue => s
    case Break(error) => s.(phase := Draining, stream := Leave(s.stream, error))
  }

  function ReceiveCalls(c: Calls, f: Frame, io: Io): Calls {
    match f
    case ResponseFrame(id, result) => Settle(c, id, Reply(id, result))
    case ErrorFrame(id, error) => Settle(c, id, ServerError(id, error))
    case RequestFrame(id, name, None) => RemoteCalls.Write(c, None, MethodNotFound(id, name), io)
    case _ => c
  }

  function ReceiveNext(f: Frame, open: bool, io: Io): Next {
    match f
    case RequestFrame(_, _, None) =>
      if io.IoOk? then Continue else Break(Some(IoError(BrokenPipe, DisconnectedByWrite(io.err))))
    case InvalidText(err) => Break(Some(IoError(InvalidData, InvalidJsonRpc(err))))
    case CloseFrame(reason) => Break(Some(IoError(ConnectionAborted, PeerClosed(CloseReason(reason)))))
    case TransportError(err) => Break(Some(IoError(InvalidData, TransportFailed(err))))
    case EndOfStream => Break(Some(IoError(UnexpectedEof, StreamEnded)))
    case _ => if EventOf(f).Some? && !open then Break(None) else Continue
  }

  function ReceiveStream(st: Stream, f: Frame): Stream {
    st.(consumed := st.consumed + [f],
        channel := if EventOf(f).Some? && st.open then st.channel + [EventOf(f).value] else st.channel)
  }

  /** The error that callers still pending at exit get. */
  function ExitError(exit: Option<IoError>): IoError {
    if exit.Some? then exit.value else IoError(BrokenPipe, WorkerChannelClosed)
  }

  function NextEventStep(st: Stream): Stream {
    if !st.open then st
    else if |st.buffer| > 0 then st.(buffer := st.buffer[1..], seen := st.seen + [st.buffer[0]])
    else if |st.channel| > 0 then st.(channel := st.channel[1..], seen := st.seen + [st.channel[0]])
    else st
  }

  function Step(s: State, a: Action): State {
    match a
    case Submit(command) => s.(calls := RemoteCalls.Submit(s.calls, command, s.phase == Done))
    case Admit => s.(calls := RemoteCalls.Admit(s.calls))
    case Command(io) =>
      if s.phase == Running && |s.calls.queue| > 0 && s.calls.queue[0] < |s.calls.submitted| then
        var (c, next) := HandleCommand(s.calls, io);
        Proceed(s.(calls := c), next)
      else s
    case SendersGone =>
      if s.phase == Running && s.calls.queue == [] && s.calls.blocked == [] then Proceed(s, Break(None)) else s
    case Receive(f, io) =>
      if s.phase == Running then
        Proceed(s.(calls := ReceiveCalls(s.calls, f, io), stream := ReceiveStream(s.stream, f)),
                ReceiveNext(f, s.stream.open, io))
      else s
    case Drain(id) =>
      if s.phase == Draining then s.(calls := Settle(s.calls, id, Failed(ExitError(s.stream.exit)))) else s
    case Finish =>
      if s.phase == Draining && s.calls.pending == map[] then s.(phase := Done, calls := DropChannel(s.calls)) else s
    case NextEvent => s.(stream := NextEventStep(s.stream))
    case DropConsumer => s.(stream := s.stream.(open := false, buffer := [], channel := []))
  }

  function Run(s: State, actions: seq<Action>): State
    decreases |actions|
  {
    if |actions| == 0 then s else Step(Run(s, Front(actions)), Last(actions))
  }

  // -------------------------------------------------------------- invariants

  ghost predicate CallInv(c: Calls) {
    KeyInv(c) && PlaceInv(c) && RouteInv(c)
  }

  function Tail(exit: Option<IoError>): seq<Event> {
    if exit.Some? then [Disconnected(exit.value.reason)] else []
  }

  /** Everything the consumer is owed, in order. */
  function Owed(st: Stream): seq<Event> {
    EventsOf(st.consumed) + Tail(st.exit)
  }

  ghost predicate StreamInv(st: Stream, phase: Phase) {
    && st.seen <= Owed(st)
    && (st.open ==> st.seen + st.buffer + st.channel == Owed(st))
    && (st.exit.Some? ==> phase != Running)
  }

  /** Every server answer was carried by a frame. */
  ghost predicate SourceInv(effects: seq<Effect>, consumed: seq<Frame>) {
    forall r :: 0 <= r < |effects| && IsRouted(effects[r]) ==>
      match effects[r].outcome
      case Reply(id, result) => ResponseFrame(id, result) in consumed
      case ServerError(id, error) => ErrorFrame(id, error) in consumed
      case _ => true
  }

  ghost predicate DoneInv(s: State) {
    s.phase == Done ==> s.calls.queue == [] && s.calls.blocked == [] && s.calls.pending == map[]
  }

  ghost predicate Inv(s: State) {
    CallInv(s.calls) && StreamInv(s.stream, s.phase) && SourceInv(s.calls.effects, s.stream.consumed) && DoneInv(s)
  }

  lemma {:induction false} EventsAppend(fs: seq<Frame>, f: Frame)
    ensures EventsOf(fs + [f]) == if EventOf(f).Some? then EventsOf(fs) + [EventOf(f).value] else EventsOf(fs)
  {
  }

  // ------------------------------------------------------------ the calls side

  lemma {:induction false} CommandKeepsCalls(c: Calls, io: Io, consumed: seq<Frame>)
    requires CallInv(c) && SourceInv(c.effects, consumed) && |c.queue| > 0 && c.queue[0] < |c.submitted|
    ensures CallInv(HandleCommand(c, io).0) && SourceInv(HandleCommand(c, io).0.effects, consumed)
  {
    HandleCommandPlaces(c, io);
    HandleCommandRoutes(c, io);
    CommandSources(c, io, consumed);
  }

  lemma {:induction false} CommandSources(c: Calls, io: Io, consumed: seq<Frame>)
    requires SourceInv(c.effects, consumed) && |c.queue| > 0 && c.queue[0] < |c.submitted|
    ensures SourceInv(HandleCommand(c, io).0.effects, consumed)
  {
  }

  lemma {:induction false} ReceiveKeepsCalls(c: Calls, f: Frame, io: Io, consumed: seq<Frame>)
    requires CallInv(c) && SourceInv(c.effects, consumed)
    ensures CallInv(ReceiveCalls(c, f, io)) && SourceInv(ReceiveCalls(c, f, io).effects, consumed + [f])
  {
    ReceiveSources(c, f, io, consumed);
    match f
    case ResponseFrame(id, result) => SettleKeepsCalls(c, id, Reply(id, result));
    case ErrorFrame(id, error) => SettleKeepsCalls(c, id, ServerError(id, error));
    case RequestFrame(id, name, None) =>
      RefusalPlaces(c, MethodNotFound(id, name), io);
      WriteRoutes(c, None, MethodNotFound(id, name), io);
    case _ =>
  }

  lemma {:induction false} SettleKeepsCalls(c: Calls, id: RequestId, o: Outcome)
    requires CallInv(c) && (o.Reply? || o.ServerError? ==> o.id == id)
    ensures CallInv(Settle(c, id, o))
  {
    SettlePlaces(c, id, o);
    SettleRoutes(c, id, o);
  }

  lemma {:induction false} ReceiveSources(c: Calls, f: Frame, io: Io, consumed: seq<Frame>)
    requires SourceInv(c.effects, consumed)
    ensures SourceInv(ReceiveCalls(c, f, io).effects, consumed + [f])
  {
  }

  lemma {:induction false} DrainKeepsCalls(c: Calls, id: RequestId, e: IoError, consumed: seq<Frame>)
    requires CallInv(c) && SourceInv(c.effects, consumed)
    ensures CallInv(Settle(c, id, Failed(e))) && SourceInv(Settle(c, id, Failed(e)).effects, consumed)
  {
    SettleKeepsCalls(c, id, Failed(e));
  }

  lemma {:induction false} FinishKeepsCalls(c: Calls, consumed: seq<Frame>)
    requires CallInv(c) && SourceInv(c.effects, consumed)
    ensures CallInv(DropChannel(c)) && SourceInv(DropChannel(c).effects, consumed)
  {
    DropChannelPlaces(c);
    DropChannelRoutes(c);
    AnswerEachIsQuiet(c.queue, Failed(IoError(BrokenPipe, ReplyChannelClosed)));
    AnswerEachIsQuiet(c.blocked, Failed(IoError(BrokenPipe, WorkerChannelClosed)));
  }

  lemma {:induction false} SubmitKeepsCalls(c: Calls, command: Command, closed: bool, consumed: seq<Frame>)
    requires CallInv(c) && SourceInv(c.effects, consumed)
    ensures CallInv(RemoteCalls.Submit(c, command, closed))
    ensures SourceInv(RemoteCalls.Submit(c, command, closed).effects, consumed)
  {
    SubmitPlaces(c, command, closed);
    SubmitRoutes(c, command, closed);
  }

  lemma {:induction false} AdmitKeepsCalls(c: Calls)
    requires CallInv(c)
    ensures CallInv(RemoteCalls.Admit(c))
  {
    AdmitPlaces(c);
    if RemoteCalls.Admit(c) != c { ChannelRoutes(c, c.queue + [c.blocked[0]], c.blocked[1..]); }
  }

  // ----------------------------------------------------------- the stream side

  lemma {:induction false} LeaveKeepsStream(st: Stream, error: Option<IoError>)
    requires StreamInv(st, Running)
    ensures StreamInv(Leave(st, error), Draining)
  {
    var d := Tail(error);
    assert st.seen + st.buffer + (st.channel + d) == (st.seen + st.buffer + st.channel) + d;
    assert Owed(st) == EventsOf(st.consumed);
  }

  lemma {:induction false} ReceiveKeepsStream(st: Stream, f: Frame)
    requires StreamInv(st, Running)
    ensures StreamInv(ReceiveStream(st, f), Running)
  {
    EventsAppend(st.consumed, f);
    if EventOf(f).Some? {
      var e := [EventOf(f).value];
      assert st.seen + st.buffer + (st.channel + e) == (st.seen + st.buffer + st.channel) + e;
    }
  }

  lemma {:induction false} NextEventKeepsStream(st: Stream, phase: Phase)
    requires StreamInv(st, phase)
    ensures StreamInv(NextEventStep(st), phase)
  {
    if st.open && |st.buffer| > 0 {
      assert st.buffer == [st.buffer[0]] + st.buffer[1..];
      assert st.seen + st.buffer + st.channel == (st.seen + [st.buffer[0]]) + st.buffer[1..] + st.channel;
    } else if st.open && |st.channel| > 0 {
      assert st.channel == [st.channel[0]] + st.channel[1..];
      assert st.seen + st.buffer + st.channel == (st.seen + [st.channel[0]]) + st.buffer + st.channel[1..];
    }
  }

  lemma {:induction false} ProceedKeepsInv(s: State, next: Next)
    requires Inv(s) && s.phase == Running
    ensures Inv(Proceed(s, next))
  {
    if next.Break? { LeaveKeepsStream(s.stream, next.error); }
  }

  lemma {:induction false} StepKeepsInv(s: State, a: Action)
    requires Inv(s)
    ensures Inv(Step(s, a))
  {
    match a
    case Submit(command) => SubmitKeepsCalls(s.calls, command, s.phase == Done, s.stream.consumed);
    case Admit => AdmitKeepsCalls(s.calls);
    case Command(io) =>
      if s.phase == Running && |s.calls.queue| > 0 && s.calls.queue[0] < |s.calls.submitted| {
        CommandKeepsCalls(s.calls, io, s.stream.consumed);
        ProceedKeepsInv(s.(calls := HandleCommand(s.calls, io).0), HandleCommand(s.calls, io).1);
      }
    case SendersGone =>
      if s.phase == Running { ProceedKeepsInv(s, Break(None)); }
    case Receive(f, io) =>
      if s.phase == Running { ReceiveKeepsInv(s, f, io); }
    case Drain(id) => DrainKeepsCalls(s.calls, id, ExitError(s.stream.exit), s.stream.consumed);
    case Finish => FinishKeepsCalls(s.calls, s.stream.consumed);
    case NextEvent => NextEventKeepsStream(s.stream, s.phase);
    case DropConsumer =>
  }

  lemma {:induction false} ReceiveKeepsInv(s: State, f: Frame, io: Io)
    requires Inv(s) && s.phase == Running
    ensures Inv(Step(s, Receive(f, io)))
  {
    ReceiveKeepsCalls(s.calls, f, io, s.stream.consumed);
    ReceiveKeepsStream(s.stream, f);
    ProceedKeepsInv(s.(calls := ReceiveCalls(s.calls, f, io), stream := ReceiveStream(s.stream, f)),
                    ReceiveNext(f, s.stream.open, io));
  }

  lemma {:induction false} StartInv(capacity: nat, frames: seq<Frame>)
    ensures Inv(Start(capacity, frames, EventsOf(frames)))
  {
  }

  lemma {:induction false} RunKeepsInv(capacity: nat, frames: seq<Frame>, actions: seq<Action>)
    ensures Inv(Run(Start(capacity, frames, EventsOf(frames)), actions))
    decreases |actions|
  {
    if |actions| == 0 {
      StartInv(capacity, frames);
    } else {
      RunKeepsInv(capacity, frames, Front(actions));
      StepKeepsInv(Run(Start(capacity, frames, EventsOf(frames)), Front(actions)), Last(actions));
    }
  }

  // ------------------------------------------------------------- main results

  function FramesOf(actions: seq<Action>): seq<Frame> {
    if |actions| == 0 then []
    else if Last(actions).Receive? then FramesOf(Front(actions)) + [Last(actions).frame]
    else FramesOf(Front(actions))
  }

  /**
    Exactly-once answers. At every moment of every run each call made so far is blocked,
    queued, pending or answered: one of them, once. Nobody else is ever answered. When the
    worker has ended, however it left its loop, every call has been answered.
   */
  lemma {:induction false} EveryCallAnsweredOnce(capacity: nat, frames: seq<Frame>, actions: seq<Action>, w: nat)
    ensures var s := Run(Start(capacity, frames, EventsOf(frames)), actions);
            var c := s.calls;
            && Occurs(c.blocked, w) + Occurs(c.queue, w) + (if IsPending(c, w) then 1 else 0) + Answers(c.effects, w)
               == (if w < |c.submitted| then 1 else 0)
            && (s.phase == Done && w < |c.submitted| ==> Answers(c.effects, w) == 1)
  {
    RunKeepsInv(capacity, frames, actions);
    var c := Run(Start(capacity, frames, EventsOf(frames)), actions).calls;
    assert Places(c, w) == if w < |c.submitted| then 1 else 0;
  }

  /** Once the loop is left, the exit error is fixed and nothing is read or written any more. */
  lemma {:induction false} ExitedStep(s: State, a: Action)
    requires s.phase != Running
    ensures var t := Step(s, a);
            && t.phase != Running && (s.phase == Done ==> t.phase == Done)
            && t.stream.exit == s.stream.exit && t.stream.consumed == s.stream.consumed
            && s.calls.effects <= t.calls.effects
            && (forall id :: id in s.calls.pending ==>
                  (id in t.calls.pending && t.calls.pending[id] == s.calls.pending[id])
                  || Answered(s.calls.pending[id], Failed(ExitError(s.stream.exit))) in t.calls.effects)
  {
  }

  /** Whoever is pending when the loop is left is failed with the worker's exit error, in whatever order. */
  lemma {:induction false} PendingCallersGetTheExitError(s: State, actions: seq<Action>, id: RequestId)
    requires Inv(s) && s.phase != Running && id in s.calls.pending
    ensures var t := Run(s, actions);
            && t.phase != Running && t.stream.exit == s.stream.exit
            && ExitError(s.stream.exit)
               == (if s.stream.exit.Some? then s.stream.exit.value else IoError(BrokenPipe, WorkerChannelClosed))
            && ((id in t.calls.pending && t.calls.pending[id] == s.calls.pending[id])
                || Answered(s.calls.pending[id], Failed(ExitError(s.stream.exit))) in t.calls.effects)
            && (t.phase == Done ==> Answered(s.calls.pending[id], Failed(ExitError(s.stream.exit))) in t.calls.effects)
    decreases |actions|
  {
    if |actions| > 0 {
      PendingCallersGetTheExitError(s, Front(actions), id);
      ExitedStep(Run(s, Front(actions)), Last(actions));
      RunFromKeepsInv(s, actions);
    }
  }

  lemma {:induction false} RunFromKeepsInv(s: State, actions: seq<Action>)
    requires Inv(s)
    ensures Inv(Run(s, actions))
    decreases |actions|
  {
    if |actions| > 0 {
      RunFromKeepsInv(s, Front(actions));
      StepKeepsInv(Run(s, Front(actions)), Last(actions));
    }
  }

  /** The answer a frame carries, if any. */
  function AnswerIn(f: Frame): Option<Outcome> {
    match f
    case ResponseFrame(id, result) => Some(Reply(id, result))
    case ErrorFrame(id, error) => Some(ServerError(id, error))
    case _ => None
  }

  /** How many frames carry an answer of a kind. */
  function AnswerFrames(fs: seq<Frame>, kind: Outcome -> bool): nat {
    if |fs| == 0 then 0
    else AnswerFrames(Front(fs), kind) + (if AnswerIn(Last(fs)).Some? && kind(AnswerIn(Last(fs)).value) then 1 else 0)
  }

  /** How many callers got a server answer of a kind. */
  function RoutedAnswers(es: seq<Effect>, kind: Outcome -> bool): nat {
    if |es| == 0 then 0
    else RoutedAnswers(Front(es), kind) + (if IsRouted(Last(es)) && kind(Last(es).outcome) then 1 else 0)
  }

  lemma {:induction false} RoutedAppend(es: seq<Effect>, e: Effect, kind: Outcome -> bool)
    ensures RoutedAnswers(es + [e], kind)
            == RoutedAnswers(es, kind) + (if IsRouted(e) && kind(e.outcome) then 1 else 0)
  {
    assert Front(es + [e]) == es;
  }

  /** Effects that route nothing. */
  ghost predicate RoutesNothing(es: seq<Effect>, es': seq<Effect>) {
    es <= es' && forall r :: |es| <= r < |es'| ==> !IsRouted(es'[r])
  }

  lemma {:induction false} QuietEffects(es: seq<Effect>, es': seq<Effect>, kind: Outcome -> bool)
    requires RoutesNothing(es, es')
    ensures RoutedAnswers(es', kind) == RoutedAnswers(es, kind)
    decreases |es'|
  {
    if |es'| == |es| {
      assert es == es';
    } else {
      QuietEffects(es, Front(es'), kind);
    }
  }

  lemma {:induction false} CommandRoutesNothing(c: Calls, io: Io)
    requires |c.queue| > 0 && c.queue[0] < |c.submitted|
    ensures RoutesNothing(c.effects, HandleCommand(c, io).0.effects)
  {
  }

  lemma {:induction false} FinishRoutesNothing(c: Calls)
    ensures RoutesNothing(c.effects, DropChannel(c).effects)
  {
    AnswerEachIsQuiet(c.queue, Failed(IoError(BrokenPipe, ReplyChannelClosed)));
    AnswerEachIsQuiet(c.blocked, Failed(IoError(BrokenPipe, WorkerChannelClosed)));
  }

  lemma {:induction false} ReceiveRoutesOne(c: Calls, f: Frame, io: Io, kind: Outcome -> bool)
    ensures RoutedAnswers(ReceiveCalls(c, f, io).effects, kind)
            <= RoutedAnswers(c.effects, kind) + (if AnswerIn(f).Some? && kind(AnswerIn(f).value) then 1 else 0)
  {
    var es := ReceiveCalls(c, f, io).effects;
    if |es| > |c.effects| {
      assert es == c.effects + [Last(es)];
      RoutedAppend(c.effects, Last(es), kind);
    }
  }

  /** Only a frame can route an answer, and it routes at most one: its own. */
  lemma {:induction false} StepRoutesOne(s: State, a: Action, kind: Outcome -> bool)
    ensures RoutedAnswers(Step(s, a).calls.effects, kind)
            <= RoutedAnswers(s.calls.effects, kind)
               + (if a.Receive? && AnswerIn(a.frame).Some? && kind(AnswerIn(a.frame).value) then 1 else 0)
  {
    var es, es' := s.calls.effects, Step(s, a).calls.effects;
    if a.Receive? {
      ReceiveRoutesOne(s.calls, a.frame, a.reply, kind);
    } else {
      if a.Command? && es' != es { CommandRoutesNothing(s.calls, a.io); }
      if a.Finish? { FinishRoutesNothing(s.calls); }
      QuietEffects(es, es', kind);
    }
  }

  /**
    No answer is used twice: over every run and for every kind of answer - one id, one id and
    one text, errors only - the callers that got such an answer are no more than the frames
    that carried one since the handshake.
   */
  lemma {:induction false} NoAnswerUsedTwice(
    capacity: nat, frames: seq<Frame>, actions: seq<Action>, kind: Outcome -> bool)
    ensures RoutedAnswers(Run(Start(capacity, frames, EventsOf(frames)), actions).calls.effects, kind)
            <= AnswerFrames(FramesOf(actions), kind)
    decreases |actions|
  {
    if |actions| > 0 {
      var before, a := Front(actions), Last(actions);
      NoAnswerUsedTwice(capacity, frames, before, kind);
      StepRoutesOne(Run(Start(capacity, frames, EventsOf(frames)), before), a, kind);
      if a.Receive? { assert Front(FramesOf(before) + [a.frame]) == FramesOf(before); }
    }
  }

  /**
    Routing and single flight, over every run: two writes of one id have an answer between
    them; a server answer reaches a caller that asked under that id; and for each id the
    server's answers to callers are no more than the response and error frames with that id.
   */
  lemma {:induction false} AnswersReachTheirCallers(capacity: nat, frames: seq<Frame>, actions: seq<Action>)
    ensures var s := Run(Start(capacity, frames, EventsOf(frames)), actions);
            && SingleFlight(s.calls.effects)
            && Routed(s.calls)
            && SourceInv(s.calls.effects, s.stream.consumed)
            && (forall id :: RoutedAnswers(s.calls.effects, For(id)) <= AnswerFrames(FramesOf(actions), For(id)))
  {
    RunKeepsInv(capacity, frames, actions);
    forall id
      ensures RoutedAnswers(Run(Start(capacity, frames, EventsOf(frames)), actions).calls.effects, For(id))
              <= AnswerFrames(FramesOf(actions), For(id))
    {
      NoAnswerUsedTwice(capacity, frames, actions, For(id));
    }
  }

  /** The answers under one id. */
  function For(id: RequestId): Outcome -> bool {
    (o: Outcome) => (o.Reply? || o.ServerError?) && o.id == id
  }

  /** A duplicate is refused without a write and leaves the first caller in place; a stray answer changes nothing. */
  lemma {:induction false} DuplicatesAndStrays(s: State, io: Io, id: RequestId, text: string)
    requires Inv(s) && s.phase == Running
    ensures var c := s.calls;
            |c.queue| > 0 && c.queue[0] < |c.submitted| && c.submitted[c.queue[0]].Request?
            && c.submitted[c.queue[0]].id in c.pending ==>
              var t := Step(s, Command(io));
              var refusal := Failed(IoError(InvalidInput, DuplicateId(c.submitted[c.queue[0]].id)));
              && t.phase == Running && t.calls.pending == c.pending && t.stream == s.stream
              && t.calls.effects == c.effects + [Answered(c.queue[0], refusal)]
    ensures id !in s.calls.pending ==>
              && Step(s, Receive(ResponseFrame(id, text), io)).calls == s.calls
              && Step(s, Receive(ErrorFrame(id, text), io)).calls == s.calls
  {
  }

  lemma {:induction false} RunningStep(s: State, a: Action)
    requires s.phase == Running
    ensures Step(s, a).stream.consumed == if a.Receive? then s.stream.consumed + [a.frame] else s.stream.consumed
  {
  }

  lemma {:induction false} ConsumedIsTheWire(capacity: nat, frames: seq<Frame>, actions: seq<Action>)
    ensures var s := Run(Start(capacity, frames, EventsOf(frames)), actions);
            && s.stream.consumed <= frames + FramesOf(actions)
            && (s.phase == Running ==> s.stream.consumed == frames + FramesOf(actions))
    decreases |actions|
  {
    if |actions| > 0 {
      ConsumedIsTheWire(capacity, frames, Front(actions));
      var s := Run(Start(capacity, frames, EventsOf(frames)), Front(actions));
      if Last(actions).Receive? {
        assert frames + FramesOf(actions) == (frames + FramesOf(Front(actions))) + [Last(actions).frame];
      }
      if s.phase == Running { RunningStep(s, Last(actions)); } else { ExitedStep(s, Last(actions)); }
    }
  }

  lemma {:induction false} FramesNeverDisconnect(fs: seq<Frame>)
    ensures forall i :: 0 <= i < |EventsOf(fs)| ==> !EventsOf(fs)[i].Disconnected?
  {
    if |fs| > 0 { FramesNeverDisconnect(Front(fs)); }
  }

  lemma {:induction false} OneDisconnectedAtTheEnd(st: Stream, i: nat)
    requires i < |Owed(st)|
    ensures Owed(st)[i].Disconnected? <==> st.exit.Some? && i == |Owed(st)| - 1
  {
    FramesNeverDisconnect(st.consumed);
  }

  /** The events are those of the decodable notifications and supported requests, in order. */
  ghost predicate Decodes(fs: seq<Frame>, es: seq<Event>) {
    if |fs| == 0 then es == []
    else match Last(fs)
         case NotificationFrame(Some(body)) =>
           |es| > 0 && Last(es) == ServerNotification(body) && Decodes(Front(fs), Front(es))
         case RequestFrame(id, _, Some(body)) =>
           |es| > 0 && Last(es) == ServerRequest(id, body) && Decodes(Front(fs), Front(es))
         case _ => Decodes(Front(fs), es)
  }

  lemma {:induction false} EventsDecode(fs: seq<Frame>)
    ensures Decodes(fs, EventsOf(fs))
  {
    if |fs| > 0 {
      EventsDecode(Front(fs));
      if EventOf(Last(fs)).Some? { assert Front(EventsOf(fs)) == EventsOf(Front(fs)); }
    }
  }

  /**
    Stream refinement. What the consumer has received is a prefix of the events of the
    frames read, in wire order, followed by one `Disconnected` exactly when the worker left
    with an exit error. While the consumer is there nothing is missing: what it has not
    received yet is waiting for it. Where the handshake ended makes no difference.
   */
  lemma {:induction false} StreamRefinement(capacity: nat, frames: seq<Frame>, actions: seq<Action>)
    ensures var s := Run(Start(capacity, frames, EventsOf(frames)), actions);
            var st := s.stream;
            && st.consumed <= frames + FramesOf(actions)
            && (s.phase == Running ==> st.consumed == frames + FramesOf(actions) && st.exit.None?)
            && Decodes(st.consumed, EventsOf(st.consumed))
            && st.seen <= EventsOf(st.consumed) + Tail(st.exit)
            && (st.open ==> st.seen + st.buffer + st.channel == EventsOf(st.consumed) + Tail(st.exit))
            && (forall i :: 0 <= i < |st.seen| && st.seen[i].Disconnected? ==> i == |st.seen| - 1 && st.exit.Some?)
  {
    RunKeepsInv(capacity, frames, actions);
    EventsDecode(Run(Start(capacity, frames, EventsOf(frames)), actions).stream.consumed);
    ConsumedIsTheWire(capacity, frames, actions);
    var st := Run(Start(capacity, frames, EventsOf(frames)), actions).stream;
    forall i | 0 <= i < |st.seen| && st.seen[i].Disconnected?
      ensures i == |st.seen| - 1 && st.exit.Some?
    {
      OneDisconnectedAtTheEnd(st, i);
    }
  }

  function NextEvents(n: nat): seq<Action> {
    if n == 0 then [] else NextEvents(n - 1) + [NextEvent]
  }

  lemma {:induction false} RunAppend(s: State, actions: seq<Action>, a: Action)
    ensures Run(s, actions + [a]) == Step(Run(s, actions), a)
  {
  }

  /** How much is waiting for the consumer. */
  function Waiting(st: Stream): nat {
    |st.buffer| + |st.channel|
  }

  lemma {:induction false} NextEventTakesOne(st: Stream)
    requires st.open
    ensures var st' := NextEventStep(st);
            && st'.open && st'.consumed == st.consumed && st'.exit == st.exit
            && Waiting(st') == if Waiting(st) == 0 then 0 else Waiting(st) - 1
  {
  }

  lemma {:induction false} NothingWaiting(st: Stream, phase: Phase)
    requires StreamInv(st, phase) && st.open && Waiting(st) == 0
    ensures st.seen == Owed(st)
  {
  }

  /** A consumer that keeps asking receives everything it is owed. */
  lemma {:induction false} ConsumerReceivesAll(s: State, n: nat)
    requires Inv(s) && s.stream.open
    ensures var st, st' := s.stream, Run(s, NextEvents(n)).stream;
            && st'.open && st'.consumed == st.consumed && st'.exit == st.exit
            && Waiting(st') == (if n <= Waiting(st) then Waiting(st) - n else 0)
            && (n >= Waiting(st) ==> st'.seen == Owed(st))
  {
    RunFromKeepsInv(s, NextEvents(n));
    var t := Run(s, NextEvents(n));
    if n > 0 {
      ConsumerReceivesAll(s, n - 1);
      RunAppend(s, NextEvents(n - 1), NextEvent);
      NextEventTakesOne(Run(s, NextEvents(n - 1)).stream);
    }
    if n >= Waiting(s.stream) { NothingWaiting(t.stream, t.phase); }
  }
}
