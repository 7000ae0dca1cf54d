/**
  What each command and each frame does, told by what was written and answered before: no
  reference to the pending map.
 */
module RemoteExchange {
  import opened Prelude
  import opened RemoteCalls
  import opened RemoteWorker

  // ----------------------------------------------------------------- in flight

  predicate IsWriteOf(e: Effect, w: nat, id: RequestId) {
    e.Wrote? && e.ok && e.caller == Some(w) && e.message.RequestMessage? && e.message.id == id
  }

  /** Caller `w` has written a request under `id` and has had no answer. */
  ghost predicate InFlight(es: seq<Effect>, w: nat, id: RequestId) {
    && (exists p :: 0 <= p < |es| && IsWriteOf(es[p], w, id))
    && (forall r :: 0 <= r < |es| ==> !(es[r].Answered? && es[r].waiter == w))
  }

  ghost predicate Taken(es: seq<Effect>, id: RequestId) {
    exists w: nat :: InFlight(es, w, id)
  }

  lemma {:induction false} NoAnswers(es: seq<Effect>, w: nat)
    ensures Answers(es, w) == 0 <==> forall r :: 0 <= r < |es| ==> !(es[r].Answered? && es[r].waiter == w)
  {
    if |es| > 0 {
      NoAnswers(Front(es), w);
      assert es == Front(es) + [Last(es)];
    }
  }

  /** The pending map is exactly what is in flight. */
  lemma {:induction false} PendingIsInFlight(c: Calls, w: nat, id: RequestId)
    requires CallInv(c)
    ensures id in c.pending && c.pending[id] == w <==> InFlight(c.effects, w, id)
  {
    NoAnswers(c.effects, w);
    if id in c.pending && c.pending[id] == w {
      assert Places(c, w) == 1 && IsPending(c, w);
      var p :| 0 <= p < |c.effects| && IsRequestWrite(c.effects[p]) && c.effects[p].ok
               && c.effects[p].caller == Some(w) && c.effects[p].message.id == id;
      assert IsWriteOf(c.effects[p], w, id);
    } else if InFlight(c.effects, w, id) {
      var p :| 0 <= p < |c.effects| && IsWriteOf(c.effects[p], w, id);
      assert IsRequestWrite(c.effects[p]);
      assert false;
    }
  }

  lemma {:induction false} TakenIsPending(c: Calls, id: RequestId)
    requires CallInv(c)
    ensures id in c.pending <==> Taken(c.effects, id)
  {
    if id in c.pending { PendingIsInFlight(c, c.pending[id], id); }
    if w: nat :| InFlight(c.effects, w, id) { PendingIsInFlight(c, w, id); }
  }

  // -------------------------------------------------------------------- frames

  function AnswerFrame(id: RequestId, text: string, failed: bool): Frame {
    if failed then ErrorFrame(id, text) else ResponseFrame(id, text)
  }

  function AnswerText(id: RequestId, text: string, failed: bool): Outcome {
    if failed then ServerError(id, text) else Reply(id, text)
  }

  lemma {:induction false} AnswerFrameStep(s: State, id: RequestId, text: string, failed: bool, io: Io)
    requires s.phase == Running
    ensures var t := Step(s, Receive(AnswerFrame(id, text, failed), io));
            && t.phase == Running && t.stream.exit == s.stream.exit && t.stream.channel == s.stream.channel
            && if id in s.calls.pending
               then t.calls == s.calls.(pending := s.calls.pending - {id},
                                        effects := s.calls.effects
                                                   + [Answered(s.calls.pending[id], AnswerText(id, text, failed))])
               else t.calls == s.calls
  {
  }

  /**
    A response or error frame answers its caller. Whenever the running worker reads one, and
    a caller is in flight under its id: that caller gets the frame's content as its answer,
    that is all that happens, and nobody is in flight under that id any more. If nobody is,
    the frame changes no call.
   */
  lemma {:induction false} FrameAnswersItsCaller(s: State, id: RequestId, text: string, failed: bool, io: Io, w: nat)
    requires Inv(s) && s.phase == Running
    ensures var t := Step(s, Receive(AnswerFrame(id, text, failed), io));
            && t.phase == Running
            && (InFlight(s.calls.effects, w, id) ==>
                  && t.calls.effects
                     == s.calls.effects + [Answered(w, AnswerText(id, text, failed))]
                  && !Taken(t.calls.effects, id)
                  && t.calls.queue == s.calls.queue && t.calls.blocked == s.calls.blocked)
            && (!Taken(s.calls.effects, id) ==> t.calls == s.calls)
  {
    var f := AnswerFrame(id, text, failed);
    AnswerFrameStep(s, id, text, failed, io);
    PendingIsInFlight(s.calls, w, id);
    TakenIsPending(s.calls, id);
    StepKeepsInv(s, Receive(f, io));
    TakenIsPending(Step(s, Receive(f, io)).calls, id);
  }

  /** The same over whole runs: the frame is the next thing the worker reads. */
  lemma {:induction false} EveryAnswerFrameAnswers(
    capacity: nat, frames: seq<Frame>, actions: seq<Action>, id: RequestId, text: string, failed: bool, io: Io, w: nat)
    requires var s := Run(Start(capacity, frames, EventsOf(frames)), actions);
             s.phase == Running && InFlight(s.calls.effects, w, id)
    ensures var s := Run(Start(capacity, frames, EventsOf(frames)), actions);
            var more := actions + [Receive(AnswerFrame(id, text, failed), io)];
            var t := Run(Start(capacity, frames, EventsOf(frames)), more);
            && t.calls.effects == s.calls.effects + [Answered(w, AnswerText(id, text, failed))]
            && !Taken(t.calls.effects, id) && t.phase == Running
  {
    RunKeepsInv(capacity, frames, actions);
    var s0 := Start(capacity, frames, EventsOf(frames));
    RunAppend(s0, actions, Receive(AnswerFrame(id, text, failed), io));
    FrameAnswersItsCaller(Run(s0, actions), id, text, failed, io, w);
  }

  /** The frames after which the loop is left with an error, and the error. */
  function Fatal(f: Frame, io: Io): Option<IoError> {
    match f
    case InvalidText(err) => Some(IoError(InvalidData, InvalidJsonRpc(err)))
    case CloseFrame(Some(reason)) =>
      Some(IoError(ConnectionAborted, PeerClosed(if reason == "" then "connection closed" else reason)))
    case CloseFrame(None) => Some(IoError(ConnectionAborted, PeerClosed("connection closed")))
    case TransportError(err) => Some(IoError(InvalidData, TransportFailed(err)))
    case EndOfStream => Some(IoError(UnexpectedEof, StreamEnded))
    case RequestFrame(_, _, None) =>
      if io.IoFailed? then Some(IoError(BrokenPipe, DisconnectedByWrite(io.err))) else None
    case _ => None
  }

  predicate Decodable(f: Frame) {
    (f.NotificationFrame? && f.notification.Some?) || (f.RequestFrame? && f.request.Some?)
  }

  /**
    The other frames touch no call, except that an unsupported request is replied to. The
    loop is left with an error after a fatal frame, without one if an event finds no
    consumer, and otherwise goes on.
   */
  lemma {:induction false} FramesExactly(s: State, f: Frame, io: Io)
    requires s.phase == Running && !f.ResponseFrame? && !f.ErrorFrame?
    ensures var t := Step(s, Receive(f, io));
            && (f.RequestFrame? && f.request.None? ==>
                  var reply := Wrote(None, MethodNotFound(f.id, f.name), io.IoOk?);
                  t.calls == s.calls.(effects := s.calls.effects + [reply]))
            && (!(f.RequestFrame? && f.request.None?) ==> t.calls == s.calls)
            && (Fatal(f, io).Some? ==> t.phase == Draining && t.stream.exit == Fatal(f, io))
            && (Fatal(f, io).None? && Decodable(f) && !s.stream.open ==> t.phase == Draining && t.stream.exit == None)
            && (Fatal(f, io).None? && (!Decodable(f) || s.stream.open) ==> t.phase == Running)
  {
  }

  // ------------------------------------------------------------------ commands

  /** The message a call stands for. */
  function MessageOf(command: Command): Option<Message> {
    match command
    case Request(id, body) => Some(RequestMessage(id, body))
    case Notify(body) => Some(NotificationMessage(body))
    case ResolveServerRequest(id, result) => Some(ResponseMessage(id, result))
    case RejectServerRequest(id, error) => Some(ErrorMessage(id, error))
    case Shutdown => None
  }

  /** What a command adds to what was written and answered. */
  ghost predicate Performs(es: seq<Effect>, es': seq<Effect>, w: nat, command: Command, io: Io) {
    if command.Request? && Taken(es, command.id) then
      es' == es + [Answered(w, Failed(IoError(InvalidInput, DuplicateId(command.id))))]
    else if command.Shutdown? then
      es' == es + [Answered(w, if io.IoFailed? && !io.alreadyClosed
                               then Failed(IoError(OtherKind, CloseFailed(io.err))) else Sent)]
    else
      var wrote := es + [Wrote(Some(w), MessageOf(command).value, io.IoOk?)];
      es' == if io.IoFailed? then wrote + [Answered(w, Failed(IoError(OtherKind, WriteFailed(io.err))))]
             else if command.Request? then wrote
             else wrote + [Answered(w, Sent)]
  }

  lemma {:induction false} CommandStep(c: Calls, io: Io)
    requires CallInv(c) && |c.queue| > 0 && c.queue[0] < |c.submitted|
    ensures Performs(c.effects, HandleCommand(c, io).0.effects, c.queue[0], c.submitted[c.queue[0]], io)
    ensures var command := c.submitted[c.queue[0]];
            HandleCommand(c, io).1
            == if command.Shutdown? then Break(None)
               else if command.Request? && !Taken(c.effects, command.id) && io.IoFailed?
               then Break(Some(IoError(BrokenPipe, DisconnectedByWrite(io.err))))
               else Continue
  {
    var w := c.queue[0];
    var command := c.submitted[w];
    if command.Request? { TakenIsPending(c, command.id); }
    var es := HandleCommand(c, io).0.effects;
    if |es| == |c.effects| + 2 { assert es == c.effects + [es[|c.effects|]] + [es[|c.effects| + 1]]; }
  }

  /**
    A command, in every run. The oldest call in the channel is taken: a request is refused if
    its id is in flight and written otherwise, the other calls are written and answered, a
    shutdown closes. The loop is left after a shutdown, without an error, and after a request
    that could not be written, with one.
   */
  lemma {:induction false} CommandsExactly(s: State, io: Io)
    requires Inv(s) && s.phase == Running && |s.calls.queue| > 0
    ensures s.calls.queue[0] < |s.calls.submitted|
    ensures var w := s.calls.queue[0];
            var command, t := s.calls.submitted[w], Step(s, Action.Command(io));
            && Performs(s.calls.effects, t.calls.effects, w, command, io)
            && t.calls.queue == s.calls.queue[1..] && t.calls.submitted == s.calls.submitted
            && (command.Shutdown? ==> t.phase == Draining && t.stream.exit == None)
            && (command.Request? && !Taken(s.calls.effects, command.id) && io.IoFailed? ==>
                  t.phase == Draining && t.stream.exit == Some(IoError(BrokenPipe, DisconnectedByWrite(io.err))))
            && (command.Request? && !Taken(s.calls.effects, command.id) && io.IoOk? ==>
                  t.phase == Running && InFlight(t.calls.effects, w, command.id))
            && (!command.Shutdown? && (!command.Request? || Taken(s.calls.effects, command.id)) ==>
                  t.phase == Running && t.stream == s.stream)
  {
    HeadIsSubmitted(s.calls);
    CommandStep(s.calls, io);
    CommandRest(s, io);
    var w := s.calls.queue[0];
    var command := s.calls.submitted[w];
    if command.Request? && io.IoOk? && !Taken(s.calls.effects, command.id) {
      StepKeepsInv(s, Action.Command(io));
      TakenIsPending(s.calls, command.id);
      PendingIsInFlight(Step(s, Action.Command(io)).calls, w, command.id);
    }
  }

  lemma {:induction false} CommandRest(s: State, io: Io)
    requires s.phase == Running && |s.calls.queue| > 0 && s.calls.queue[0] < |s.calls.submitted|
    ensures var t := Step(s, Action.Command(io));
            var c, next := HandleCommand(s.calls, io).0, HandleCommand(s.calls, io).1;
            && t.calls == c && c.queue == s.calls.queue[1..] && c.submitted == s.calls.submitted
            && (next.Break? ==> t.phase == Draining && t.stream.exit == next.error)
            && (next.Continue? ==> t.phase == Running && t.stream == s.stream)
    ensures var w := s.calls.queue[0];
            s.calls.submitted[w].Request? && s.calls.submitted[w].id !in s.calls.pending && io.IoOk? ==>
              Step(s, Action.Command(io)).calls.pending == s.calls.pending[s.calls.submitted[w].id := w]
  {
  }

  // ------------------------------------------------------------------- endings

  lemma {:induction false} EachIsAnswered(ws: seq<nat>, o: Outcome, w: nat)
    requires w in ws
    ensures Answered(w, o) in AnswerEach(ws, o)
  {
    if w != Last(ws) {
      assert ws == Front(ws) + [Last(ws)];
      EachIsAnswered(Front(ws), o, w);
    }
  }

  /** When the worker ends: who was in the channel has lost the reply, who was waiting for room finds it closed. */
  lemma {:induction false} EndExactly(s: State, w: nat)
    requires s.phase == Draining && s.calls.pending == map[]
    ensures var t := Step(s, Finish);
            var lost, closed := IoError(BrokenPipe, ReplyChannelClosed), IoError(BrokenPipe, WorkerChannelClosed);
            && t.phase == Done && s.calls.effects <= t.calls.effects
            && (w in s.calls.queue ==> Answered(w, Failed(lost)) in t.calls.effects)
            && (w in s.calls.blocked ==> Answered(w, Failed(closed)) in t.calls.effects)
  {
    if w in s.calls.queue { EachIsAnswered(s.calls.queue, Failed(IoError(BrokenPipe, ReplyChannelClosed)), w); }
    if w in s.calls.blocked { EachIsAnswered(s.calls.blocked, Failed(IoError(BrokenPipe, WorkerChannelClosed)), w); }
  }

  /**
    A call made after the end fails at once, and one made before waits its turn, even when the
    loop has been left. The loop also ends, without an error, when nobody can call any more.
   */
  lemma {:induction false} AfterTheEnd(s: State, command: Command)
    ensures s.phase == Done ==>
              Step(s, Action.Submit(command)).calls.effects
              == s.calls.effects + [Answered(|s.calls.submitted|, Failed(IoError(BrokenPipe, WorkerChannelClosed)))]
    ensures s.phase != Done ==>
              var c := Step(s, Action.Submit(command)).calls;
              c.effects == s.calls.effects && Waiting(c) == Waiting(s.calls) + [|s.calls.submitted|]
    ensures s.phase == Running && s.calls.queue == [] && s.calls.blocked == [] ==>
              var t := Step(s, SendersGone); t.phase == Draining && t.stream.exit == None && t.calls == s.calls
  {
    assert s.calls.queue + (s.calls.blocked + [|s.calls.submitted|])
        == (s.calls.queue + s.calls.blocked) + [|s.calls.submitted|];
  }

  // ------------------------------------------------------- the wire, in call order

  /** Who has not been taken by the worker yet, in order. */
  function Waiting(c: Calls): seq<nat> {
    c.queue + c.blocked
  }

  ghost predicate Increasing(ws: seq<nat>) {
    forall i, j :: 0 <= i < j < |ws| ==> ws[i] < ws[j]
  }

  predicate ByCaller(e: Effect) {
    e.Wrote? && e.caller.Some?
  }

  ghost predicate InLine(submitted: seq<Command>, waiting: seq<nat>) {
    Increasing(waiting) && forall i :: 0 <= i < |waiting| ==> waiting[i] < |submitted|
  }

  /** What callers have written is what they asked for. */
  ghost predicate Faithful(submitted: seq<Command>, es: seq<Effect>) {
    forall p :: 0 <= p < |es| && ByCaller(es[p]) ==>
      && es[p].caller.value < |submitted|
      && MessageOf(submitted[es[p].caller.value]) == Some(es[p].message)
  }

  /** Who has written was before everybody who waits. */
  ghost predicate Before(es: seq<Effect>, waiting: seq<nat>) {
    forall p :: 0 <= p < |es| && ByCaller(es[p]) && |waiting| > 0 ==> es[p].caller.value < waiting[0]
  }

  ghost predicate Ordered(es: seq<Effect>) {
    forall p, q :: 0 <= p < q < |es| && ByCaller(es[p]) && ByCaller(es[q]) ==> es[p].caller.value < es[q].caller.value
  }

  /** What callers have written is what they asked for, in the order of the calls; the rest still waits, in order. */
  ghost predicate WireInv(submitted: seq<Command>, waiting: seq<nat>, es: seq<Effect>) {
    InLine(submitted, waiting) && Faithful(submitted, es) && Before(es, waiting) && Ordered(es)
  }

  ghost predicate Wired(c: Calls) {
    WireInv(c.submitted, Waiting(c), c.effects)
  }

  ghost predicate Silent(es: seq<Effect>, es': seq<Effect>) {
    es <= es' && forall p :: |es| <= p < |es'| ==> !ByCaller(es'[p])
  }

  lemma {:induction false} SilentWire(submitted: seq<Command>, waiting: seq<nat>, es: seq<Effect>, es': seq<Effect>)
    requires Faithful(submitted, es) && Before(es, waiting) && Ordered(es) && Silent(es, es')
    ensures Faithful(submitted, es') && Before(es', waiting) && Ordered(es')
  {
    forall p | 0 <= p < |es'| && ByCaller(es'[p])
      ensures p < |es| && es'[p] == es[p]
    {
    }
  }

  /** Steps that write nothing for a caller and at most clear the waiting line. */
  lemma {:induction false} QuietWire(c: Calls, c': Calls)
    requires Wired(c)
    requires c'.submitted == c.submitted && Silent(c.effects, c'.effects)
    requires Waiting(c') == Waiting(c) || Waiting(c') == []
    ensures Wired(c')
  {
    SilentWire(c.submitted, Waiting(c), c.effects, c'.effects);
  }

  lemma {:induction false} LongerLine(submitted: seq<Command>, waiting: seq<nat>, es: seq<Effect>, command: Command)
    requires WireInv(submitted, waiting, es)
    ensures WireInv(submitted + [command], waiting, es) && WireInv(submitted + [command], waiting + [|submitted|], es)
  {
    assert forall w :: 0 <= w < |submitted| ==> (submitted + [command])[w] == submitted[w];
  }

  lemma {:induction false} SubmitWire(c: Calls, command: Command, closed: bool)
    requires Wired(c) && (closed ==> Waiting(c) == [])
    ensures Wired(RemoteCalls.Submit(c, command, closed))
  {
    var c', n := RemoteCalls.Submit(c, command, closed), |c.submitted|;
    if !closed { assert Waiting(c') == Waiting(c) + [n]; }
    LongerLine(c.submitted, Waiting(c), c.effects, command);
    SilentWire(c'.submitted, Waiting(c'), c.effects, c'.effects);
  }

  lemma {:induction false} CommandWire(c: Calls, io: Io)
    requires CallInv(c) && Wired(c)
    requires |c.queue| > 0 && c.queue[0] < |c.submitted|
    ensures Wired(HandleCommand(c, io).0)
  {
    var c', w := HandleCommand(c, io).0, c.queue[0];
    CommandStep(c, io);
    CommandLeaves(c, io);
    assert Waiting(c)[0] == w && Waiting(c') == Waiting(c)[1..];
    PerformsWire(c.submitted, Waiting(c), c.effects, c'.effects, io);
  }

  lemma {:induction false} CommandLeaves(c: Calls, io: Io)
    requires |c.queue| > 0 && c.queue[0] < |c.submitted|
    ensures var c' := HandleCommand(c, io).0;
            c'.submitted == c.submitted && c'.queue == c.queue[1..] && c'.blocked == c.blocked
  {
  }

  lemma {:induction false} PerformsShape(es: seq<Effect>, es': seq<Effect>, w: nat, command: Command, io: Io)
    requires Performs(es, es', w, command, io)
    ensures es <= es' && |es| < |es'| <= |es| + 2
    ensures ByCaller(es'[|es|]) ==> es'[|es|].caller == Some(w) && MessageOf(command) == Some(es'[|es|].message)
    ensures |es'| == |es| + 2 ==> !ByCaller(es'[|es| + 1])
  {
  }

  lemma {:induction false} PerformsWire(
    submitted: seq<Command>, waiting: seq<nat>, es: seq<Effect>, es': seq<Effect>, io: Io)
    requires |waiting| > 0 && WireInv(submitted, waiting, es)
    requires Performs(es, es', waiting[0], submitted[waiting[0]], io)
    ensures WireInv(submitted, waiting[1..], es')
  {
    PerformsShape(es, es', waiting[0], submitted[waiting[0]], io);
    WireGrows(submitted, waiting, es, es');
  }

  /** The first one waiting writes, if anybody does. */
  lemma {:induction false} WireGrows(submitted: seq<Command>, waiting: seq<nat>, es: seq<Effect>, es': seq<Effect>)
    requires |waiting| > 0 && WireInv(submitted, waiting, es)
    requires es <= es' && forall p :: |es| < p < |es'| ==> !ByCaller(es'[p])
    requires |es'| > |es| && ByCaller(es'[|es|]) ==>
               es'[|es|].caller == Some(waiting[0]) && MessageOf(submitted[waiting[0]]) == Some(es'[|es|].message)
    ensures WireInv(submitted, waiting[1..], es')
  {
    assert forall p :: 0 <= p < |es| ==> es'[p] == es[p];
    assert forall p :: 0 <= p < |es'| && ByCaller(es'[p]) ==> p <= |es|;
  }

  lemma {:induction false} DrainWire(c: Calls, id: RequestId, o: Outcome)
    requires Wired(c)
    ensures Wired(Settle(c, id, o))
  {
    QuietWire(c, Settle(c, id, o));
  }

  lemma {:induction false} EachIsSilent(es: seq<Effect>, ws: seq<nat>, o: Outcome)
    ensures Silent(es, es + AnswerEach(ws, o))
  {
    if |ws| > 0 {
      EachIsSilent(es, Front(ws), o);
      assert es + AnswerEach(ws, o) == (es + AnswerEach(Front(ws), o)) + [Answered(Last(ws), o)];
    }
  }

  lemma {:induction false} FinishIsSilent(c: Calls)
    ensures Silent(c.effects, DropChannel(c).effects)
  {
    var lost := Failed(IoError(BrokenPipe, ReplyChannelClosed));
    EachIsSilent(c.effects, c.queue, lost);
    EachIsSilent(c.effects + AnswerEach(c.queue, lost), c.blocked, Failed(IoError(BrokenPipe, WorkerChannelClosed)));
  }

  lemma {:induction false} FinishWire(c: Calls)
    requires Wired(c)
    ensures Wired(DropChannel(c))
  {
    FinishIsSilent(c);
    QuietWire(c, DropChannel(c));
  }

  lemma {:induction false} AdmitWire(c: Calls)
    requires Wired(c)
    ensures Wired(RemoteCalls.Admit(c))
  {
    if |c.blocked| > 0 && |c.queue| < c.capacity {
      assert c.blocked == [c.blocked[0]] + c.blocked[1..];
      assert (c.queue + [c.blocked[0]]) + c.blocked[1..] == c.queue + c.blocked;
    }
    QuietWire(c, RemoteCalls.Admit(c));
  }

  lemma {:induction false} ReceiveWire(c: Calls, f: Frame, io: Io)
    requires Wired(c)
    ensures Wired(ReceiveCalls(c, f, io))
  {
    QuietWire(c, ReceiveCalls(c, f, io));
  }

  lemma {:induction false} StepWire(s: State, a: Action)
    requires CallInv(s.calls) && DoneInv(s) && Wired(s.calls)
    ensures Wired(Step(s, a).calls)
  {
    var c := s.calls;
    match a
    case Submit(command) => SubmitStepWire(s, command);
    case Admit => AdmitWire(c);
    case Command(io) => CommandStepWire(s, io);
    case Receive(f, io) => ReceiveStepWire(s, f, io);
    case Drain(id) => DrainWire(c, id, Failed(ExitError(s.stream.exit)));
    case Finish => FinishWire(c);
    case _ =>
  }

  lemma {:induction false} SubmitStepWire(s: State, command: Command)
    requires DoneInv(s) && Wired(s.calls)
    ensures Wired(Step(s, Action.Submit(command)).calls)
  {
    SubmitWire(s.calls, command, s.phase == Done);
  }

  lemma {:induction false} ReceiveStepWire(s: State, f: Frame, io: Io)
    requires Wired(s.calls)
    ensures Wired(Step(s, Receive(f, io)).calls)
  {
    if s.phase == Running { ReceiveWire(s.calls, f, io); }
  }

  lemma {:induction false} CommandStepWire(s: State, io: Io)
    requires CallInv(s.calls) && Wired(s.calls)
    ensures Wired(Step(s, Action.Command(io)).calls)
  {
    var c := s.calls;
    if s.phase == Running && |c.queue| > 0 && c.queue[0] < |c.submitted| { CommandWire(c, io); }
  }

  /**
    The wire. In every run, what has been written for callers is, message by message, what
    they asked for, each at most once and in the order in which the calls were made; whoever
    still waits comes later, in that order.
   */
  lemma {:induction false} CallsAreWrittenInOrder(capacity: nat, frames: seq<Frame>, actions: seq<Action>)
    ensures var c := Run(Start(capacity, frames, EventsOf(frames)), actions).calls;
            Wired(c)
    decreases |actions|
  {
    if |actions| > 0 {
      CallsAreWrittenInOrder(capacity, frames, Front(actions));
      RunKeepsInv(capacity, frames, Front(actions));
      StepWire(Run(Start(capacity, frames, EventsOf(frames)), Front(actions)), Last(actions));
    }
  }

  lemma {:induction false} StepKeepsBound(s: State, a: Action)
    requires |s.calls.queue| <= s.calls.capacity
    ensures var c := Step(s, a).calls; c.capacity == s.calls.capacity && |c.queue| <= c.capacity
  {
  }

  /** The command channel has the capacity asked for, at least one, and never holds more. */
  lemma {:induction false} ChannelIsBounded(capacity: nat, frames: seq<Frame>, actions: seq<Action>)
    ensures var c := Run(Start(capacity, frames, EventsOf(frames)), actions).calls;
            c.capacity == (if capacity == 0 then 1 else capacity) && |c.queue| <= c.capacity
    decreases |actions|
  {
    if |actions| > 0 {
      ChannelIsBounded(capacity, frames, Front(actions));
      StepKeepsBound(Run(Start(capacity, frames, EventsOf(frames)), Front(actions)), Last(actions));
    }
  }
}
