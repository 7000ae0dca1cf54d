/**
  The calls made on the remote client: where each caller's reply channel is, and what has
  been written and answered. A caller is named by its position in `submitted`.
 */
module RemoteCalls {
  import opened Prelude

  datatype ErrorKind =
    | BrokenPipe | InvalidInput | InvalidData | ConnectionAborted | UnexpectedEof | TimedOut | OtherKind

  /** What the error text says; the wording itself is not modelled. */
  datatype Reason =
    | WriteFailed(err: string)
    | DisconnectedByWrite(err: string)
    | CloseFailed(err: string)
    | DuplicateId(id: RequestId)
    | InvalidJsonRpc(err: string)
    | PeerClosed(reason: string)
    | TransportFailed(err: string)
    | StreamEnded
    | WorkerChannelClosed
    | ReplyChannelClosed
    | InitializeRejected(err: string)
    | InitializeTimedOut

  datatype IoError = IoError(kind: ErrorKind, reason: Reason)

  /** The result of a websocket write or close. */
  datatype Io = IoOk | IoFailed(err: string, alreadyClosed: bool)

  datatype Command =
    | Request(id: RequestId, body: string)
    | Notify(body: string)
    | ResolveServerRequest(id: RequestId, result: string)
    | RejectServerRequest(id: RequestId, error: string)
    | Shutdown

  datatype Message =
    | RequestMessage(id: RequestId, body: string)
    | NotificationMessage(body: string)
    | ResponseMessage(id: RequestId, result: string)
    | ErrorMessage(id: RequestId, error: string)
    | MethodNotFound(id: RequestId, name: string)    // code -32601

  datatype Outcome =
    | Reply(id: RequestId, result: string)          // Ok(Ok(..)): a response frame with this id
    | ServerError(id: RequestId, details: string)     // Ok(Err(..)): an error frame with this id
    | Sent                                          // Ok(())
    | Failed(error: IoError)                        // Err(..)

  datatype Effect =
    | Wrote(caller: Option<nat>, message: Message, ok: bool)
    | Answered(waiter: nat, outcome: Outcome)

  datatype Calls = Calls(
    capacity: nat,
    submitted: seq<Command>,
    blocked: seq<nat>,                 // callers waiting for room in the command channel
    queue: seq<nat>,                   // the command channel
    pending: map<RequestId, nat>,      // written and unanswered
    effects: seq<Effect>)

  /** What the worker does next: go on, or leave the loop with or without an exit error. */
  datatype Next = Continue | Break(error: Option<IoError>)

  function NoCalls(capacity: nat): Calls {
    Calls(if capacity < 1 then 1 else capacity, [], [], [], map[], [])
  }

  function Answer(c: Calls, w: nat, o: Outcome): Calls {
    c.(effects := c.effects + [Answered(w, o)])
  }

  function Write(c: Calls, w: Option<nat>, m: Message, io: Io): Calls {
    c.(effects := c.effects + [Wrote(w, m, io.IoOk?)])
  }

  function Submit(c: Calls, command: Command, closed: bool): Calls {
    var w := |c.submitted|;
    var c1 := c.(submitted := c.submitted + [command]);
    if closed then Answer(c1, w, Failed(IoError(BrokenPipe, WorkerChannelClosed)))
    else if |c.queue| < c.capacity && |c.blocked| == 0 then c1.(queue := c.queue + [w])
    else c1.(blocked := c.blocked + [w])
  }

  function Admit(c: Calls): Calls {
    if |c.blocked| > 0 && |c.queue| < c.capacity
    then c.(blocked := c.blocked[1..], queue := c.queue + [c.blocked[0]])
    else c
  }

  function WriteError(io: Io): IoError
    requires io.IoFailed?
  {
    IoError(OtherKind, WriteFailed(io.err))
  }

  function WriteOutcome(io: Io): Outcome {
    if io.IoOk? then Sent else Failed(WriteError(io))
  }

  function WriteAndAnswer(c: Calls, w: nat, m: Message, io: Io): Calls {
    Answer(Write(c, Some(w), m, io), w, WriteOutcome(io))
  }

  /** The worker takes the oldest command off the channel. */
  function HandleCommand(c: Calls, io: Io): (Calls, Next)
    requires |c.queue| > 0 && c.queue[0] < |c.submitted|
  {
    var w := c.queue[0];
    var c1 := c.(queue := c.queue[1..]);
    match c.submitted[w]
    case Request(id, body) => HandleRequest(c1, w, id, body, io)
    case Notify(body) => (WriteAndAnswer(c1, w, NotificationMessage(body), io), Continue)
    case ResolveServerRequest(id, result) => (WriteAndAnswer(c1, w, ResponseMessage(id, result), io), Continue)
    case RejectServerRequest(id, error) => (WriteAndAnswer(c1, w, ErrorMessage(id, error), io), Continue)
    case Shutdown =>
      var outcome := if io.IoOk? || io.alreadyClosed then Sent else Failed(IoError(OtherKind, CloseFailed(io.err)));
      (Answer(c1, w, outcome), Break(None))
  }

  function HandleRequest(c: Calls, w: nat, id: RequestId, body: string, io: Io): (Calls, Next) {
    if id in c.pending then
      (Answer(c, w, Failed(IoError(InvalidInput, DuplicateId(id)))), Continue)
    else if io.IoOk? then
      (Write(c, Some(w), RequestMessage(id, body), io).(pending := c.pending[id := w]), Continue)
    else
      (Answer(Write(c, Some(w), RequestMessage(id, body), io), w, Failed(WriteError(io))),
       Break(Some(IoError(BrokenPipe, DisconnectedByWrite(io.err)))))
  }

  /** A response, error or drain settles the waiter registered under `id`, if there is one. */
  function Settle(c: Calls, id: RequestId, o: Outcome): Calls {
    if id in c.pending then Answer(c, c.pending[id], o).(pending := c.pending - {id}) else c
  }

  function AnswerEach(ws: seq<nat>, o: Outcome): seq<Effect> {
    if |ws| == 0 then [] else AnswerEach(Front(ws), o) + [Answered(Last(ws), o)]
  }

  /** The worker ends and drops its end of the channel: queued and blocked callers find out. */
  function DropChannel(c: Calls): Calls {
    c.(queue := [], blocked := [],
       effects := c.effects + AnswerEach(c.queue, Failed(IoError(BrokenPipe, ReplyChannelClosed)))
                            + AnswerEach(c.blocked, Failed(IoError(BrokenPipe, WorkerChannelClosed))))
  }

  // ------------------------------------------------------- every caller is somewhere, once

  function Answers(effects: seq<Effect>, w: nat): nat {
    if |effects| == 0 then 0
    else Answers(Front(effects), w) + (if Last(effects).Answered? && Last(effects).waiter == w then 1 else 0)
  }

  predicate IsPending(c: Calls, w: nat) {
    && w < |c.submitted| && c.submitted[w].Request?
    && c.submitted[w].id in c.pending && c.pending[c.submitted[w].id] == w
  }

  /** Where caller `w` is: how often in each place. */
  datatype Position = Position(blocked: nat, queued: nat, pending: nat, answered: nat)

  function PositionOf(c: Calls, w: nat): Position {
    Position(Occurs(c.blocked, w), Occurs(c.queue, w), if IsPending(c, w) then 1 else 0, Answers(c.effects, w))
  }

  /** In how many places caller `w` is. */
  function Places(c: Calls, w: nat): nat {
    var p := PositionOf(c, w);
    p.blocked + p.queued + p.pending + p.answered
  }

  /** The pending map holds each request under its own id. */
  ghost predicate KeyInv(c: Calls) {
    forall id :: id in c.pending ==>
      c.pending[id] < |c.submitted| && c.submitted[c.pending[id]].Request? && c.submitted[c.pending[id]].id == id
  }

  ghost predicate PlaceInv(c: Calls) {
    forall w: nat :: Places(c, w) == if w < |c.submitted| then 1 else 0
  }

  lemma {:induction false} OccursHead(ws: seq<nat>)
    requires |ws| > 0
    ensures forall w: nat :: Occurs(ws, w) == Occurs(ws[1..], w) + (if ws[0] == w then 1 else 0)
  {
    if |ws| == 1 {
      assert Front(ws) == [] && ws[1..] == [];
    } else {
      OccursHead(Front(ws));
      assert Front(ws)[1..] == Front(ws[1..]);
    }
  }

  lemma {:induction false} AnswersAppend(es: seq<Effect>, e: Effect)
    ensures forall w: nat :: Answers(es + [e], w) == Answers(es, w) + (if e.Answered? && e.waiter == w then 1 else 0)
  {
  }

  lemma {:induction false} AnswerEachCounts(es: seq<Effect>, ws: seq<nat>, o: Outcome)
    ensures forall w: nat :: Answers(es + AnswerEach(ws, o), w) == Answers(es, w) + Occurs(ws, w)
  {
    if |ws| == 0 {
      assert es + [] == es;
    } else {
      AnswerEachCounts(es, Front(ws), o);
      var each := AnswerEach(Front(ws), o);
      assert es + AnswerEach(ws, o) == (es + each) + [Answered(Last(ws), o)];
      AnswersAppend(es + each, Answered(Last(ws), o));
    }
  }

  /** What is in the command channel was put there by a call. */
  lemma {:induction false} HeadIsSubmitted(c: Calls)
    requires PlaceInv(c) && |c.queue| > 0
    ensures c.queue[0] < |c.submitted|
  {
    OccursHead(c.queue);
    assert Places(c, c.queue[0]) >= 1;
  }

  // What each operation does to each caller's position.

  /** A new caller is answered, queued or blocked; nobody else moves. */
  lemma {:induction false} SubmitMoves(c: Calls, command: Command, closed: bool, w: nat)
    requires KeyInv(c)
    ensures var p, p' := PositionOf(c, w), PositionOf(Submit(c, command, closed), w);
            p' == if w != |c.submitted| then p
                  else if closed then p.(answered := p.answered + 1)
                  else if |c.queue| < c.capacity && |c.blocked| == 0 then p.(queued := p.queued + 1)
                  else p.(blocked := p.blocked + 1)
  {
    var n := |c.submitted|;
    SubmitKeepsPending(c, command, closed, w);
    if closed {
      AnswersAppend(c.effects, Answered(n, Failed(IoError(BrokenPipe, WorkerChannelClosed))));
    } else if |c.queue| < c.capacity && |c.blocked| == 0 {
      OccursAppend(c.queue, n);
    } else {
      OccursAppend(c.blocked, n);
    }
  }

  lemma {:induction false} SubmitKeepsPending(c: Calls, command: Command, closed: bool, w: nat)
    requires KeyInv(c)
    ensures IsPending(Submit(c, command, closed), w) == IsPending(c, w)
  {
  }

  /** The first blocked caller moves into the channel, if there is room; nobody else moves. */
  lemma {:induction false} AdmitMoves(c: Calls, w: nat)
    ensures var p, p' := PositionOf(c, w), PositionOf(Admit(c), w);
            if |c.blocked| > 0 && |c.queue| < c.capacity && w == c.blocked[0]
            then p.blocked > 0 && p' == p.(blocked := p.blocked - 1, queued := p.queued + 1)
            else p' == p
  {
    if |c.blocked| > 0 && |c.queue| < c.capacity {
      OccursHead(c.blocked);
      OccursAppend(c.queue, c.blocked[0]);
      assert IsPending(Admit(c), w) == IsPending(c, w);
    }
  }

  lemma {:induction false} AnswerMoves(c: Calls, x: nat, o: Outcome, w: nat)
    ensures var p := PositionOf(c, w);
            PositionOf(Answer(c, x, o), w) == if w == x then p.(answered := p.answered + 1) else p
  {
    AnswersAppend(c.effects, Answered(x, o));
    assert IsPending(Answer(c, x, o), w) == IsPending(c, w);
  }

  lemma {:induction false} WriteMovesNobody(c: Calls, caller: Option<nat>, m: Message, io: Io, w: nat)
    ensures PositionOf(Write(c, caller, m, io), w) == PositionOf(c, w)
  {
    AnswersAppend(c.effects, Wrote(caller, m, io.IoOk?));
    assert IsPending(Write(c, caller, m, io), w) == IsPending(c, w);
  }

  lemma {:induction false} DequeueMoves(c: Calls, w: nat)
    requires |c.queue| > 0
    ensures var p, p' := PositionOf(c, w), PositionOf(c.(queue := c.queue[1..]), w);
            if w == c.queue[0] then p.queued > 0 && p' == p.(queued := p.queued - 1) else p' == p
  {
    OccursHead(c.queue);
    assert IsPending(c.(queue := c.queue[1..]), w) == IsPending(c, w);
  }

  lemma {:induction false} RegisterMoves(c: Calls, x: nat, id: RequestId, w: nat)
    requires KeyInv(c) && id !in c.pending
    requires x < |c.submitted| && c.submitted[x].Request? && c.submitted[x].id == id
    ensures var p := PositionOf(c, w);
            PositionOf(c.(pending := c.pending[id := x]), w) == if w == x then p.(pending := 1) else p
    ensures KeyInv(c.(pending := c.pending[id := x]))
    ensures !IsPending(c, x)
  {
    assert IsPending(c.(pending := c.pending[id := x]), w) == (IsPending(c, w) || w == x);
  }

  /** The command is a request that gets registered. */
  predicate Registers(c: Calls, io: Io)
    requires |c.queue| > 0 && c.queue[0] < |c.submitted|
  {
    var command := c.submitted[c.queue[0]];
    command.Request? && command.id !in c.pending && io.IoOk?
  }

  /** The oldest caller leaves the queue: to pending if its request is registered, else to answered. */
  lemma {:induction false} HandleCommandMoves(c: Calls, io: Io, w: nat)
    requires KeyInv(c) && |c.queue| > 0 && c.queue[0] < |c.submitted|
    ensures var p, p' := PositionOf(c, w), PositionOf(HandleCommand(c, io).0, w);
            if w != c.queue[0] then p' == p
            else
              && p.queued > 0
              && p' == if Registers(c, io) then p.(queued := p.queued - 1, pending := p.pending + 1)
                       else p.(queued := p.queued - 1, answered := p.answered + 1)
  {
    var x := c.queue[0];
    var c1 := c.(queue := c.queue[1..]);
    DequeueMoves(c, w);
    match c.submitted[x]
    case Request(id, body) => HandleRequestMoves(c1, x, id, body, io, w);
    case Notify(body) => WriteAndAnswerMoves(c1, x, NotificationMessage(body), io, w);
    case ResolveServerRequest(id, result) => WriteAndAnswerMoves(c1, x, ResponseMessage(id, result), io, w);
    case RejectServerRequest(id, error) => WriteAndAnswerMoves(c1, x, ErrorMessage(id, error), io, w);
    case Shutdown => AnswerMoves(c1, x, Last(HandleCommand(c, io).0.effects).outcome, w);
  }

  lemma {:induction false} HandleRequestMoves(c: Calls, x: nat, id: RequestId, body: string, io: Io, w: nat)
    requires KeyInv(c) && x < |c.submitted| && c.submitted[x].Request? && c.submitted[x].id == id
    ensures var p, p' := PositionOf(c, w), PositionOf(HandleRequest(c, x, id, body, io).0, w);
            p' == if w != x then p
                  else if id !in c.pending && io.IoOk? then p.(pending := p.pending + 1)
                  else p.(answered := p.answered + 1)
  {
    if id in c.pending {
      AnswerMoves(c, x, Failed(IoError(InvalidInput, DuplicateId(id))), w);
    } else {
      var c1 := Write(c, Some(x), RequestMessage(id, body), io);
      WriteMovesNobody(c, Some(x), RequestMessage(id, body), io, w);
      if io.IoOk? { RegisterMoves(c1, x, id, w); } else { AnswerMoves(c1, x, Failed(WriteError(io)), w); }
    }
  }

  lemma {:induction false} WriteAndAnswerMoves(c: Calls, x: nat, m: Message, io: Io, w: nat)
    ensures var p := PositionOf(c, w);
            PositionOf(WriteAndAnswer(c, x, m, io), w) == if w == x then p.(answered := p.answered + 1) else p
  {
    WriteMovesNobody(c, Some(x), m, io, w);
    AnswerMoves(Write(c, Some(x), m, io), x, WriteOutcome(io), w);
  }

  /** The caller registered under the id, if any, goes from pending to answered; nobody else moves. */
  lemma {:induction false} SettleMoves(c: Calls, id: RequestId, o: Outcome, w: nat)
    requires KeyInv(c)
    ensures var p, p' := PositionOf(c, w), PositionOf(Settle(c, id, o), w);
            if id in c.pending && w == c.pending[id]
            then p.pending == 1 && p' == p.(pending := 0, answered := p.answered + 1)
            else p' == p
  {
    if id in c.pending {
      var x := c.pending[id];
      AnswersAppend(c.effects, Answered(x, o));
      assert IsPending(Settle(c, id, o), w) == (IsPending(c, w) && w != x);
    }
  }

  /** Every queued or blocked caller gets one answer for each place it was in; nobody else moves. */
  lemma {:induction false} DropChannelMoves(c: Calls, w: nat)
    ensures var p := PositionOf(c, w);
            PositionOf(DropChannel(c), w) == Position(0, 0, p.pending, p.answered + p.queued + p.blocked)
  {
    var lost := Failed(IoError(BrokenPipe, ReplyChannelClosed));
    var closed := Failed(IoError(BrokenPipe, WorkerChannelClosed));
    AnswerEachCounts(c.effects, c.queue, lost);
    AnswerEachCounts(c.effects + AnswerEach(c.queue, lost), c.blocked, closed);
    assert IsPending(DropChannel(c), w) == IsPending(c, w);
  }

  // So every caller stays in exactly one place.

  lemma {:induction false} SubmitAddsOne(c: Calls, command: Command, closed: bool, w: nat)
    requires KeyInv(c)
    ensures Places(Submit(c, command, closed), w) == Places(c, w) + (if w == |c.submitted| then 1 else 0)
  {
    SubmitMoves(c, command, closed, w);
  }

  lemma {:induction false} SubmitPlaces(c: Calls, command: Command, closed: bool)
    requires KeyInv(c) && PlaceInv(c)
    ensures KeyInv(Submit(c, command, closed)) && PlaceInv(Submit(c, command, closed))
  {
    forall w: nat
      ensures Places(Submit(c, command, closed), w) == if w < |c.submitted| + 1 then 1 else 0
    {
      SubmitAddsOne(c, command, closed, w);
      assert Places(c, w) == if w < |c.submitted| then 1 else 0;
    }
  }

  /** The number of places stays the same for every caller. */
  ghost predicate KeepsPlaces(c: Calls, c': Calls) {
    c'.submitted == c.submitted && forall w: nat :: Places(c', w) == Places(c, w)
  }

  lemma {:induction false} KeptPlaces(c: Calls, c': Calls)
    requires PlaceInv(c) && KeepsPlaces(c, c')
    ensures PlaceInv(c')
  {
    forall w: nat
      ensures Places(c', w) == if w < |c'.submitted| then 1 else 0
    {
      assert Places(c, w) == if w < |c.submitted| then 1 else 0;
    }
  }

  lemma {:induction false} AdmitPlaces(c: Calls)
    requires KeyInv(c) && PlaceInv(c)
    ensures KeyInv(Admit(c)) && PlaceInv(Admit(c))
  {
    forall w: nat ensures Places(Admit(c), w) == Places(c, w) { AdmitMoves(c, w); }
    KeptPlaces(c, Admit(c));
  }

  lemma {:induction false} HandleCommandPlaces(c: Calls, io: Io)
    requires KeyInv(c) && PlaceInv(c) && |c.queue| > 0 && c.queue[0] < |c.submitted|
    ensures KeyInv(HandleCommand(c, io).0) && PlaceInv(HandleCommand(c, io).0)
  {
    forall w: nat ensures Places(HandleCommand(c, io).0, w) == Places(c, w) { HandleCommandMoves(c, io, w); }
    KeptPlaces(c, HandleCommand(c, io).0);
  }

  lemma {:induction false} SettlePlaces(c: Calls, id: RequestId, o: Outcome)
    requires KeyInv(c) && PlaceInv(c)
    ensures KeyInv(Settle(c, id, o)) && PlaceInv(Settle(c, id, o))
  {
    forall w: nat ensures Places(Settle(c, id, o), w) == Places(c, w) { SettleMoves(c, id, o, w); }
    KeptPlaces(c, Settle(c, id, o));
  }

  lemma {:induction false} RefusalPlaces(c: Calls, m: Message, io: Io)
    requires KeyInv(c) && PlaceInv(c)
    ensures KeyInv(Write(c, None, m, io)) && PlaceInv(Write(c, None, m, io))
  {
    forall w: nat ensures Places(Write(c, None, m, io), w) == Places(c, w) { WriteMovesNobody(c, None, m, io, w); }
    KeptPlaces(c, Write(c, None, m, io));
  }

  lemma {:induction false} DropChannelPlaces(c: Calls)
    requires KeyInv(c) && PlaceInv(c)
    ensures KeyInv(DropChannel(c)) && PlaceInv(DropChannel(c))
  {
    forall w: nat ensures Places(DropChannel(c), w) == Places(c, w) { DropChannelMoves(c, w); }
    KeptPlaces(c, DropChannel(c));
  }

  // --------------------------------------------------------- routing and single flight

  predicate IsRequestWrite(e: Effect) {
    e.Wrote? && e.message.RequestMessage?
  }

  /** An answer that came from the server. */
  predicate IsRouted(e: Effect) {
    e.Answered? && (e.outcome.Reply? || e.outcome.ServerError?)
  }

  ghost predicate AnsweredBetween(effects: seq<Effect>, p: int, q: int, w: nat) {
    exists r :: p < r < q && 0 <= r < |effects| && effects[r].Answered? && effects[r].waiter == w
  }

  ghost predicate WrittenBefore(effects: seq<Effect>, q: int, w: nat, id: RequestId) {
    exists p :: 0 <= p < q && p < |effects| && IsRequestWrite(effects[p]) && effects[p].ok
                && effects[p].caller == Some(w) && effects[p].message.id == id
  }

  /** Two writes of the same request id have the first caller's answer between them. */
  ghost predicate SingleFlight(effects: seq<Effect>) {
    forall p, q :: 0 <= p < q < |effects| && IsRequestWrite(effects[p]) && IsRequestWrite(effects[q])
                   && effects[p].message.id == effects[q].message.id ==>
      effects[p].caller.Some? && AnsweredBetween(effects, p, q, effects[p].caller.value)
  }

  /** A server answer goes to a caller that asked under that id, after its request was written. */
  ghost predicate Routed(c: Calls) {
    forall r :: 0 <= r < |c.effects| && IsRouted(c.effects[r]) ==>
      var w, id := c.effects[r].waiter, c.effects[r].outcome.id;
      && w < |c.submitted| && c.submitted[w].Request? && c.submitted[w].id == id
      && WrittenBefore(c.effects, r, w, id)
  }

  /** A request that was written is pending or has been answered since. */
  ghost predicate Tracked(c: Calls) {
    && (forall p :: 0 <= p < |c.effects| && IsRequestWrite(c.effects[p]) ==>
          && c.effects[p].caller.Some?
          && (AnsweredBetween(c.effects, p, |c.effects|, c.effects[p].caller.value)
              || (c.effects[p].message.id in c.pending
                  && c.pending[c.effects[p].message.id] == c.effects[p].caller.value)))
    && (forall id :: id in c.pending ==> WrittenBefore(c.effects, |c.effects|, c.pending[id], id))
  }

  ghost predicate RouteInv(c: Calls) {
    SingleFlight(c.effects) && Routed(c) && Tracked(c)
  }

  lemma {:induction false} AnsweredMore(es: seq<Effect>, es': seq<Effect>, p: int, q: int, q': int, w: nat)
    requires es <= es' && q <= q' && AnsweredBetween(es, p, q, w)
    ensures AnsweredBetween(es', p, q', w)
  {
  }

  lemma {:induction false} WrittenMore(es: seq<Effect>, es': seq<Effect>, q: int, q': int, w: nat, id: RequestId)
    requires es <= es' && q <= q' && WrittenBefore(es, q, w, id)
    ensures WrittenBefore(es', q', w, id)
  {
  }

  /** Steps that write no request: callers may leave `pending`, but only by being answered. */
  ghost predicate QuietStep(c: Calls, c': Calls) {
    && c.submitted <= c'.submitted && c.effects <= c'.effects
    && (forall p :: |c.effects| <= p < |c'.effects| ==> !IsRequestWrite(c'.effects[p]))
    && (forall id :: id in c'.pending ==> id in c.pending && c'.pending[id] == c.pending[id])
    && (forall id :: id in c.pending && id !in c'.pending ==>
          AnsweredBetween(c'.effects, |c.effects| - 1, |c'.effects|, c.pending[id]))
    && (forall r :: |c.effects| <= r < |c'.effects| && IsRouted(c'.effects[r]) ==>
          c'.effects[r].outcome.id in c.pending && c.pending[c'.effects[r].outcome.id] == c'.effects[r].waiter)
  }

  lemma {:induction false} QuietSingleFlight(c: Calls, c': Calls)
    requires QuietStep(c, c') && SingleFlight(c.effects)
    ensures SingleFlight(c'.effects)
  {
  }

  lemma {:induction false} QuietRouted(c: Calls, c': Calls)
    requires QuietStep(c, c') && KeyInv(c) && Routed(c) && Tracked(c)
    ensures Routed(c')
  {
  }

  lemma {:induction false} QuietTracked(c: Calls, c': Calls)
    requires QuietStep(c, c') && Tracked(c)
    ensures Tracked(c')
  {
  }

  lemma {:induction false} QuietKeepsRoutes(c: Calls, c': Calls)
    requires QuietStep(c, c') && KeyInv(c) && RouteInv(c)
    ensures RouteInv(c')
  {
    QuietSingleFlight(c, c');
    QuietRouted(c, c');
    QuietTracked(c, c');
  }

  /** A request write, with the caller either registered or answered at once. */
  lemma {:induction false} RequestWriteKeepsRoutes(c: Calls, w: nat, id: RequestId, body: string, io: Io)
    requires KeyInv(c) && RouteInv(c) && id !in c.pending
    ensures RouteInv(HandleRequest(c, w, id, body, io).0)
  {
    var c' := HandleRequest(c, w, id, body, io).0;
    var n := |c.effects|;
    var e := Wrote(Some(w), RequestMessage(id, body), io.IoOk?);
    assert c'.effects[n] == e && c.effects <= c'.effects;
    assert !io.IoOk? ==> c'.effects[n + 1].Answered? && c'.effects[n + 1].waiter == w;
    RequestWriteSingleFlight(c, c', id);
    forall r | 0 <= r < |c'.effects| && IsRouted(c'.effects[r])
      ensures var v, i := c'.effects[r].waiter, c'.effects[r].outcome.id;
              && v < |c'.submitted| && c'.submitted[v].Request? && c'.submitted[v].id == i
              && WrittenBefore(c'.effects, r, v, i)
    {
      assert c.effects[r] == c'.effects[r];
      WrittenMore(c.effects, c'.effects, r, r, c.effects[r].waiter, c.effects[r].outcome.id);
    }
    RequestWriteTracked(c, w, id, body, io);
  }

  lemma {:induction false} RequestWriteSingleFlight(c: Calls, c': Calls, id: RequestId)
    requires SingleFlight(c.effects) && Tracked(c) && id !in c.pending
    requires c.effects <= c'.effects && |c.effects| < |c'.effects| <= |c.effects| + 2
    requires IsRequestWrite(c'.effects[|c.effects|]) && c'.effects[|c.effects|].message.id == id
    requires |c'.effects| == |c.effects| + 2 ==> !IsRequestWrite(c'.effects[|c.effects| + 1])
    ensures SingleFlight(c'.effects)
  {
  }

  lemma {:induction false} RequestWriteTracked(c: Calls, w: nat, id: RequestId, body: string, io: Io)
    requires Tracked(c) && id !in c.pending
    ensures Tracked(HandleRequest(c, w, id, body, io).0)
  {
    var c' := HandleRequest(c, w, id, body, io).0;
    var n := |c.effects|;
    assert c'.effects[n] == Wrote(Some(w), RequestMessage(id, body), io.IoOk?) && c.effects <= c'.effects;
    assert !io.IoOk? ==> c'.effects[n + 1].Answered? && c'.effects[n + 1].waiter == w;
    forall p | 0 <= p < |c'.effects| && IsRequestWrite(c'.effects[p])
      ensures c'.effects[p].caller.Some?
      ensures var v, i := c'.effects[p].caller.value, c'.effects[p].message.id;
              AnsweredBetween(c'.effects, p, |c'.effects|, v) || (i in c'.pending && c'.pending[i] == v)
    {
      if p < n {
        assert c.effects[p] == c'.effects[p];
        var v := c.effects[p].caller.value;
        if AnsweredBetween(c.effects, p, n, v) {
          AnsweredMore(c.effects, c'.effects, p, n, |c'.effects|, v);
        }
      }
    }
    forall i | i in c'.pending
      ensures WrittenBefore(c'.effects, |c'.effects|, c'.pending[i], i)
    {
      if i in c.pending { WrittenMore(c.effects, c'.effects, n, |c'.effects|, c.pending[i], i); }
    }
  }

  lemma {:induction false} AnswerEachIsQuiet(ws: seq<nat>, o: Outcome)
    requires o.Failed?
    ensures forall p :: 0 <= p < |AnswerEach(ws, o)| ==>
              !IsRequestWrite(AnswerEach(ws, o)[p]) && !IsRouted(AnswerEach(ws, o)[p])
  {
    if |ws| > 0 { AnswerEachIsQuiet(Front(ws), o); }
  }

  lemma {:induction false} DropChannelRoutes(c: Calls)
    requires KeyInv(c) && RouteInv(c)
    ensures RouteInv(DropChannel(c))
  {
    AnswerEachIsQuiet(c.queue, Failed(IoError(BrokenPipe, ReplyChannelClosed)));
    AnswerEachIsQuiet(c.blocked, Failed(IoError(BrokenPipe, WorkerChannelClosed)));
    QuietKeepsRoutes(c, DropChannel(c));
  }

  lemma {:induction false} SettleRoutes(c: Calls, id: RequestId, o: Outcome)
    requires KeyInv(c) && RouteInv(c) && (o.Reply? || o.ServerError? ==> o.id == id)
    ensures RouteInv(Settle(c, id, o))
  {
    var c' := Settle(c, id, o);
    if id in c.pending {
      assert c'.effects[|c.effects|] == Answered(c.pending[id], o);
    }
    QuietKeepsRoutes(c, c');
  }

  lemma {:induction false} AnswerRoutes(c: Calls, w: nat, o: Outcome)
    requires KeyInv(c) && RouteInv(c) && (o.Sent? || o.Failed?)
    ensures RouteInv(Answer(c, w, o))
  {
    QuietKeepsRoutes(c, Answer(c, w, o));
  }

  lemma {:induction false} WriteRoutes(c: Calls, w: Option<nat>, m: Message, io: Io)
    requires KeyInv(c) && RouteInv(c) && !m.RequestMessage?
    ensures KeyInv(Write(c, w, m, io)) && RouteInv(Write(c, w, m, io))
  {
    QuietKeepsRoutes(c, Write(c, w, m, io));
  }

  /** The places of callers in the channel do not matter to routing. */
  lemma {:induction false} ChannelRoutes(c: Calls, queue: seq<nat>, blocked: seq<nat>)
    requires KeyInv(c) && RouteInv(c)
    ensures KeyInv(c.(queue := queue, blocked := blocked)) && RouteInv(c.(queue := queue, blocked := blocked))
  {
  }

  lemma {:induction false} SubmitRoutes(c: Calls, command: Command, closed: bool)
    requires KeyInv(c) && RouteInv(c)
    ensures RouteInv(Submit(c, command, closed))
  {
    QuietKeepsRoutes(c, Submit(c, command, closed));
  }

  lemma {:induction false} WriteAndAnswerRoutes(c: Calls, w: nat, m: Message, io: Io)
    requires KeyInv(c) && RouteInv(c) && !m.RequestMessage?
    ensures RouteInv(WriteAndAnswer(c, w, m, io))
  {
    WriteRoutes(c, Some(w), m, io);
    AnswerRoutes(Write(c, Some(w), m, io), w, WriteOutcome(io));
  }

  lemma {:induction false} HandleCommandRoutes(c: Calls, io: Io)
    requires KeyInv(c) && RouteInv(c) && |c.queue| > 0 && c.queue[0] < |c.submitted|
    ensures RouteInv(HandleCommand(c, io).0)
  {
    var w := c.queue[0];
    var c1 := c.(queue := c.queue[1..]);
    assert c1 == c.(queue := c.queue[1..], blocked := c.blocked);
    ChannelRoutes(c, c.queue[1..], c.blocked);
    match c.submitted[w]
    case Request(id, body) =>
      if id in c.pending { AnswerRoutes(c1, w, Failed(IoError(InvalidInput, DuplicateId(id)))); }
      else { RequestWriteKeepsRoutes(c1, w, id, body, io); }
    case Notify(body) => WriteAndAnswerRoutes(c1, w, NotificationMessage(body), io);
    case ResolveServerRequest(id, result) => WriteAndAnswerRoutes(c1, w, ResponseMessage(id, result), io);
    case RejectServerRequest(id, error) => WriteAndAnswerRoutes(c1, w, ErrorMessage(id, error), io);
    case Shutdown => AnswerRoutes(c1, w, Last(HandleCommand(c, io).0.effects).outcome);
  }
}
