/**
  The initialize handshake. The frames given to it are those that arrive before its deadline;
  the lookup of a text member in a JSON result is a parameter.
 */
module RemoteHandshake {
  import opened Prelude
  import opened RemoteCalls
  import opened RemoteWorker
  import opened Whitespace

  const INITIALIZE_ID: RequestId := StringId("initialize")

  /** A frame, and what happens to the reply it may call for. */
  datatype Inbound = Inbound(frame: Frame, reply: Io)

  datatype Handshake =
    | Established(events: seq<RemoteWorker.Event>, used: nat, about: Server)
    | Refused(error: IoError)

  /** What the server says about itself. */
  datatype Server = Server(version: Option<string>, home: Option<string>)

  type Lookup = (string, string) -> Option<string>

  function Frames(inbound: seq<Inbound>): seq<Frame> {
    seq(|inbound|, i requires 0 <= i < |inbound| => inbound[i].frame)
  }

  // -------------------------------------------------------- what the response says

  function SlashAt(s: string): (n: nat)
    ensures n <= |s| && (n < |s| ==> s[n] == '/') && forall i :: 0 <= i < n ==> s[i] != '/'
  {
    if |s| == 0 || s[0] == '/' then 0 else 1 + SlashAt(s[1..])
  }

  /** The first word after the first slash of a user agent. */
  function VersionOf(userAgent: string): Option<string> {
    var n := SlashAt(userAgent);
    if n == |userAgent| || |Words(userAgent[n + 1..])| == 0 then None else Some(Words(userAgent[n + 1..])[0])
  }

  function About(field: Lookup, result: string): Server {
    var agent, home := field(result, "userAgent"), field(result, "codexHome");
    Server(if agent.Some? then VersionOf(agent.value) else None,
           if home.Some? && |home.value| > 0 then home else None)
  }

  /** A user agent in its parts: product, slash, perhaps spaces, version, perhaps a comment. */
  ghost predicate IsUserAgent(s: string, product: string, spaces: string, version: string, comment: string) {
    '/' !in product && |product| < |s| && product + "/" <= s
    && StartsWithWord(s[|product| + 1..], spaces, version, comment)
  }

  lemma {:induction false} VersionOfParts(s: string, product: string, spaces: string, version: string, comment: string)
    requires IsUserAgent(s, product, spaces, version, comment)
    ensures VersionOf(s) == Some(version)
  {
    var n := |product|;
    assert (product + "/")[n] == '/' && forall i :: 0 <= i < n ==> s[i] == (product + "/")[i] == product[i];
    assert SlashAt(s) == n;
    assert spaces + version + comment == spaces + (version + comment);
    WordsAfterSpaces(spaces, version + comment);
    WordsOfWordThen(version, comment);
  }

  /** A version is found exactly in a user agent that has one, and it is that one. */
  lemma {:induction false} VersionExactly(s: string, version: string)
    ensures VersionOf(s) == Some(version)
            <==> exists product, spaces, comment :: IsUserAgent(s, product, spaces, version, comment)
  {
    if VersionOf(s) == Some(version) {
      var n := SlashAt(s);
      var spaces, comment := FirstWord(s[n + 1..]);
      assert IsUserAgent(s, s[..n], spaces, version, comment);
    } else if product, spaces, comment :| IsUserAgent(s, product, spaces, version, comment) {
      VersionOfParts(s, product, spaces, version, comment);
    }
  }

  // ------------------------------------------------------------------ the exchange

  /** The loop goes on after this frame. */
  predicate Passes(i: Inbound) {
    match i.frame
    case ResponseFrame(id, _) => id != INITIALIZE_ID
    case ErrorFrame(id, _) => id != INITIALIZE_ID
    case NotificationFrame(_) => true
    case RequestFrame(_, _, request) => request.Some? || i.reply.IoOk?
    case ControlFrame => true
    case _ => false
  }

  /** Position `n` is where the handshake is decided, or the end of what arrived in time. */
  ghost predicate DecidedAt(inbound: seq<Inbound>, n: nat) {
    && n <= |inbound|
    && (forall m :: 0 <= m < n ==> !Decides(inbound[m]))
    && (n < |inbound| ==> Decides(inbound[n]))
  }

  /** The answer to `initialize`, a reply that could not be written, or the end of the connection. */
  predicate Decides(i: Inbound) {
    var f := i.frame;
    || ((f.ResponseFrame? || f.ErrorFrame?) && f.id == StringId("initialize"))
    || (f.RequestFrame? && f.request.None? && i.reply.IoFailed?)
    || f.InvalidText? || f.CloseFrame? || f.TransportError? || f.EndOfStream?
  }

  lemma {:induction false} PassesExactly(i: Inbound)
    ensures Passes(i) <==> !Decides(i)
  {
  }

  /** The error is the one for that frame. */
  ghost predicate IsFailure(i: Inbound, e: IoError) {
    var f := i.frame;
    && (f.ErrorFrame? ==> e == IoError(OtherKind, InitializeRejected(f.error)))
    && (f.RequestFrame? && i.reply.IoFailed? ==> e == IoError(OtherKind, WriteFailed(i.reply.err)))
    && (f.InvalidText? ==> e == IoError(OtherKind, InvalidJsonRpc(f.err)))
    && (f.CloseFrame? ==> e.kind == ConnectionAborted && e.reason.PeerClosed?)
    && (f.CloseFrame? && f.reason in {None, Some("")} ==> e.reason.reason == "connection closed during initialize")
    && (f.CloseFrame? && f.reason !in {None, Some("")} ==> Some(e.reason.reason) == f.reason)
    && (f.TransportError? ==> e == IoError(OtherKind, TransportFailed(f.err)))
    && (f.EndOfStream? ==> e == IoError(UnexpectedEof, StreamEnded))
  }

  /** The error a deciding frame stands for, unless it is the awaited response. */
  function Failure(i: Inbound): IoError
    requires !Passes(i) && !i.frame.ResponseFrame?
  {
    match i.frame
    case ErrorFrame(_, error) => IoError(OtherKind, InitializeRejected(error))
    case RequestFrame(_, _, _) => WriteError(i.reply)
    case InvalidText(err) => IoError(OtherKind, InvalidJsonRpc(err))
    case CloseFrame(reason) =>
      IoError(ConnectionAborted, PeerClosed(if reason.Some? && |reason.value| > 0 then reason.value
                                            else "connection closed during initialize"))
    case TransportError(err) => IoError(OtherKind, TransportFailed(err))
    case EndOfStream => IoError(UnexpectedEof, StreamEnded)
  }

  /** How a handshake decided at `n` ends. */
  ghost predicate Concludes(r: Handshake, request: Io, inbound: seq<Inbound>, n: nat, initialized: Io, field: Lookup)
    requires DecidedAt(inbound, n)
  {
    if request.IoFailed? then r == Refused(IoError(OtherKind, WriteFailed(request.err)))
    else if n == |inbound| then r == Refused(IoError(TimedOut, InitializeTimedOut))
    else if !inbound[n].frame.ResponseFrame? then r.Refused? && IsFailure(inbound[n], r.error)
    else if initialized.IoFailed? then r == Refused(IoError(OtherKind, WriteFailed(initialized.err)))
    else IsEstablished(r, inbound, n, field)
  }

  lemma {:induction false} EventsOfNext(inbound: seq<Inbound>, n: nat)
    requires n < |inbound|
    ensures var e := EventOf(inbound[n].frame);
            EventsOf(Frames(inbound[..n + 1]))
            == if e.Some? then EventsOf(Frames(inbound[..n])) + [e.value] else EventsOf(Frames(inbound[..n]))
  {
    assert Frames(inbound[..n + 1]) == Frames(inbound[..n]) + [inbound[n].frame];
    EventsAppend(Frames(inbound[..n]), inbound[n].frame);
  }

  /** The replies to unsupported requests among the frames read, one each and in order. */
  function Refusals(fs: seq<Frame>): seq<Message> {
    if |fs| == 0 then []
    else match Last(fs)
         case RequestFrame(id, name, None) => Refusals(Front(fs)) + [MethodNotFound(id, name)]
         case _ => Refusals(Front(fs))
  }

  lemma {:induction false} RefusalsOfNext(inbound: seq<Inbound>, n: nat)
    requires n < |inbound|
    ensures var f := inbound[n].frame;
            Refusals(Frames(inbound[..n + 1]))
            == if f.RequestFrame? && f.request.None?
               then Refusals(Frames(inbound[..n])) + [MethodNotFound(f.id, f.name)]
               else Refusals(Frames(inbound[..n]))
  {
    var fs := Frames(inbound[..n]);
    assert Frames(inbound[..n + 1]) == fs + [inbound[n].frame];
    assert Front(fs + [inbound[n].frame]) == fs;
  }

  lemma {:induction false} DecidedOnce(inbound: seq<Inbound>, n: nat)
    requires DecidedAt(inbound, n)
    ensures forall m: nat :: DecidedAt(inbound, m) ==> m == n
  {
  }

  /** Where the handshake is decided always exists. */
  lemma {:induction false} DecidedSomewhere(inbound: seq<Inbound>, n: nat)
    requires n <= |inbound| && forall m :: 0 <= m < n ==> !Decides(inbound[m])
    ensures exists k: nat :: DecidedAt(inbound, k)
    decreases |inbound| - n
  {
    if n < |inbound| && !Decides(inbound[n]) {
      DecidedSomewhere(inbound, n + 1);
    } else {
      assert DecidedAt(inbound, n);
    }
  }

  /** How much of what arrived is read when the handshake is decided at `n`. */
  function Read(inbound: seq<Inbound>, n: nat): nat {
    if n < |inbound| then n + 1 else |inbound|
  }

  /**
    Reads up to and including the deciding frame, keeping the events of the frames passed
    over and replying to unsupported requests; `n` is where it stopped.
   */
  method ReadUntilDecided(inbound: seq<Inbound>)
    returns (n: nat, pendingEvents: seq<RemoteWorker.Event>, replies: seq<Message>)
    ensures DecidedAt(inbound, n)
    ensures pendingEvents == EventsOf(Frames(inbound[..n]))
    ensures replies == Refusals(Frames(inbound[..Read(inbound, n)]))
  {
    n, pendingEvents, replies := 0, [], [];
    while n < |inbound|
      invariant 0 <= n <= |inbound|
      invariant forall m :: 0 <= m < n ==> !Decides(inbound[m])
      invariant pendingEvents == EventsOf(Frames(inbound[..n]))
      invariant replies == Refusals(Frames(inbound[..n]))
    {
      var frame := inbound[n].frame;
      RefusalsOfNext(inbound, n);
      PassesExactly(inbound[n]);
      if frame.RequestFrame? && frame.request.None? {
        replies := replies + [MethodNotFound(frame.id, frame.name)];
      }
      if !Passes(inbound[n]) {
        return;
      }
      EventsOfNext(inbound, n);
      if EventOf(frame).Some? {
        pendingEvents := pendingEvents + [EventOf(frame).value];
      }
      n := n + 1;
    }
  }

  /** After the loop: the verdict on where it stopped, and the last write. */
  method Conclude(inbound: seq<Inbound>, n: nat, pendingEvents: seq<RemoteWorker.Event>, initialized: Io, field: Lookup)
    returns (r: Handshake)
    requires DecidedAt(inbound, n) && pendingEvents == EventsOf(Frames(inbound[..n]))
    ensures Concludes(r, IoOk, inbound, n, initialized, field)
  {
    if n < |inbound| { PassesExactly(inbound[n]); }
    if n == |inbound| {
      r := Refused(IoError(TimedOut, InitializeTimedOut));
    } else if !inbound[n].frame.ResponseFrame? {
      r := Refused(Failure(inbound[n]));
    } else if initialized.IoFailed? {
      r := Refused(WriteError(initialized));
    } else {
      EventsOfNext(inbound, n);
      EventsDecode(Frames(inbound[..n + 1]));
      r := Established(pendingEvents, n + 1, About(field, inbound[n].frame.result));
    }
  }

  /** The handshake was decided by the awaited response, and hands over all it read and what the response says. */
  ghost predicate IsEstablished(r: Handshake, inbound: seq<Inbound>, n: nat, field: Lookup)
    requires n < |inbound| && inbound[n].frame.ResponseFrame?
  {
    var agent, home := field(inbound[n].frame.result, "userAgent"), field(inbound[n].frame.result, "codexHome");
    && r.Established? && r.used == n + 1
    && r.events == EventsOf(Frames(inbound[..n + 1])) && Decodes(Frames(inbound[..n + 1]), r.events)
    && r.about.version == (if agent.Some? then VersionOf(agent.value) else None)
    && r.about.home == (if home in {None, Some("")} then None else home)
  }

  /**
    The handshake succeeds exactly when both writes go through and the first deciding frame
    is the response to `initialize`; it then hands over the events of all the frames it read,
    in order, and what the response says about the server. Every unsupported request it read
    has been replied to, once and in order.
   */
  method Initialize(request: Io, inbound: seq<Inbound>, initialized: Io, field: Lookup)
    returns (r: Handshake, replies: seq<Message>)
    ensures exists n: nat :: DecidedAt(inbound, n)
    ensures forall n: nat :: DecidedAt(inbound, n) ==> Concludes(r, request, inbound, n, initialized, field)
    ensures forall n: nat :: DecidedAt(inbound, n) ==>
              replies == if request.IoFailed? then [] else Refusals(Frames(inbound[..Read(inbound, n)]))
  {
    replies := [];
    if request.IoFailed? {
      DecidedSomewhere(inbound, 0);
      return Refused(WriteError(request)), [];
    }
    var n, pendingEvents;
    n, pendingEvents, replies := ReadUntilDecided(inbound);
    DecidedOnce(inbound, n);
    r := Conclude(inbound, n, pendingEvents, initialized, field);
  }
}
