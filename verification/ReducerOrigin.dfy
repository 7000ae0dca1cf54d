/**
  Where the thread, the image count, the connection and the accepted lines of a turn event
  come from. Several kinds of fact overwrite the first two, so each is traced to one fact.
 */
module ReducerOrigin {
  import opened Prelude
  import opened Reducer
  import opened ReducerTurns
  import opened ReducerPayload
  import opened ReducerHistory
  import AcceptedLines

  // ------------------------------------------------------- what a fact contributes

  /** The request that a start response for this turn answers. */
  function StartedBy(s: State, f: Fact, turnId: string): Option<PendingRequest> {
    if MatchesStart(s, f) && f.turnId == turnId then Some(s.requests[(f.connectionId, f.requestId)]) else None
  }

  /** The thread a fact names for the turn, whatever was named before. */
  function NamedThread(s: State, f: Fact, turnId: string): Option<string> {
    if StartedBy(s, f, turnId).Some? then Some(StartedBy(s, f, turnId).value.threadId)
    else if Updates(f, turnId, ConfigKind) then Some(f.update.config.threadId)
    else if Updates(f, turnId, UsageKind) || Updates(f, turnId, DiffKind) then Some(f.update.threadId)
    else None
  }

  function GivenImages(s: State, f: Fact, turnId: string): Option<nat> {
    if StartedBy(s, f, turnId).Some? then Some(StartedBy(s, f, turnId).value.images)
    else if Updates(f, turnId, ConfigKind) then Some(f.update.config.images)
    else None
  }

  function GivenConnection(s: State, f: Fact, turnId: string): Option<nat> {
    if StartedBy(s, f, turnId).Some? then Some(f.connectionId) else None
  }

  // -------------------------------------------------------- the latest in a history

  /** The thread named by the latest fact from position `from` on that names one. */
  function LatestThread(facts: seq<Fact>, from: nat, turnId: string): Option<string>
    decreases |facts|
  {
    if |facts| <= from then None
    else
      var here := NamedThread(After(INITIAL, Front(facts)), Last(facts), turnId);
      if here.Some? then here else LatestThread(Front(facts), from, turnId)
  }

  /** The thread of the first error reported: used only until a thread is named. */
  function FirstErrorThread(facts: seq<Fact>, from: nat, turnId: string): Option<string>
    decreases |facts|
  {
    if |facts| <= from then None
    else
      var earlier := FirstErrorThread(Front(facts), from, turnId);
      if earlier.None? && Updates(Last(facts), turnId, ErrorKind) && LatestThread(Front(facts), from, turnId).None?
      then Some(Last(facts).update.threadId) else earlier
  }

  function LatestImages(facts: seq<Fact>, from: nat, turnId: string): Option<nat>
    decreases |facts|
  {
    if |facts| <= from then None
    else
      var here := GivenImages(After(INITIAL, Front(facts)), Last(facts), turnId);
      if here.Some? then here else LatestImages(Front(facts), from, turnId)
  }

  /** The connection of the latest start response. */
  function LatestStart(facts: seq<Fact>, from: nat, turnId: string): Option<nat>
    decreases |facts|
  {
    if |facts| <= from then None
    else
      var here := GivenConnection(After(INITIAL, Front(facts)), Last(facts), turnId);
      if here.Some? then here else LatestStart(Front(facts), from, turnId)
  }

  // ------------------------------------------------------------------- one step

  lemma {:induction false} TouchedOrigin(s: State, f: Fact, turnId: string)
    requires Touches(s, f) == Some(turnId)
    ensures var t, t' := TurnOf(s, turnId), Touched(s, f);
            && t'.images == OrElse(GivenImages(s, f, turnId), t.images)
            && t'.connection == OrElse(GivenConnection(s, f, turnId), t.connection)
            && t'.threadId == OrElse(NamedThread(s, f, turnId),
                                     if Updates(f, turnId, ErrorKind) then OrElse(t.threadId, Some(f.update.threadId))
                                     else t.threadId)
            && (t'.config.Some? ==>
                  t.config.Some? || (NamedThread(s, f, turnId).Some? && GivenImages(s, f, turnId).Some?))
  {
  }

  lemma {:induction false} UntouchedOrigin(s: State, f: Fact, turnId: string)
    requires Touches(s, f) != Some(turnId)
    ensures StartedBy(s, f, turnId).None? && (forall kind :: !Updates(f, turnId, kind))
    ensures NamedThread(s, f, turnId).None? && GivenImages(s, f, turnId).None? && GivenConnection(s, f, turnId).None?
  {
  }

  /** A turn's thread, images and connection are those of the history from a position on. */
  ghost predicate Originates(t: Turn, facts: seq<Fact>, from: nat, turnId: string) {
    && t.threadId == OrElse(LatestThread(facts, from, turnId), FirstErrorThread(facts, from, turnId))
    && t.images == LatestImages(facts, from, turnId)
    && t.connection == LatestStart(facts, from, turnId)
    && (t.config.Some? ==> LatestThread(facts, from, turnId).Some? && LatestImages(facts, from, turnId).Some?)
  }

  /** The readings grow by one fact. */
  lemma {:induction false} OriginGrows(facts: seq<Fact>, f: Fact, from: nat, turnId: string)
    requires from <= |facts|
    ensures var s, more := After(INITIAL, facts), facts + [f];
            && LatestThread(more, from, turnId) == OrElse(NamedThread(s, f, turnId), LatestThread(facts, from, turnId))
            && LatestImages(more, from, turnId) == OrElse(GivenImages(s, f, turnId), LatestImages(facts, from, turnId))
            && LatestStart(more, from, turnId)
               == OrElse(GivenConnection(s, f, turnId), LatestStart(facts, from, turnId))
            && FirstErrorThread(more, from, turnId)
               == (var e := FirstErrorThread(facts, from, turnId);
                   if e.None? && Updates(f, turnId, ErrorKind) && LatestThread(facts, from, turnId).None?
                   then Some(f.update.threadId) else e)
  {
    assert Front(facts + [f]) == facts;
  }

  lemma {:induction false} TouchedOriginates(facts: seq<Fact>, f: Fact, from: nat, turnId: string)
    requires from <= |facts| && Touches(After(INITIAL, facts), f) == Some(turnId)
    requires Originates(TurnOf(After(INITIAL, facts), turnId), facts, from, turnId)
    ensures Originates(Touched(After(INITIAL, facts), f), facts + [f], from, turnId)
  {
    OriginGrows(facts, f, from, turnId);
    TouchedOrigin(After(INITIAL, facts), f, turnId);
  }

  lemma {:induction false} UntouchedOriginates(facts: seq<Fact>, f: Fact, from: nat, turnId: string, t: Turn)
    requires from <= |facts| && Touches(After(INITIAL, facts), f) != Some(turnId)
    requires Originates(t, facts, from, turnId)
    ensures Originates(t, facts + [f], from, turnId)
  {
    OriginGrows(facts, f, from, turnId);
    UntouchedOrigin(After(INITIAL, facts), f, turnId);
  }

  // ------------------------------------------------------------ over a whole history

  lemma {:induction false} NextTurn(s: State, f: Fact, turnId: string)
    requires turnId in Next(s, f).turns
    ensures if Touches(s, f) == Some(turnId) then Next(s, f).turns[turnId] == Touched(s, f)
            else turnId in s.turns && Next(s, f).turns[turnId] == s.turns[turnId]
  {
  }

  /** In every reachable state: the thread, images and connection of a turn, by the facts they come from. */
  lemma {:induction false} TurnsOriginate(facts: seq<Fact>, turnId: string)
    ensures Originates(TurnOf(After(INITIAL, facts), turnId), facts, Birth(facts, turnId), turnId)
    decreases |facts|
  {
    if turnId in After(INITIAL, facts).turns {
      var h, f := Front(facts), Last(facts);
      TurnsOriginate(h, turnId);
      SinceBirth(facts, turnId);
      assert facts == h + [f];
      NextTurn(After(INITIAL, h), f, turnId);
      if Touches(After(INITIAL, h), f) == Some(turnId) {
        TouchedOriginates(h, f, Birth(h, turnId), turnId);
      } else {
        UntouchedOriginates(h, f, Birth(h, turnId), turnId, TurnOf(After(INITIAL, h), turnId));
      }
    }
  }

  /**
    A turn event names the thread and the image count of the latest fact that gave one, and
    the client of the latest start response's connection - or, if the turn had none, of its
    thread's connection - as that connection was last initialised.
   */
  lemma {:induction false} TurnEventOrigin(facts: seq<Fact>, f: Fact, turnId: string)
    requires Finishes(After(INITIAL, facts), f) && Touches(After(INITIAL, facts), f) == Some(turnId)
    ensures var s, all, from := After(INITIAL, facts), facts + [f], Birth(facts, turnId);
            && |Emitted(s, f)| > 0 && Emitted(s, f)[0].TurnEvent?
            && var p := Emitted(s, f)[0].turn;
               && LatestThread(all, from, turnId) == Some(p.threadId)
               && LatestImages(all, from, turnId) == Some(p.images)
               && p.threadId in s.threads && s.threads[p.threadId].metadata == Some(p.metadata)
               && var c := OrElse(LatestStart(all, from, turnId), s.threads[p.threadId].connection);
                  c.Some? && LatestConnection(facts, c.value) == Some(p.connection)
  {
    var s, from := After(INITIAL, facts), Birth(facts, turnId);
    TurnsOriginate(facts, turnId);
    TouchedOriginates(facts, f, from, turnId);
    FirstIsTheTurnEvent(s, f);
    PayloadOrigin(s, turnId, Touched(s, f));
    var p := Payload(s, turnId, Touched(s, f));
    ConnectionsMatchHistory(facts, OrElse(Touched(s, f).connection, s.threads[p.threadId].connection).value);
  }

  lemma {:induction false} PayloadOrigin(s: State, turnId: string, t: Turn)
    requires Ready(s, t)
    ensures var p := Payload(s, turnId, t);
            && t.threadId == Some(p.threadId) && t.images == Some(p.images)
            && p.threadId in s.threads && s.threads[p.threadId].metadata == Some(p.metadata)
            && var c := OrElse(t.connection, s.threads[p.threadId].connection);
               c.Some? && c.value in s.connections && s.connections[c.value] == p.connection
  {
  }

  // ------------------------------------------------------------------ accepted lines

  /** The events of a turn whose latest diff this is. */
  function EventsWithDiff(p: TurnPayload, diff: Option<TurnUpdate>): seq<Event>
    requires diff.Some? ==> KindOf(diff.value) == DiffKind
  {
    if diff.None? then [TurnEvent(p)]
    else
      var (added, deleted) := AcceptedLines.LineCounts(diff.value.diff);
      if added + deleted == 0 then [TurnEvent(p)]
      else [TurnEvent(p), AcceptedLinesEvent(p.turnId, p.threadId, p.config.model, added, deleted)]
  }

  /**
    Beside the turn event goes one accepted-lines event, exactly if the latest diff ingested
    since the turn's state was created adds or deletes a line; it carries that diff's counts
    and the turn event's own thread and model.
   */
  lemma {:induction false} TurnEventsCountTheLatestDiff(facts: seq<Fact>, f: Fact, turnId: string)
    requires Finishes(After(INITIAL, facts), f) && Touches(After(INITIAL, facts), f) == Some(turnId)
    ensures var s := After(INITIAL, facts);
            && Emitted(s, f) == EventsWithDiff(Payload(s, turnId, Touched(s, f)),
                                               Latest(facts[Birth(facts, turnId)..] + [f], turnId, DiffKind))
  {
    FinishedTurnHoldsTheLatest(facts, f, turnId, DiffKind);
    FinishedEvents(After(INITIAL, facts), f, turnId, Latest(facts[Birth(facts, turnId)..] + [f], turnId, DiffKind));
  }

  lemma {:induction false} EmittedWhenFinished(s: State, f: Fact)
    requires Finishes(s, f)
    ensures Emitted(s, f) == TurnEvents(s, Touches(s, f).value, Touched(s, f))
  {
  }

  lemma {:induction false} DiffEvents(s: State, turnId: string, t: Turn, diff: Option<TurnUpdate>)
    requires Ready(s, t) && (diff.Some? ==> KindOf(diff.value) == DiffKind) && Remembers(t, DiffKind, diff)
    ensures TurnEvents(s, turnId, t) == EventsWithDiff(Payload(s, turnId, t), diff)
  {
  }

  lemma {:induction false} FinishedEvents(s: State, f: Fact, turnId: string, diff: Option<TurnUpdate>)
    requires Finishes(s, f) && Touches(s, f) == Some(turnId)
    requires diff.Some? ==> KindOf(diff.value) == DiffKind
    requires Remembers(Touched(s, f), DiffKind, diff)
    ensures Emitted(s, f) == EventsWithDiff(Payload(s, turnId, Touched(s, f)), diff)
  {
    EmittedWhenFinished(s, f);
    DiffEvents(s, turnId, Touched(s, f), diff);
  }
}
