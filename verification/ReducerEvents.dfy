/**
  For every fact, exactly which events it emits, in the terms of the history before it.
  (Completed items are in `ReducerLedger.ToolEventExactly`.)
 */
module ReducerEvents {
  import opened Prelude
  import opened Reducer
  import opened ReducerTurns
  import opened ReducerPayload
  import opened ReducerOrigin
  import opened ReducerHistory
  import opened ReducerLedger

  // ------------------------------------------------------------------ threads

  /**
    An opened thread is announced if its connection was initialised, a subagent always, both
    with the metadata they were given.
   */
  lemma {:induction false} ThreadEventsExactly(facts: seq<Fact>, f: Fact)
    requires f.ThreadOpened? || f.SubAgentStarted?
    ensures var es := Emitted(After(INITIAL, facts), f);
            && (f.ThreadOpened? ==>
                  var c := LatestConnection(facts, f.connectionId);
                  es == if c.None? then [] else [ThreadInitialized(f.threadId, f.metadata, c)])
            && (f.SubAgentStarted? ==>
                  var m := Metadata(f.sessionId, Some("subagent"), New, Some(f.source), f.parent);
                  es == [ThreadInitialized(f.threadId, m, None)])
  {
    if f.ThreadOpened? { ConnectionsMatchHistory(facts, f.connectionId); }
  }

  /** A report on a thread goes out if the thread's context is known. */
  lemma {:induction false} ReportEventExactly(facts: seq<Fact>, f: Fact)
    requires f.ContextReported?
    ensures var c := ContextOf(facts, f.threadId);
            Emitted(After(INITIAL, facts), f)
            == if c.None? then [] else [ContextEvent(f.threadId, f.body, c.value.0, c.value.1)]
  {
    ContextsMatchHistory(facts, f.threadId);
  }

  /** These facts only leave a trace in the state. */
  lemma {:induction false} SilentFacts(s: State, f: Fact)
    requires f.Initialize? || f.ClientRequested? || f.ItemStarted? || f.ApprovalRequested?
    ensures Emitted(s, f) == []
  {
  }

  // ------------------------------------------------------------------- steers

  /** The steer that an answer is for. */
  function SteerFor(facts: seq<Fact>, f: Fact): Option<PendingRequest>
    requires f.TurnSteerAnswered? || f.RequestFailed?
  {
    var p := OpenRequest(facts, (f.connectionId, f.requestId));
    if p.Some? && p.value.TurnSteer? then p else None
  }

  lemma {:induction false} SteerEventStep(s: State, f: Fact)
    requires f.TurnSteerAnswered? || f.RequestFailed?
    ensures var key := (f.connectionId, f.requestId);
            var result := if f.TurnSteerAnswered? then Accepted(f.turnId) else Rejected(f.reason);
            Emitted(s, f)
            == if key !in s.requests || !s.requests[key].TurnSteer? || f.connectionId !in s.connections
                  || StoredMetadata(s, s.requests[key].threadId).None? then []
               else [SteerEvent(s.requests[key], result, s.connections[f.connectionId],
                                StoredMetadata(s, s.requests[key].threadId).value)]
  {
  }

  /**
    An accepted or failed steer is reported once, exactly if it is open under its own
    connection and id, that connection was initialised and the steer's thread is known.
   */
  lemma {:induction false} SteerEventExactly(facts: seq<Fact>, f: Fact)
    requires f.TurnSteerAnswered? || f.RequestFailed?
    ensures var steer, c := SteerFor(facts, f), LatestConnection(facts, f.connectionId);
            Emitted(After(INITIAL, facts), f)
            == if steer.None? || c.None? || MetadataOf(facts, steer.value.threadId).None? then []
               else [SteerEvent(steer.value, if f.TurnSteerAnswered? then Accepted(f.turnId) else Rejected(f.reason),
                                c.value, MetadataOf(facts, steer.value.threadId).value)]
  {
    SteerEventStep(After(INITIAL, facts), f);
    RequestsMatchHistory(facts, (f.connectionId, f.requestId));
    ConnectionsMatchHistory(facts, f.connectionId);
    var steer := SteerFor(facts, f);
    if steer.Some? { ThreadsMatchHistory(facts, steer.value.threadId); }
  }

  /**
    So a steer event reports the steer that is open under the answer's own connection and id,
    with the answer's verdict, and the steer is then no longer open.
   */
  lemma {:induction false} SteerEventReportsItsRequest(facts: seq<Fact>, f: Fact, i: nat)
    requires var s := After(INITIAL, facts); i < |Emitted(s, f)| && Emitted(s, f)[i].SteerEvent?
    ensures f.TurnSteerAnswered? || f.RequestFailed?
    ensures var e, key := Emitted(After(INITIAL, facts), f)[i], (f.connectionId, f.requestId);
            && OpenRequest(facts, key) == Some(e.request) && e.request.TurnSteer?
            && e.result == (if f.TurnSteerAnswered? then Accepted(f.turnId) else Rejected(f.reason))
            && OpenRequest(facts + [f], key) == None
  {
    EmitsAtMostOne(After(INITIAL, facts), f);
    SteerEventExactly(facts, f);
    assert Last(facts + [f]) == f;
  }

  // ------------------------------------------------------------------ reviews

  /** A decided review is reported once, exactly if its thread's context is known. */
  lemma {:induction false} ReviewEventExactly(facts: seq<Fact>, f: Fact)
    requires f.ReviewAnswered? || f.GuardianCompleted?
    ensures var d := Decision(facts, f);
            Emitted(After(INITIAL, facts), f)
            == if d.None? then []
               else
                 var c := ContextOf(facts, d.value.review.threadId);
                 if c.None? then [] else [ReviewEvent(d.value, c.value.0, c.value.1)]
  {
    DecisionsMatchHistory(facts, f);
    var d := Decision(facts, f);
    if d.Some? { ContextsMatchHistory(facts, d.value.review.threadId); }
  }

  // -------------------------------------------------------------------- turns

  /** The fact makes the reducer look whether the turn is complete. */
  predicate Prompts(facts: seq<Fact>, f: Fact, turnId: string) {
    || (f.TurnUpdated? && f.turnId == turnId && KindOf(f.update) in {ConfigKind, ProfileKind, CompletedKind, UsageKind})
    || (f.TurnStartAnswered? && Opens(facts, f, turnId))
  }

  /** What the turn has been told, `f` included. */
  ghost predicate HasAllParts(facts: seq<Fact>, f: Fact, turnId: string) {
    var since := facts[Birth(facts, turnId)..] + [f];
    && Latest(since, turnId, ConfigKind).Some?
    && Latest(since, turnId, ProfileKind).Some?
    && Latest(since, turnId, CompletedKind).Some?
  }

  /** The client of the turn's event: by its latest start response, else by its thread. */
  function ClientOf(facts: seq<Fact>, start: Option<nat>, threadId: string): Option<Connection> {
    var c := OrElse(start, ConnectionOf(facts, threadId));
    if c.None? then None else LatestConnection(facts, c.value)
  }

  ghost predicate HasContext(facts: seq<Fact>, f: Fact, turnId: string) {
    var all, from := facts + [f], Birth(facts, turnId);
    var threadId := OrElse(LatestThread(all, from, turnId), FirstErrorThread(all, from, turnId));
    && threadId.Some? && MetadataOf(facts, threadId.value).Some?
    && ClientOf(facts, LatestStart(all, from, turnId), threadId.value).Some?
  }

  lemma {:induction false} ContextFound(facts: seq<Fact>, own: Option<nat>, threadId: string)
    ensures TurnContext(After(INITIAL, facts), own, threadId).Found?
            <==> MetadataOf(facts, threadId).Some? && ClientOf(facts, own, threadId).Some?
  {
    ThreadsMatchHistory(facts, threadId);
    var c := OrElse(own, ConnectionOf(facts, threadId));
    if c.Some? { ConnectionsMatchHistory(facts, c.value); }
  }

  lemma {:induction false} PromptsTouch(facts: seq<Fact>, f: Fact, turnId: string)
    ensures Prompts(facts, f, turnId)
            <==> && Touches(After(INITIAL, facts), f) == Some(turnId)
                 && (f.TurnStartAnswered? || (f.TurnUpdated? && Reconsiders(f.update)))
  {
    if f.TurnStartAnswered? { RequestsMatchHistory(facts, (f.connectionId, f.requestId)); }
  }

  lemma {:induction false} ReadyExactly(facts: seq<Fact>, f: Fact, turnId: string)
    requires Touches(After(INITIAL, facts), f) == Some(turnId)
    ensures Ready(After(INITIAL, facts), Touched(After(INITIAL, facts), f))
            <==> HasAllParts(facts, f, turnId) && HasContext(facts, f, turnId)
  {
    var t := Touched(After(INITIAL, facts), f);
    FinishedTurnHoldsTheLatest(facts, f, turnId, ConfigKind);
    FinishedTurnHoldsTheLatest(facts, f, turnId, ProfileKind);
    FinishedTurnHoldsTheLatest(facts, f, turnId, CompletedKind);
    TurnsOriginate(facts, turnId);
    TouchedOriginates(facts, f, Birth(facts, turnId), turnId);
    if t.threadId.Some? { ContextFound(facts, t.connection, t.threadId.value); }
  }

  /**
    Turn events. A fact emits a turn event for a turn exactly if it is one of its config,
    profile, completion or token usage or the answer to its open start request, and with it
    the turn has been told a config, a profile and a completion since its state was created,
    its thread is known, and its client - by its latest start response, else by its thread -
    was initialised.
   */
  lemma {:induction false} TurnEventExactly(facts: seq<Fact>, f: Fact, turnId: string)
    ensures TurnEventsFor(Emitted(After(INITIAL, facts), f), turnId)
            == if Prompts(facts, f, turnId) && HasAllParts(facts, f, turnId) && HasContext(facts, f, turnId)
               then 1 else 0
  {
    EmittedTurnEvents(After(INITIAL, facts), f, turnId);
    PromptsTouch(facts, f, turnId);
    if Touches(After(INITIAL, facts), f) == Some(turnId) { ReadyExactly(facts, f, turnId); }
  }

  /** A fact about a turn emits nothing unless it emits a turn event. */
  lemma {:induction false} QuietTurnFacts(s: State, f: Fact, turnId: string)
    requires (f.TurnUpdated? || f.TurnStartAnswered?) && f.turnId == turnId
    requires TurnEventsFor(Emitted(s, f), turnId) == 0
    ensures Emitted(s, f) == []
  {
    EmittedTurnEvents(s, f, turnId);
  }
}
