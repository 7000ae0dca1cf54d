/**
  The reducer as an object whose methods update its seven maps in place, one method per
  kind of fact. `Ingest` does to the object what `Reducer.Next` says and returns what
  `Reducer.Emitted` says, so the results about all histories hold of every run of calls.
 */
module AnalyticsReducer {
  import opened Prelude
  import opened Reducer
  import AcceptedLines

  class Analytics {
    var requests: map<(nat, RequestId), PendingRequest>
    var turns: map<string, Turn>
    var connections: map<nat, Connection>
    var threads: map<string, Thread>
    var itemsStarted: map<ItemKey, nat>
    var pendingReviews: map<RequestId, Review>
    var itemReviewSummaries: map<ItemKey, ReviewSummary>

    ghost function Abstract(): State
      reads this
    {
      State(requests, turns, connections, threads, itemsStarted, pendingReviews, itemReviewSummaries)
    }

    constructor ()
      ensures Abstract() == INITIAL
    {
      requests, turns, connections, threads := map[], map[], map[], map[];
      itemsStarted, pendingReviews, itemReviewSummaries := map[], map[], map[];
    }

    method Ingest(f: Fact) returns (out: seq<Event>)
      modifies this
      ensures Abstract() == Next(old(Abstract()), f) && out == Emitted(old(Abstract()), f)
    {
      out := [];
      match f
      case Initialize(c, connection) => connections := connections[c := connection];
      case ClientRequested(c, r, p) => requests := requests[(c, r) := p];
      case ThreadOpened(_, _, _) => out := IngestThreadOpened(f);
      case TurnStartAnswered(_, _, _) => out := IngestTurnStartResponse(f);
      case TurnSteerAnswered(_, _, _) => out := IngestTurnSteerResponse(f);
      case RequestFailed(_, _, _) => out := IngestErrorResponse(f);
      case ItemStarted(_, _, item, startedAt) =>
        if Tracked(item.kind) && startedAt >= 0 { itemsStarted := itemsStarted[KeyOf(f) := startedAt]; }
      case ItemCompleted(_, _, _, _) => out := IngestItemCompleted(f);
      case TurnUpdated(turnId, update) => out := IngestTurnUpdate(turnId, update);
      case ApprovalRequested(r, _, _, _, _, _) =>
        var review := ReviewOf(f);
        if review.Some? { pendingReviews := pendingReviews[r := review.value]; }
      case ReviewAnswered(_, _, _) => out := IngestReviewAnswer(f);
      case GuardianCompleted(_, _, _, _, _, _, _, _) => out := IngestGuardianReview(f);
      case SubAgentStarted(_, _, _, _) => out := IngestSubAgentStarted(f);
      case ContextReported(threadId, body) =>
        var c := LookUp(threadId);
        if c.Found? { out := [ContextEvent(threadId, body, c.connection, c.metadata)]; }
    }

    /** `thread_context_or_warn`. */
    method LookUp(threadId: string) returns (c: Context)
      ensures c == ThreadContext(Abstract(), threadId)
    {
      if threadId !in threads { return MissingThreadConnection; }
      var thread := threads[threadId];
      if thread.connection.None? { return MissingThreadConnection; }
      if thread.connection.value !in connections { return MissingConnection(thread.connection.value); }
      if thread.metadata.None? { return MissingThreadMetadata; }
      c := Found(connections[thread.connection.value], thread.metadata.value);
    }

    method IngestThreadOpened(f: Fact) returns (out: seq<Event>)
      requires f.ThreadOpened?
      modifies this
      ensures Abstract() == Next(old(Abstract()), f) && out == Emitted(old(Abstract()), f)
    {
      if f.connectionId !in connections { return []; }
      threads := threads[f.threadId := Thread(Some(f.connectionId), Some(f.metadata))];
      out := [ThreadInitialized(f.threadId, f.metadata, Some(connections[f.connectionId]))];
    }

    method IngestSubAgentStarted(f: Fact) returns (out: seq<Event>)
      requires f.SubAgentStarted?
      modifies this
      ensures Abstract() == Next(old(Abstract()), f) && out == Emitted(old(Abstract()), f)
    {
      var parentConnection: Option<nat> := None;
      if f.parent.Some? && f.parent.value in threads {
        parentConnection := threads[f.parent.value].connection;
      }
      var thread := if f.threadId in threads then threads[f.threadId] else Thread(None, None);
      if thread.metadata.None? {
        thread := thread.(metadata := Some(SubAgentMetadata(f)));
      }
      if thread.connection.None? {
        thread := thread.(connection := parentConnection);
      }
      threads := threads[f.threadId := thread];
      out := [ThreadInitialized(f.threadId, SubAgentMetadata(f), None)];
    }

    /** `maybe_emit_turn_event`. */
    method MaybeEmitTurnEvent(turnId: string) returns (out: seq<Event>)
      requires turnId in turns
      modifies this`turns
      ensures out == if Ready(old(Abstract()), old(turns)[turnId])
                     then TurnEvents(old(Abstract()), turnId, old(turns)[turnId]) else []
      ensures turns == if Ready(old(Abstract()), old(turns)[turnId]) then old(turns) - {turnId} else old(turns)
    {
      var turn := turns[turnId];
      if turn.threadId.None? || turn.images.None? || turn.config.None? || turn.profile.None? || turn.completed.None? {
        return [];
      }
      var threadId := turn.threadId.value;
      var connection := turn.connection;
      if connection.None? && threadId in threads {
        connection := threads[threadId].connection;
      }
      if connection.None? || connection.value !in connections { return []; }
      if threadId !in threads || threads[threadId].metadata.None? { return []; }
      out := [TurnEvent(TurnPayload(
                turnId, threadId, connections[connection.value], threads[threadId].metadata.value,
                turn.images.value, turn.config.value, turn.profile.value, turn.completed.value,
                turn.startedAt, turn.tokenUsage, turn.codexError, turn.steers, turn.tools))];
      if turn.latestDiff.Some? {
        var (added, deleted) := AcceptedLines.LineCounts(turn.latestDiff.value);
        if added != 0 || deleted != 0 {
          out := out + [AcceptedLinesEvent(turnId, threadId, turn.config.value.model, added, deleted)];
        }
      }
      turns := turns - {turnId};
    }

    method IngestTurnUpdate(turnId: string, update: TurnUpdate) returns (out: seq<Event>)
      modifies this`turns
      ensures Abstract() == Next(old(Abstract()), TurnUpdated(turnId, update))
      ensures out == Emitted(old(Abstract()), TurnUpdated(turnId, update))
    {
      out := [];
      ghost var s := Abstract();
      TurnUpdateStep(s, turnId, update);
      var turn := if turnId in turns then turns[turnId] else NEW_TURN;
      turn := UpdateTurn(turn, update);
      turns := turns[turnId := turn];
      assert turns - {turnId} == s.turns - {turnId};
      TurnsDoNotMatter(s, turns, turnId, turn);
      if update.ResolvedConfig? || update.Profile? || update.Completed? || update.TokenUsage? {
        out := MaybeEmitTurnEvent(turnId);
      }
    }

    method IngestTurnStartResponse(f: Fact) returns (out: seq<Event>)
      requires f.TurnStartAnswered?
      modifies this
      ensures Abstract() == Next(old(Abstract()), f) && out == Emitted(old(Abstract()), f)
    {
      var key := (f.connectionId, f.requestId);
      var pending := if key in requests then Some(requests[key]) else None;
      requests := requests - {key};
      if pending.None? || !pending.value.TurnStart? { return []; }
      ghost var before := turns;
      var turn := if f.turnId in turns then turns[f.turnId] else NEW_TURN;
      turns := turns[f.turnId := turn.(connection := Some(f.connectionId),
                                       threadId := Some(pending.value.threadId),
                                       images := Some(pending.value.images))];
      assert turns - {f.turnId} == before - {f.turnId};
      out := MaybeEmitTurnEvent(f.turnId);
    }

    method IngestTurnSteerResponse(f: Fact) returns (out: seq<Event>)
      requires f.TurnSteerAnswered?
      modifies this
      ensures Abstract() == Next(old(Abstract()), f) && out == Emitted(old(Abstract()), f)
    {
      var key := (f.connectionId, f.requestId);
      var pending := if key in requests then Some(requests[key]) else None;
      requests := requests - {key};
      if pending.None? || !pending.value.TurnSteer? { return []; }
      if f.turnId in turns {
        var turn := turns[f.turnId];
        turns := turns[f.turnId := turn.(steers := turn.steers + 1)];
      }
      out := EmitTurnSteerEvent(f.connectionId, pending.value, Accepted(f.turnId));
    }

    method IngestErrorResponse(f: Fact) returns (out: seq<Event>)
      requires f.RequestFailed?
      modifies this
      ensures Abstract() == Next(old(Abstract()), f) && out == Emitted(old(Abstract()), f)
    {
      var key := (f.connectionId, f.requestId);
      var pending := if key in requests then Some(requests[key]) else None;
      requests := requests - {key};
      if pending.None? || !pending.value.TurnSteer? { return []; }
      out := EmitTurnSteerEvent(f.connectionId, pending.value, Rejected(f.reason));
    }

    method EmitTurnSteerEvent(c: nat, p: PendingRequest, result: SteerResult) returns (out: seq<Event>)
      ensures out == SteerEvents(Abstract(), c, p, result)
    {
      if c !in connections { return []; }
      if p.threadId !in threads || threads[p.threadId].metadata.None? { return []; }
      out := [SteerEvent(p, result, connections[c], threads[p.threadId].metadata.value)];
    }

    method IngestItemCompleted(f: Fact) returns (out: seq<Event>)
      requires f.ItemCompleted?
      modifies this
      ensures Abstract() == Next(old(Abstract()), f) && out == Emitted(old(Abstract()), f)
    {
      out := [];
      if f.item.kind == OtherItem || f.turnId !in turns { return; }
      var turn := turns[f.turnId];
      var context := LookUp(f.threadId);
      turns := turns[f.turnId := turn.(tools := RecordTool(turn.tools, f.item.kind))];
      if f.item.kind == SubAgentActivity { return; }
      var key := KeyOf(f);
      if key !in itemsStarted {
        assert itemsStarted - {key} == itemsStarted;
        return;
      }
      var startedAt := itemsStarted[key];
      itemsStarted := itemsStarted - {key};
      if f.endedAt < 0 || !context.Found? { return; }
      if f.item.terminal {
        var summary := if key in itemReviewSummaries then itemReviewSummaries[key] else NO_REVIEWS;
        out := [ToolItemEvent(key, f.item.kind, startedAt, f.endedAt, summary, context.connection, context.metadata)];
      }
      itemReviewSummaries := itemReviewSummaries - {key};
    }

    /** `emit_review_event`, with `record_item_review_summary` first. */
    method EmitReviewEvent(r: Resolution) returns (out: seq<Event>)
      modifies this`itemReviewSummaries
      ensures out == var c := ThreadContext(old(Abstract()), r.review.threadId);
                     if c.Found? then [ReviewEvent(r, c.connection, c.metadata)] else []
      ensures itemReviewSummaries
              == if SummaryKey(r.review).None? then old(itemReviewSummaries)
                 else old(itemReviewSummaries)[SummaryKey(r.review).value :=
                        RecordReview(SummaryOf(old(Abstract()), SummaryKey(r.review).value), r)]
    {
      var key := SummaryKey(r.review);
      if key.Some? {
        var summary := if key.value in itemReviewSummaries then itemReviewSummaries[key.value] else NO_REVIEWS;
        summary := summary.(reviews := summary.reviews + 1, outcome := Some(OutcomeOf(r)));
        if r.reviewer == Guardian {
          summary := summary.(guardianReviews := summary.guardianReviews + 1);
        } else {
          summary := summary.(userReviews := summary.userReviews + 1);
        }
        if r.review.additionalPermissions {
          summary := summary.(additionalPermissions := true);
        }
        if r.review.networkAccess {
          summary := summary.(networkAccess := true);
        }
        itemReviewSummaries := itemReviewSummaries[key.value := summary];
      }
      var c := LookUp(r.review.threadId);
      out := if c.Found? then [ReviewEvent(r, c.connection, c.metadata)] else [];
    }

    method IngestReviewAnswer(f: Fact) returns (out: seq<Event>)
      requires f.ReviewAnswered?
      modifies this
      ensures Abstract() == Next(old(Abstract()), f) && out == Emitted(old(Abstract()), f)
    {
      if f.requestId !in pendingReviews {
        assert pendingReviews - {f.requestId} == pendingReviews;
        return [];
      }
      var review := pendingReviews[f.requestId];
      pendingReviews := pendingReviews - {f.requestId};
      var (status, settlement) := VerdictResult(f.verdict);
      out := EmitReviewEvent(Resolution(review, User, status, settlement, f.answeredAt));
    }

    method IngestGuardianReview(f: Fact) returns (out: seq<Event>)
      requires f.GuardianCompleted?
      modifies this
      ensures Abstract() == Next(old(Abstract()), f) && out == Emitted(old(Abstract()), f)
    {
      var status := GuardianResult(f.status);
      if status.None? || f.startedAt < 0 || f.endedAt < 0 { return []; }
      out := EmitReviewEvent(Resolution(GuardianReviewOf(f), Guardian, status.value, NoSettlement, f.endedAt));
    }
  }
}
