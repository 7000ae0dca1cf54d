/**
  Whole-history results about reviews and steers: the review ledger that a tool-item event
  reports, and that nothing is resolved more often than it was asked.
 */
module ReducerLedger {
  import opened Prelude
  import opened Reducer
  import opened ReducerHistory

  // ------------------------------------------------------- what an answer decides

  predicate Approves(v: Verdict) {
    || (v.CommandVerdict? && v.command in {Accept, AcceptForSession, AcceptWithExecpolicyAmendment})
    || v == CommandVerdict(ApplyNetworkPolicy(true))
    || (v.FileVerdict? && v.file in {FileAccept, FileAcceptForSession})
    || (v.PermissionsVerdict? && !v.empty)
  }

  predicate Aborts(v: Verdict) {
    v in {AbortedVerdict, CommandVerdict(Cancel), FileVerdict(FileCancel)}
  }

  predicate ForSession(v: Verdict) {
    || v in {CommandVerdict(AcceptForSession), FileVerdict(FileAcceptForSession)}
    || (v.PermissionsVerdict? && !v.empty && v.session)
  }

  predicate Amends(v: Verdict) {
    v.CommandVerdict? && (v.command.AcceptWithExecpolicyAmendment? || v.command.ApplyNetworkPolicy?)
  }

  /** A user's answer, sorted: approved or aborted or else denied; for the session, with an amendment, or plain. */
  lemma {:induction false} VerdictsSorted(v: Verdict)
    ensures var (status, settlement) := VerdictResult(v);
            && (status == Approved <==> Approves(v))
            && (status == Aborted <==> Aborts(v))
            && (status == Denied <==> !Approves(v) && !Aborts(v))
            && (settlement == SessionApproval <==> ForSession(v))
            && (settlement == NoSettlement <==> !ForSession(v) && !Amends(v))
            && (settlement == ExecPolicyAmendment <==> v == CommandVerdict(AcceptWithExecpolicyAmendment))
  {
  }

  /** The resolution a fact makes, from the facts before it. */
  function Decision(facts: seq<Fact>, f: Fact): Option<Resolution> {
    match f
    case ReviewAnswered(r, v, at) =>
      var review := OpenReview(facts, r);
      if review.None? then None
      else Some(Resolution(review.value, User,
                           if Approves(v) then Approved else if Aborts(v) then Aborted else Denied,
                           if ForSession(v) then SessionApproval
                           else if !Amends(v) then NoSettlement
                           else if v.command.ApplyNetworkPolicy? then NetworkPolicyAmendment
                           else ExecPolicyAmendment, at))
    case GuardianCompleted(_, _, _, _, _, status, startedAt, endedAt) =>
      if status == GuardianInProgress || startedAt < 0 || endedAt < 0 then None
      else Some(Resolution(GuardianReviewOf(f), Guardian,
                           if status == GuardianSaysApproved then Approved
                           else if status == GuardianSaysDenied then Denied
                           else if status == GuardianTimedOut then TimedOut
                           else Aborted, NoSettlement, endedAt))
    case _ => None
  }

  lemma {:induction false} DecisionsMatchHistory(facts: seq<Fact>, f: Fact)
    ensures Resolved(After(INITIAL, facts), f) == Decision(facts, f)
  {
    if f.ReviewAnswered? {
      ReviewsMatchHistory(facts, f.requestId);
      VerdictsSorted(f.verdict);
    }
  }

  /** What an outcome says about the resolution it stands for. */
  ghost predicate Says(o: Outcome, r: Resolution) {
    && (o in {GuardianApproved, GuardianDenied, GuardianAborted} <==> r.reviewer == Guardian)
    && (o in {GuardianApproved, UserApproved, UserApprovedForSession} <==> r.status == Approved)
    && (o in {GuardianDenied, UserDenied} <==> r.status == Denied)
    && (o == UserApprovedForSession <==> r.reviewer == User && r.status == Approved && r.settlement == SessionApproval)
  }

  // ----------------------------------------------------------------- ledger

  /** The review is recorded for the item: it is about it, and it is of one of three kinds. */
  predicate Concerns(r: Review, key: ItemKey) {
    && r.threadId == key.threadId && r.turnId == key.turnId && r.itemId == Some(key.itemId)
    && r.subject in {CommandSubject, FileSubject, McpSubject}
  }

  /** The completion of an item passes the turn, start, time and context checks. */
  predicate Reported(facts: seq<Fact>, f: Fact, key: ItemKey) {
    && f.ItemCompleted? && IsItem(f, key) && HasTurn(facts, key.turnId)
    && OpenStart(facts, key).Some? && f.endedAt >= 0 && ContextOf(facts, key.threadId).Some?
  }

  /** Everything resolved for an item since its last completion that was reported. */
  function Ledger(facts: seq<Fact>, key: ItemKey): seq<Resolution>
    decreases |facts|
  {
    if |facts| == 0 then []
    else
      var before, f := Front(facts), Last(facts);
      var d := Decision(before, f);
      if Reported(before, f, key) then []
      else if d.Some? && Concerns(d.value.review, key) then Ledger(before, key) + [d.value]
      else Ledger(before, key)
  }

  lemma {:induction false} ReportsExactly(s: State, f: Fact, key: ItemKey)
    ensures Reports(s, f) && KeyOf(f) == key
            <==> f.ItemCompleted? && IsItem(f, key) && key.turnId in s.turns && key in s.itemsStarted
                 && f.endedAt >= 0 && ThreadContext(s, key.threadId).Found?
  {
  }

  lemma {:induction false} ReportsMatchHistory(facts: seq<Fact>, f: Fact, key: ItemKey)
    ensures Reports(After(INITIAL, facts), f) && KeyOf(f) == key <==> Reported(facts, f, key)
  {
    ReportsExactly(After(INITIAL, facts), f, key);
    TurnsMatchHistory(facts, key.turnId);
    StartsMatchHistory(facts, key);
    ContextsMatchHistory(facts, key.threadId);
  }

  lemma {:induction false} KeysExactly(r: Review, key: ItemKey)
    ensures SummaryKey(r) == Some(key) <==> Concerns(r, key)
  {
  }

  function By(rs: seq<Resolution>, who: Reviewer): nat {
    if |rs| == 0 then 0 else By(Front(rs), who) + (if Last(rs).reviewer == who then 1 else 0)
  }

  /** A summary says what its list of resolutions says. */
  ghost predicate Summarizes(m: ReviewSummary, rs: seq<Resolution>) {
    && m.reviews == |rs|
    && m.guardianReviews == By(rs, Guardian)
    && m.userReviews == By(rs, User)
    && (m.outcome.Some? <==> |rs| > 0)
    && (|rs| > 0 ==> Says(m.outcome.value, Last(rs)))
    && (m.additionalPermissions <==> exists i :: 0 <= i < |rs| && rs[i].review.additionalPermissions)
    && (m.networkAccess <==> exists i :: 0 <= i < |rs| && rs[i].review.networkAccess)
  }

  lemma {:induction false} RecordReviewSummarizes(m: ReviewSummary, rs: seq<Resolution>, r: Resolution)
    requires Summarizes(m, rs)
    ensures Summarizes(RecordReview(m, r), rs + [r])
  {
  }

  lemma {:induction false} ReviewersPartition(rs: seq<Resolution>)
    ensures By(rs, Guardian) + By(rs, User) == |rs|
  {
    if |rs| > 0 { ReviewersPartition(Front(rs)); }
  }

  /** What one fact does to the summary kept for a key. */
  lemma {:induction false} SummaryStep(s: State, f: Fact, key: ItemKey)
    ensures SummaryOf(Next(s, f), key)
            == if Reports(s, f) && KeyOf(f) == key then NO_REVIEWS
               else if Resolved(s, f).Some? && SummaryKey(Resolved(s, f).value.review) == Some(key)
               then RecordReview(SummaryOf(s, key), Resolved(s, f).value)
               else SummaryOf(s, key)
  {
  }

  /** In every reachable state the summary kept for an item is that of its ledger. */
  lemma {:induction false} SummariesMatchLedger(facts: seq<Fact>, key: ItemKey)
    ensures Summarizes(SummaryOf(After(INITIAL, facts), key), Ledger(facts, key))
    decreases |facts|
  {
    if |facts| > 0 {
      var before, f := Front(facts), Last(facts);
      SummariesMatchLedger(before, key);
      SummaryStep(After(INITIAL, before), f, key);
      ReportsMatchHistory(before, f, key);
      DecisionsMatchHistory(before, f);
      var d := Decision(before, f);
      if d.Some? {
        KeysExactly(d.value.review, key);
        RecordReviewSummarizes(SummaryOf(After(INITIAL, before), key), Ledger(before, key), d.value);
      }
    }
  }

  /** Every resolution in a ledger is for that item, and of a kind that is recorded. */
  lemma {:induction false} LedgerIsForItsKey(facts: seq<Fact>, key: ItemKey)
    ensures forall i :: 0 <= i < |Ledger(facts, key)| ==> Concerns(Ledger(facts, key)[i].review, key)
    decreases |facts|
  {
    if |facts| > 0 { LedgerIsForItsKey(Front(facts), key); }
  }

  /** The tool-item event of a completion, in the terms of the history. */
  ghost predicate IsToolEvent(e: Event, facts: seq<Fact>, f: Fact, key: ItemKey) {
    && f.ItemCompleted? && e.ToolItemEvent?
    && e.key == key && e.kind == f.item.kind
    && OpenStart(facts, key) == Some(e.itemStartedAt) && e.itemEndedAt == f.endedAt
    && ContextOf(facts, key.threadId) == Some((e.connection, e.metadata))
    && Summarizes(e.summary, Ledger(facts, key))
    && e.summary.reviews == e.summary.guardianReviews + e.summary.userReviews
  }

  lemma {:induction false} ToolEventStep(s: State, f: Fact)
    requires f.ItemCompleted?
    ensures Emitted(s, f) == if Reports(s, f) && f.item.terminal then ToolEvents(s, f) else []
  {
  }

  lemma {:induction false} ToolEventContents(facts: seq<Fact>, f: Fact)
    requires f.ItemCompleted? && f.item.terminal && Reports(After(INITIAL, facts), f)
    ensures var es := ToolEvents(After(INITIAL, facts), f);
            |es| == 1 && IsToolEvent(es[0], facts, f, ItemKey(f.threadId, f.turnId, f.item.id))
  {
    var key := ItemKey(f.threadId, f.turnId, f.item.id);
    StartsMatchHistory(facts, key);
    ContextsMatchHistory(facts, key.threadId);
    SummariesMatchLedger(facts, key);
    ReviewersPartition(Ledger(facts, key));
  }

  /**
    Tool items. Completing an item emits one tool-item event if its kind is followed, its
    turn has state, a start is open, the end time is valid, the thread's context is known and
    the status is terminal; otherwise nothing. The event has the item's kind, both times and
    the context, and reports exactly the reviews resolved for that thread, turn and item
    since its last reported completion, after which the ledger is empty.
   */
  lemma {:induction false} ToolEventExactly(facts: seq<Fact>, f: Fact)
    requires f.ItemCompleted?
    ensures var es, key := Emitted(After(INITIAL, facts), f), ItemKey(f.threadId, f.turnId, f.item.id);
            && (Reported(facts, f, key) && f.item.terminal ==> |es| == 1 && IsToolEvent(es[0], facts, f, key))
            && (!(Reported(facts, f, key) && f.item.terminal) ==> es == [])
            && (Reported(facts, f, key) ==> Ledger(facts + [f], key) == [])
  {
    var s, key := After(INITIAL, facts), ItemKey(f.threadId, f.turnId, f.item.id);
    ReportsMatchHistory(facts, f, key);
    ToolEventStep(s, f);
    if Reports(s, f) && f.item.terminal { ToolEventContents(facts, f); }
    assert Front(facts + [f]) == facts;
  }

  /** No other fact emits a tool-item event. */
  lemma {:induction false} OnlyCompletionsReport(s: State, f: Fact)
    requires !f.ItemCompleted?
    ensures forall i :: 0 <= i < |Emitted(s, f)| ==> !Emitted(s, f)[i].ToolItemEvent?
  {
  }

  /** So whatever tool-item event there is reports its ledger. */
  lemma {:induction false} ToolEventReportsLedger(facts: seq<Fact>, f: Fact, i: nat)
    requires var s := After(INITIAL, facts); i < |Emitted(s, f)| && Emitted(s, f)[i].ToolItemEvent?
    ensures var e := Emitted(After(INITIAL, facts), f)[i];
            && IsToolEvent(e, facts, f, e.key) && Reported(facts, f, e.key)
            && Ledger(facts + [f], e.key) == []
  {
    if f.ItemCompleted? {
      ToolEventExactly(facts, f);
    } else {
      OnlyCompletionsReport(After(INITIAL, facts), f);
    }
  }

  // ------------------------------------------------------ at most once resolved

  function UserReviewEvents(es: seq<Event>): nat {
    if |es| == 0 then 0
    else UserReviewEvents(Front(es)) + (if Last(es).ReviewEvent? && Last(es).resolved.reviewer == User then 1 else 0)
  }

  function Approvals(facts: seq<Fact>): nat {
    if |facts| == 0 then 0 else Approvals(Front(facts)) + (if Last(facts).ApprovalRequested? then 1 else 0)
  }

  function SteerEventCount(es: seq<Event>): nat {
    if |es| == 0 then 0 else SteerEventCount(Front(es)) + (if Last(es).SteerEvent? then 1 else 0)
  }

  function SteerRequests(facts: seq<Fact>): nat {
    if |facts| == 0 then 0
    else SteerRequests(Front(facts)) + (if Last(facts).ClientRequested? && Last(facts).request.TurnSteer? then 1 else 0)
  }

  function PendingSteers(s: State): set<(nat, RequestId)> {
    set k | k in s.requests && s.requests[k].TurnSteer?
  }

  lemma {:induction false} CountsOfAtMostOne(a: seq<Event>, b: seq<Event>)
    requires |b| == 0 || (forall i :: 0 < i < |b| ==> !b[i].ReviewEvent? && !b[i].SteerEvent?)
    ensures UserReviewEvents(a + b)
            == UserReviewEvents(a) + (if |b| > 0 && b[0].ReviewEvent? && b[0].resolved.reviewer == User then 1 else 0)
    ensures SteerEventCount(a + b) == SteerEventCount(a) + (if |b| > 0 && b[0].SteerEvent? then 1 else 0)
    decreases |b|
  {
    if |b| == 0 {
      assert a + b == a;
    } else {
      assert Front(a + b) == a + Front(b) && Last(a + b) == Last(b);
      CountsOfAtMostOne(a, Front(b));
    }
  }

  /** A fact emits at most one review event or steer event, as its first event. */
  lemma {:induction false} EmitsAtMostOne(s: State, f: Fact)
    ensures var es := Emitted(s, f);
            && (forall i :: 0 < i < |es| ==> !es[i].ReviewEvent? && !es[i].SteerEvent?)
            && (|es| > 0 && es[0].ReviewEvent? && es[0].resolved.reviewer == User ==>
                  f.ReviewAnswered? && f.requestId in s.reviews)
            && (|es| > 0 && es[0].SteerEvent? ==>
                  (f.TurnSteerAnswered? || f.RequestFailed?) && (f.connectionId, f.requestId) in PendingSteers(s))
  {
  }

  lemma {:induction false} ReviewsShrink(s: State, f: Fact)
    ensures |Next(s, f).reviews| <= |s.reviews| + (if f.ApprovalRequested? then 1 else 0)
    ensures f.ReviewAnswered? && f.requestId in s.reviews ==> |Next(s, f).reviews| == |s.reviews| - 1
  {
  }

  lemma {:induction false} CardinalityAtMost<T>(a: set<T>, b: set<T>, x: T)
    requires a <= b + {x}
    ensures |a| <= |b| + 1
  {
    if x in a {
      assert a - {x} <= b;
      SubsetCardinality(a - {x}, b);
    } else {
      assert a <= b;
      SubsetCardinality(a, b);
    }
  }

  lemma {:induction false} SubsetCardinality<T>(a: set<T>, b: set<T>)
    requires a <= b
    ensures |a| <= |b|
  {
    if a != {} {
      var x :| x in a;
      SubsetCardinality(a - {x}, b - {x});
    }
  }

  lemma {:induction false} SteersShrink(s: State, f: Fact)
    ensures |PendingSteers(Next(s, f))|
            <= |PendingSteers(s)| + (if f.ClientRequested? && f.request.TurnSteer? then 1 else 0)
    ensures (f.TurnSteerAnswered? || f.RequestFailed?) && (f.connectionId, f.requestId) in PendingSteers(s) ==>
              |PendingSteers(Next(s, f))| == |PendingSteers(s)| - 1
  {
    var p, p' := PendingSteers(s), PendingSteers(Next(s, f));
    if f.ClientRequested? {
      if f.request.TurnSteer? {
        CardinalityAtMost(p', p, (f.connectionId, f.requestId));
      } else {
        SubsetCardinality(p', p);
      }
    } else if f.TurnSteerAnswered? || f.RequestFailed? || f.TurnStartAnswered? {
      assert p' == p - {(f.connectionId, f.requestId)};
    } else {
      assert p' == p;
    }
  }

  /**
    At most once. Over every history, user review events and reviews still pending are never
    more than the approvals asked for; steer events and steers still pending are never more
    than the steers requested - whatever was accepted, rejected, aborted, repeated or late.
   */
  lemma {:induction false} ResolvedAtMostOnce(facts: seq<Fact>)
    ensures UserReviewEvents(Events(INITIAL, facts)) + |After(INITIAL, facts).reviews| <= Approvals(facts)
    ensures SteerEventCount(Events(INITIAL, facts)) + |PendingSteers(After(INITIAL, facts))| <= SteerRequests(facts)
    decreases |facts|
  {
    if |facts| == 0 {
      assert PendingSteers(INITIAL) == {};
    } else {
      var s, f := After(INITIAL, Front(facts)), Last(facts);
      ResolvedAtMostOnce(Front(facts));
      EmitsAtMostOne(s, f);
      CountsOfAtMostOne(Events(INITIAL, Front(facts)), Emitted(s, f));
      ReviewsShrink(s, f);
      SteersShrink(s, f);
    }
  }
}
