/**
  The reducer's maps read off the history of facts alone: what each connection, thread, open
  request, open review and open item start is, without looking at the state. Each reading is
  proved equal to the state that the facts lead to.
 */
module ReducerHistory {
  import opened Prelude
  import opened Reducer
  import opened ReducerTurns

  function OrElse<T>(a: Option<T>, b: Option<T>): Option<T> {
    if a.Some? then a else b
  }

  // -------------------------------------------------------------- connections

  /** What a connection id stands for: its latest initialisation. */
  function LatestConnection(facts: seq<Fact>, c: nat): Option<Connection> {
    if |facts| == 0 then None
    else if Last(facts).Initialize? && Last(facts).connectionId == c then Some(Last(facts).connection)
    else LatestConnection(Front(facts), c)
  }

  lemma {:induction false} ConnectionsMatchHistory(facts: seq<Fact>, c: nat)
    ensures var m := After(INITIAL, facts).connections;
            LatestConnection(facts, c) == if c in m then Some(m[c]) else None
    decreases |facts|
  {
    if |facts| > 0 { ConnectionsMatchHistory(Front(facts), c); }
  }

  // ------------------------------------------------------------------ threads

  /** The connection of a thread: the last opening's, else what its parent had when it was started. */
  function ConnectionOf(facts: seq<Fact>, threadId: string): Option<nat>
    decreases |facts|
  {
    if |facts| == 0 then None
    else
      var before, f := Front(facts), Last(facts);
      if f.ThreadOpened? && f.threadId == threadId && LatestConnection(before, f.connectionId).Some? then
        Some(f.connectionId)
      else if f.SubAgentStarted? && f.threadId == threadId && f.parent.Some? then
        OrElse(ConnectionOf(before, threadId), ConnectionOf(before, f.parent.value))
      else ConnectionOf(before, threadId)
  }

  /** The metadata of a thread: the last opening's, else those of its first start as a subagent. */
  function MetadataOf(facts: seq<Fact>, threadId: string): Option<Metadata>
    decreases |facts|
  {
    if |facts| == 0 then None
    else
      var before, f := Front(facts), Last(facts);
      if f.ThreadOpened? && f.threadId == threadId && LatestConnection(before, f.connectionId).Some? then
        Some(f.metadata)
      else if f.SubAgentStarted? && f.threadId == threadId then
        OrElse(MetadataOf(before, threadId),
               Some(Metadata(f.sessionId, Some("subagent"), New, Some(f.source), f.parent)))
      else MetadataOf(before, threadId)
  }

  /** A state's threads, as lookups. */
  function StoredConnection(s: State, threadId: string): Option<nat> {
    if threadId in s.threads then s.threads[threadId].connection else None
  }

  function StoredMetadata(s: State, threadId: string): Option<Metadata> {
    if threadId in s.threads then s.threads[threadId].metadata else None
  }

  lemma {:induction false} ThreadStep(s: State, f: Fact, threadId: string)
    ensures var opens := f.ThreadOpened? && f.threadId == threadId && f.connectionId in s.connections;
            var starts := f.SubAgentStarted? && f.threadId == threadId;
            && StoredConnection(Next(s, f), threadId)
               == (if opens then Some(f.connectionId)
                   else if starts && f.parent.Some?
                   then OrElse(StoredConnection(s, threadId), StoredConnection(s, f.parent.value))
                   else StoredConnection(s, threadId))
            && StoredMetadata(Next(s, f), threadId)
               == (if opens then Some(f.metadata)
                   else if starts
                   then OrElse(StoredMetadata(s, threadId),
                               Some(Metadata(f.sessionId, Some("subagent"), New, Some(f.source), f.parent)))
                   else StoredMetadata(s, threadId))
  {
  }

  /** In every reachable state the threads are those of the history. */
  lemma {:induction false} ThreadsMatchHistory(facts: seq<Fact>, threadId: string)
    ensures StoredConnection(After(INITIAL, facts), threadId) == ConnectionOf(facts, threadId)
    ensures StoredMetadata(After(INITIAL, facts), threadId) == MetadataOf(facts, threadId)
    decreases |facts|
  {
    if |facts| > 0 {
      var before, f := Front(facts), Last(facts);
      ThreadsMatchHistory(before, threadId);
      ThreadStep(After(INITIAL, before), f, threadId);
      if f.ThreadOpened? { ConnectionsMatchHistory(before, f.connectionId); }
      if f.SubAgentStarted? && f.parent.Some? { ThreadsMatchHistory(before, f.parent.value); }
    }
  }

  /** The client and metadata under which a thread's events go out, if they do. */
  function ContextOf(facts: seq<Fact>, threadId: string): Option<(Connection, Metadata)> {
    var c, m := ConnectionOf(facts, threadId), MetadataOf(facts, threadId);
    if c.None? || m.None? || LatestConnection(facts, c.value).None? then None
    else Some((LatestConnection(facts, c.value).value, m.value))
  }

  function FoundContext(c: Context): Option<(Connection, Metadata)> {
    if c.Found? then Some((c.connection, c.metadata)) else None
  }

  lemma {:induction false} ContextsMatchHistory(facts: seq<Fact>, threadId: string)
    ensures FoundContext(ThreadContext(After(INITIAL, facts), threadId)) == ContextOf(facts, threadId)
  {
    ThreadsMatchHistory(facts, threadId);
    var c := ConnectionOf(facts, threadId);
    if c.Some? { ConnectionsMatchHistory(facts, c.value); }
  }

  // --------------------------------------------------------- chains of subagents

  datatype Link = Link(threadId: string, sessionId: string, source: string)

  /** The last thread of a chain below `root`. */
  function Tip(root: string, chain: seq<Link>): string {
    if |chain| == 0 then root else Last(chain).threadId
  }

  /** Each link is started as a subagent of the one before it, the first as a subagent of `root`. */
  function Starts(root: string, chain: seq<Link>): seq<Fact> {
    if |chain| == 0 then []
    else
      var l := Last(chain);
      Starts(root, Front(chain)) + [SubAgentStarted(l.threadId, l.sessionId, l.source, Some(Tip(root, Front(chain))))]
  }

  predicate InChain(chain: seq<Link>, threadId: string) {
    |chain| > 0 && (Last(chain).threadId == threadId || InChain(Front(chain), threadId))
  }

  /** No thread of the chain has a connection of its own, other than `c`. */
  ghost predicate NoOther(facts: seq<Fact>, chain: seq<Link>, c: nat) {
    forall t :: InChain(chain, t) ==> ConnectionOf(facts, t) in {None, Some(c)}
  }

  lemma {:induction false} StartStepsOn(facts: seq<Fact>, f: Fact, t: string)
    requires f.SubAgentStarted? && f.parent.Some?
    ensures var more := facts + [f];
            && ConnectionOf(more, t) == (if f.threadId != t then ConnectionOf(facts, t)
                                         else OrElse(ConnectionOf(facts, t), ConnectionOf(facts, f.parent.value)))
            && (MetadataOf(more, t).Some? <==> MetadataOf(facts, t).Some? || f.threadId == t)
            && forall c :: LatestConnection(more, c) == LatestConnection(facts, c)
  {
    assert Front(facts + [f]) == facts;
  }

  /** What a chain does to a thread, on it or not. */
  lemma {:induction false} ChainInherits(facts: seq<Fact>, root: string, chain: seq<Link>, c: nat, t: string)
    requires ConnectionOf(facts, root) == Some(c) && NoOther(facts, chain, c)
    ensures var more := facts + Starts(root, chain);
            && (ConnectionOf(facts, t) in {None, Some(c)} ==> ConnectionOf(more, t) in {None, Some(c)})
            && (ConnectionOf(facts, t) == Some(c) || InChain(chain, t) ==> ConnectionOf(more, t) == Some(c))
            && (InChain(chain, t) ==> MetadataOf(more, t).Some?)
            && LatestConnection(more, c) == LatestConnection(facts, c)
    decreases |chain|
  {
    if |chain| == 0 {
      assert facts + Starts(root, chain) == facts;
    } else {
      var shorter, f := Front(chain), Last(Starts(root, chain));
      var tip := Tip(root, shorter);
      assert NoOther(facts, shorter, c);
      ChainInherits(facts, root, shorter, c, t);
      ChainInherits(facts, root, shorter, c, tip);
      assert facts + Starts(root, chain) == (facts + Starts(root, shorter)) + [f];
      StartStepsOn(facts + Starts(root, shorter), f, t);
      assert InChain(chain, f.threadId);
    }
  }

  /**
    Subagents of any depth. Below a thread that has the connection `c`, every subagent of a
    chain of any length is found, with `c` as last initialised - unless it had another
    connection of its own.
   */
  lemma {:induction false} ChainIsFound(facts: seq<Fact>, root: string, chain: seq<Link>, c: nat, t: string)
    requires ConnectionOf(facts, root) == Some(c) && NoOther(facts, chain, c) && InChain(chain, t)
    ensures var found := ThreadContext(After(INITIAL, facts + Starts(root, chain)), t);
            found.Found? && LatestConnection(facts, c) == Some(found.connection)
  {
    ChainInherits(facts, root, chain, c, t);
    var more := facts + Starts(root, chain);
    ReachableContexts(more, t);
    ThreadsMatchHistory(more, t);
    ContextsMatchHistory(more, t);
  }

  // ------------------------------------------------------------ open requests

  predicate Answers(f: Fact, key: (nat, RequestId)) {
    (f.TurnStartAnswered? || f.TurnSteerAnswered? || f.RequestFailed?) && (f.connectionId, f.requestId) == key
  }

  /** The request still open under a key: the last one made since the last answer. */
  function OpenRequest(facts: seq<Fact>, key: (nat, RequestId)): Option<PendingRequest> {
    if |facts| == 0 then None
    else
      var f := Last(facts);
      if Answers(f, key) then None
      else if f.ClientRequested? && (f.connectionId, f.requestId) == key then Some(f.request)
      else OpenRequest(Front(facts), key)
  }

  lemma {:induction false} RequestsMatchHistory(facts: seq<Fact>, key: (nat, RequestId))
    ensures var m := After(INITIAL, facts).requests;
            OpenRequest(facts, key) == if key in m then Some(m[key]) else None
    decreases |facts|
  {
    if |facts| > 0 { RequestsMatchHistory(Front(facts), key); }
  }

  // ------------------------------------------------------------- open reviews

  /** The approval still open under a request id: the last valid one asked since the last answer. */
  function OpenReview(facts: seq<Fact>, r: RequestId): Option<Review> {
    if |facts| == 0 then None
    else
      var f := Last(facts);
      if f.ReviewAnswered? && f.requestId == r then None
      else if f.ApprovalRequested? && f.requestId == r && f.startedAt >= 0 then ReviewOf(f)
      else OpenReview(Front(facts), r)
  }

  lemma {:induction false} ReviewsMatchHistory(facts: seq<Fact>, r: RequestId)
    ensures var m := After(INITIAL, facts).reviews;
            OpenReview(facts, r) == if r in m then Some(m[r]) else None
    decreases |facts|
  {
    if |facts| > 0 { ReviewsMatchHistory(Front(facts), r); }
  }

  /**
    What a review is, whoever asked for it. It is about its own thread, turn and item. The
    trigger follows from the other fields: an intercepted execve, else network access, else
    more permissions, else nothing special.
   */
  ghost predicate Consistent(r: Review, intercepted: bool) {
    r.trigger == if intercepted then ExecveIntercept
                 else if r.networkAccess then NetworkPolicyDenial
                 else if r.additionalPermissions then SandboxDenial
                 else Initial
  }

  lemma {:induction false} ApprovalReviews(f: Fact)
    requires f.ApprovalRequested?
    ensures ReviewOf(f).Some? <==> f.startedAt >= 0
    ensures ReviewOf(f).Some? ==>
              var r, a := ReviewOf(f).value, f.approval;
              && r.threadId == f.threadId && r.turnId == f.turnId && r.itemId == Some(f.itemId)
              && r.reviewId == UserReview(f.requestId) && r.startedAt == f.startedAt
              && Consistent(r, a.CommandApproval? && a.intercepted)
              && (r.subject == NetworkSubject <==> a.CommandApproval? && a.networkContext)
              && (r.subject == CommandSubject <==> a.CommandApproval? && !a.networkContext)
              && (r.subject == FileSubject <==> a.FileApproval?)
              && (r.subject == PermissionsSubject <==> a.PermissionsApproval?)
              && (r.networkAccess <==> || (a.CommandApproval?
                                           && (a.networkContext || a.amendments || a.permissions == Some(true)))
                                       || (a.PermissionsApproval? && a.network))
              && (r.additionalPermissions <==> || (a.CommandApproval? && a.permissions.Some?)
                                               || (a.FileApproval? && a.grantRoot)
                                               || (a.PermissionsApproval? && (a.network || a.fileSystem)))
  {
  }

  lemma {:induction false} GuardianReviews(f: Fact)
    requires f.GuardianCompleted? && f.startedAt >= 0
    ensures var r, a := GuardianReviewOf(f), f.action;
            && r.threadId == f.threadId && r.turnId == f.turnId && r.itemId == f.target
            && r.reviewId == GuardianReviewId(f.reviewId) && r.startedAt == f.startedAt
            && Consistent(r, a.GuardExecve?)
            && (r.subject == CommandSubject <==> a.GuardCommand? || a.GuardExecve?)
            && (r.subject == FileSubject <==> a.GuardApplyPatch?)
            && (r.subject == NetworkSubject <==> a.GuardNetworkAccess?)
            && (r.subject == McpSubject <==> a.GuardMcpToolCall?)
            && (r.subject == PermissionsSubject <==> a.GuardRequestPermissions?)
            && (r.networkAccess <==> a.GuardNetworkAccess? || (a.GuardRequestPermissions? && a.network))
            && (r.additionalPermissions <==> || a.GuardApplyPatch? || a.GuardNetworkAccess?
                                             || (a.GuardRequestPermissions? && (a.network || a.fileSystem)))
  {
  }

  // -------------------------------------------------------------- turns and items

  /** The fact creates or updates the turn, whatever there was before. */
  predicate Opens(facts: seq<Fact>, f: Fact, turnId: string) {
    || (f.TurnUpdated? && f.turnId == turnId)
    || (f.TurnStartAnswered? && f.turnId == turnId
        && var p := OpenRequest(facts, (f.connectionId, f.requestId)); p.Some? && p.value.TurnStart?)
  }

  /** The turn has state: it was opened since its last turn event. */
  predicate HasTurn(facts: seq<Fact>, turnId: string)
    decreases |facts|
  {
    |facts| > 0 &&
    var before, f := Front(facts), Last(facts);
    TurnEventsFor(Emitted(After(INITIAL, before), f), turnId) == 0
    && (Opens(before, f, turnId) || HasTurn(before, turnId))
  }

  lemma {:induction false} TurnStep(s: State, f: Fact, turnId: string)
    ensures turnId in Next(s, f).turns
            <==> TurnEventsFor(Emitted(s, f), turnId) == 0
                 && (turnId in s.turns || (f.TurnUpdated? && f.turnId == turnId)
                     || (MatchesStart(s, f) && f.turnId == turnId))
  {
    EmittedTurnEvents(s, f, turnId);
  }

  lemma {:induction false} TurnsMatchHistory(facts: seq<Fact>, turnId: string)
    ensures HasTurn(facts, turnId) <==> turnId in After(INITIAL, facts).turns
    decreases |facts|
  {
    if |facts| > 0 {
      var before, f := Front(facts), Last(facts);
      TurnsMatchHistory(before, turnId);
      TurnStep(After(INITIAL, before), f, turnId);
      if f.TurnStartAnswered? { RequestsMatchHistory(before, (f.connectionId, f.requestId)); }
    }
  }

  /** The kinds of item that are followed from start to completion. */
  const FOLLOWED: set<ItemKind> :=
    {CommandExecution, FileChange, McpToolCall, DynamicToolCall, CollabAgentToolCall, WebSearch, ImageGeneration}

  predicate IsItem(f: Fact, key: ItemKey) {
    (f.ItemStarted? || f.ItemCompleted?) && f.item.kind in FOLLOWED
    && f.threadId == key.threadId && f.turnId == key.turnId && f.item.id == key.itemId
  }

  /** The start still open for an item: the latest valid one since the last completion that found its turn. */
  function OpenStart(facts: seq<Fact>, key: ItemKey): Option<nat>
    decreases |facts|
  {
    if |facts| == 0 then None
    else
      var before, f := Front(facts), Last(facts);
      if f.ItemStarted? && IsItem(f, key) && f.startedAt >= 0 then Some(f.startedAt)
      else if f.ItemCompleted? && IsItem(f, key) && HasTurn(before, key.turnId) then None
      else OpenStart(before, key)
  }

  lemma {:induction false} StartStep(s: State, f: Fact, key: ItemKey)
    ensures var m, m' := s.itemsStarted, Next(s, f).itemsStarted;
            (if key in m' then Some(m'[key]) else None)
            == (if f.ItemStarted? && IsItem(f, key) && f.startedAt >= 0 then Some(f.startedAt)
                else if f.ItemCompleted? && IsItem(f, key) && key.turnId in s.turns then None
                else if key in m then Some(m[key]) else None)
  {
  }

  lemma {:induction false} StartsMatchHistory(facts: seq<Fact>, key: ItemKey)
    ensures var m := After(INITIAL, facts).itemsStarted;
            OpenStart(facts, key) == if key in m then Some(m[key]) else None
    decreases |facts|
  {
    if |facts| > 0 {
      StartsMatchHistory(Front(facts), key);
      StartStep(After(INITIAL, Front(facts)), Last(facts), key);
      TurnsMatchHistory(Front(facts), key.turnId);
    }
  }
}
