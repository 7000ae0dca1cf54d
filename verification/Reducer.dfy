/**
  The analytics reducer: seven maps, and what each fact does to each of them. The next state
  is given map by map (`NextTurns`, `NextThreads`, ...) and the events emitted by `Emitted`.
  Facts that turn straight into one event without touching any map are left out.
 */
module Reducer {
  import opened Prelude
  import AcceptedLines

  // ------------------------------------------------------------------ records

  datatype Connection = Connection(client: string, runtime: string)

  datatype InitializationMode = New | Resumed | Forked

  datatype Metadata = Metadata(
    sessionId: string,
    threadSource: Option<string>,
    mode: InitializationMode,
    subagentSource: Option<string>,
    parentThread: Option<string>)

  datatype Thread = Thread(connection: Option<nat>, metadata: Option<Metadata>)

  datatype PendingRequest =
    | TurnStart(threadId: string, images: nat)
    | TurnSteer(threadId: string, images: nat, expectedTurn: string, createdAt: nat)

  datatype Config = Config(threadId: string, images: nat, model: string, settings: string)

  datatype Completion = Completion(
    status: Option<string>, error: Option<string>, completedAt: nat, duration: Option<nat>)

  datatype ItemKind =
    | CommandExecution | FileChange | McpToolCall | DynamicToolCall | CollabAgentToolCall
    | SubAgentActivity | WebSearch | ImageGeneration | OtherItem

  /** `terminal`: the item's status has an outcome to report. */
  datatype Item = Item(kind: ItemKind, id: string, terminal: bool)

  datatype ToolCounts = ToolCounts(
    total: nat, shellCommand: nat, fileChange: nat, mcpToolCall: nat,
    dynamicToolCall: nat, subagentToolCall: nat, webSearch: nat, imageGeneration: nat)

  const NO_TOOLS := ToolCounts(0, 0, 0, 0, 0, 0, 0, 0)

  datatype Turn = Turn(
    connection: Option<nat>,
    threadId: Option<string>,
    images: Option<nat>,
    config: Option<Config>,
    startedAt: Option<nat>,
    tokenUsage: Option<string>,
    profile: Option<string>,
    completed: Option<Completion>,
    codexError: Option<string>,
    latestDiff: Option<string>,
    steers: nat,
    tools: ToolCounts)

  const NEW_TURN := Turn(None, None, None, None, None, None, None, None, None, None, 0, NO_TOOLS)

  datatype ItemKey = ItemKey(threadId: string, turnId: string, itemId: string)

  datatype Subject = CommandSubject | FileSubject | McpSubject | PermissionsSubject | NetworkSubject

  datatype Trigger = Initial | ExecveIntercept | NetworkPolicyDenial | SandboxDenial

  datatype ReviewId = UserReview(request: RequestId) | GuardianReviewId(text: string)

  datatype Review = Review(
    threadId: string,
    turnId: string,
    itemId: Option<string>,
    reviewId: ReviewId,
    subject: Subject,
    trigger: Trigger,
    startedAt: nat,
    additionalPermissions: bool,
    networkAccess: bool)

  datatype Reviewer = Guardian | User
  datatype Status = Approved | Denied | Aborted | TimedOut
  datatype Settlement = NoSettlement | SessionApproval | ExecPolicyAmendment | NetworkPolicyAmendment

  datatype Outcome =
    | GuardianApproved | GuardianDenied | GuardianAborted
    | UserApproved | UserApprovedForSession | UserDenied | UserAborted

  datatype ReviewSummary = ReviewSummary(
    reviews: nat, guardianReviews: nat, userReviews: nat,
    outcome: Option<Outcome>, additionalPermissions: bool, networkAccess: bool)

  const NO_REVIEWS := ReviewSummary(0, 0, 0, None, false, false)

  datatype State = State(
    requests: map<(nat, RequestId), PendingRequest>,
    turns: map<string, Turn>,
    connections: map<nat, Connection>,
    threads: map<string, Thread>,
    itemsStarted: map<ItemKey, nat>,
    reviews: map<RequestId, Review>,
    summaries: map<ItemKey, ReviewSummary>)

  const INITIAL := State(map[], map[], map[], map[], map[], map[], map[])

  // -------------------------------------------------------------------- facts

  datatype TurnUpdate =
    | ResolvedConfig(config: Config)
    | Profile(profile: string)
    | Completed(completion: Completion)
    | TokenUsage(threadId: string, usage: string)
    | CodexError(threadId: string, error: string)
    | Started(startedAt: Option<int>)
    | DiffUpdated(threadId: string, diff: string)

  datatype Approval =
    | CommandApproval(networkContext: bool, amendments: bool, permissions: Option<bool>, intercepted: bool)
    | FileApproval(grantRoot: bool)
    | PermissionsApproval(network: bool, fileSystem: bool)

  datatype CommandDecision =
    | Accept | AcceptForSession | AcceptWithExecpolicyAmendment | ApplyNetworkPolicy(allow: bool) | Decline | Cancel

  datatype FileDecision = FileAccept | FileAcceptForSession | FileDecline | FileCancel

  datatype Verdict =
    | CommandVerdict(command: CommandDecision)
    | FileVerdict(file: FileDecision)
    | PermissionsVerdict(empty: bool, session: bool)
    | AbortedVerdict

  datatype GuardianStatus =
    | GuardianInProgress | GuardianSaysApproved | GuardianSaysDenied | GuardianTimedOut | GuardianSaysAborted

  datatype GuardianAction =
    | GuardCommand | GuardExecve | GuardApplyPatch | GuardNetworkAccess | GuardMcpToolCall
    | GuardRequestPermissions(network: bool, fileSystem: bool)

  datatype Fact =
    | Initialize(connectionId: nat, connection: Connection)
    | ClientRequested(connectionId: nat, requestId: RequestId, request: PendingRequest)
    | ThreadOpened(connectionId: nat, threadId: string, metadata: Metadata)
    | TurnStartAnswered(connectionId: nat, requestId: RequestId, turnId: string)
    | TurnSteerAnswered(connectionId: nat, requestId: RequestId, turnId: string)
    | RequestFailed(connectionId: nat, requestId: RequestId, reason: Option<string>)
    | ItemStarted(threadId: string, turnId: string, item: Item, startedAt: int)
    | ItemCompleted(threadId: string, turnId: string, item: Item, endedAt: int)
    | TurnUpdated(turnId: string, update: TurnUpdate)
    | ApprovalRequested(requestId: RequestId, threadId: string, turnId: string, itemId: string, startedAt: int,
                        approval: Approval)
    | ReviewAnswered(requestId: RequestId, verdict: Verdict, answeredAt: nat)
    | GuardianCompleted(threadId: string, turnId: string, target: Option<string>, reviewId: string,
                        action: GuardianAction, status: GuardianStatus, startedAt: int, endedAt: int)
    | SubAgentStarted(threadId: string, sessionId: string, source: string, parent: Option<string>)
    | ContextReported(threadId: string, body: string)      // compaction, goal, guardian review

  datatype SteerResult = Accepted(turnId: string) | Rejected(reason: Option<string>)

  datatype TurnPayload = TurnPayload(
    turnId: string, threadId: string, connection: Connection, metadata: Metadata,
    images: nat, config: Config, profile: string, completion: Completion,
    startedAt: Option<nat>, tokenUsage: Option<string>, codexError: Option<string>,
    steers: nat, tools: ToolCounts)

  datatype Event =
    | ThreadInitialized(threadId: string, thread: Metadata, client: Option<Connection>)
    | ContextEvent(threadId: string, body: string, connection: Connection, metadata: Metadata)
    | TurnEvent(turn: TurnPayload)
    | AcceptedLinesEvent(turnId: string, threadId: string, model: string, added: nat, deleted: nat)
    | SteerEvent(request: PendingRequest, result: SteerResult, connection: Connection, metadata: Metadata)
    | ReviewEvent(resolved: Resolution, connection: Connection, metadata: Metadata)
    | ToolItemEvent(key: ItemKey, kind: ItemKind, itemStartedAt: nat, itemEndedAt: nat, summary: ReviewSummary,
                    connection: Connection, metadata: Metadata)

  function ToU64(n: int): Option<nat> {
    if n >= 0 then Some(n) else None
  }

  // -------------------------------------------------------- the thread context

  datatype Context =
    | Found(connection: Connection, metadata: Metadata)
    | MissingThreadConnection
    | MissingConnection(connectionId: nat)
    | MissingThreadMetadata

  /** `thread_context_or_warn`. */
  function ThreadContext(s: State, threadId: string): Context {
    if threadId !in s.threads || s.threads[threadId].connection.None? then MissingThreadConnection
    else
      var c := s.threads[threadId].connection.value;
      if c !in s.connections then MissingConnection(c)
      else if s.threads[threadId].metadata.None? then MissingThreadMetadata
      else Found(s.connections[c], s.threads[threadId].metadata.value)
  }

  /** The lookup for a turn: its own connection first, then its thread's. */
  function TurnContext(s: State, own: Option<nat>, threadId: string): Context {
    var known := if threadId in s.threads then s.threads[threadId] else Thread(None, None);
    var c := if own.Some? then own else known.connection;
    if c.None? then MissingThreadConnection
    else if c.value !in s.connections then MissingConnection(c.value)
    else if known.metadata.None? then MissingThreadMetadata
    else Found(s.connections[c.value], known.metadata.value)
  }

  // -------------------------------------------------------------------- turns

  function TurnOf(s: State, turnId: string): Turn {
    if turnId in s.turns then s.turns[turnId] else NEW_TURN
  }

  function UpdateTurn(t: Turn, u: TurnUpdate): Turn {
    match u
    case ResolvedConfig(c) => t.(threadId := Some(c.threadId), images := Some(c.images), config := Some(c))
    case Profile(p) => t.(profile := Some(p))
    case Completed(c) => t.(completed := Some(c))
    case TokenUsage(threadId, usage) => t.(threadId := Some(threadId), tokenUsage := Some(usage))
    case CodexError(threadId, e) =>
      t.(threadId := if t.threadId.Some? then t.threadId else Some(threadId), codexError := Some(e))
    case Started(at) => t.(startedAt := if at.Some? then ToU64(at.value) else None)
    case DiffUpdated(threadId, diff) => t.(threadId := Some(threadId), latestDiff := Some(diff))
  }

  /** After these the turn is looked at for completeness. */
  predicate Reconsiders(u: TurnUpdate) {
    u.ResolvedConfig? || u.Profile? || u.Completed? || u.TokenUsage?
  }

  function RecordTool(c: ToolCounts, kind: ItemKind): ToolCounts {
    match kind
    case CommandExecution => c.(shellCommand := c.shellCommand + 1, total := c.total + 1)
    case FileChange => c.(fileChange := c.fileChange + 1, total := c.total + 1)
    case McpToolCall => c.(mcpToolCall := c.mcpToolCall + 1, total := c.total + 1)
    case DynamicToolCall => c.(dynamicToolCall := c.dynamicToolCall + 1, total := c.total + 1)
    case CollabAgentToolCall => c.(subagentToolCall := c.subagentToolCall + 1, total := c.total + 1)
    case SubAgentActivity => c.(subagentToolCall := c.subagentToolCall + 1, total := c.total + 1)
    case WebSearch => c.(webSearch := c.webSearch + 1, total := c.total + 1)
    case ImageGeneration => c.(imageGeneration := c.imageGeneration + 1, total := c.total + 1)
    case OtherItem => c
  }

  /** `tracked_tool_item_id`. */
  predicate Tracked(kind: ItemKind) {
    kind != SubAgentActivity && kind != OtherItem
  }

  predicate MatchesStart(s: State, f: Fact) {
    f.TurnStartAnswered? && (f.connectionId, f.requestId) in s.requests
    && s.requests[(f.connectionId, f.requestId)].TurnStart?
  }

  predicate MatchesSteer(s: State, f: Fact) {
    f.TurnSteerAnswered? && (f.connectionId, f.requestId) in s.requests
    && s.requests[(f.connectionId, f.requestId)].TurnSteer?
  }

  /** The turn a fact touches, if any. */
  function Touches(s: State, f: Fact): Option<string> {
    match f
    case TurnUpdated(turnId, _) => Some(turnId)
    case TurnStartAnswered(_, _, turnId) => if MatchesStart(s, f) then Some(turnId) else None
    case TurnSteerAnswered(_, _, turnId) => if MatchesSteer(s, f) && turnId in s.turns then Some(turnId) else None
    case ItemCompleted(_, turnId, item, _) => if item.kind != OtherItem && turnId in s.turns then Some(turnId) else None
    case _ => None
  }

  /** What the touched turn becomes. */
  function Touched(s: State, f: Fact): Turn
    requires Touches(s, f).Some?
  {
    var t := TurnOf(s, Touches(s, f).value);
    match f
    case TurnUpdated(_, u) => UpdateTurn(t, u)
    case TurnStartAnswered(c, r, _) =>
      var p := s.requests[(c, r)];
      t.(connection := Some(c), threadId := Some(p.threadId), images := Some(p.images))
    case TurnSteerAnswered(_, _, _) => t.(steers := t.steers + 1)
    case ItemCompleted(_, _, item, _) => t.(tools := RecordTool(t.tools, item.kind))
    case _ => t
  }

  predicate Complete(t: Turn) {
    t.threadId.Some? && t.images.Some? && t.config.Some? && t.profile.Some? && t.completed.Some?
  }

  predicate Ready(s: State, t: Turn) {
    Complete(t) && TurnContext(s, t.connection, t.threadId.value).Found?
  }

  /** The fact makes its turn's event go out. */
  predicate Finishes(s: State, f: Fact) {
    && Touches(s, f).Some?
    && (f.TurnStartAnswered? || (f.TurnUpdated? && Reconsiders(f.update)))
    && Ready(s, Touched(s, f))
  }

  function NextTurns(s: State, f: Fact): map<string, Turn> {
    if Touches(s, f).None? then s.turns
    else if Finishes(s, f) then s.turns - {Touches(s, f).value}
    else s.turns[Touches(s, f).value := Touched(s, f)]
  }

  function Payload(s: State, turnId: string, t: Turn): TurnPayload
    requires Ready(s, t)
  {
    var c := TurnContext(s, t.connection, t.threadId.value);
    TurnPayload(turnId, t.threadId.value, c.connection, c.metadata, t.images.value, t.config.value, t.profile.value,
                t.completed.value, t.startedAt, t.tokenUsage, t.codexError, t.steers, t.tools)
  }

  function TurnEvents(s: State, turnId: string, t: Turn): seq<Event>
    requires Ready(s, t)
  {
    [TurnEvent(Payload(s, turnId, t))] +
    (if t.latestDiff.None? then []
     else
       var (added, deleted) := AcceptedLines.LineCounts(t.latestDiff.value);
       if added == 0 && deleted == 0 then []
       else [AcceptedLinesEvent(turnId, t.threadId.value, t.config.value.model, added, deleted)])
  }

  // -------------------------------------------------- requests and connections

  function NextRequests(s: State, f: Fact): map<(nat, RequestId), PendingRequest> {
    match f
    case ClientRequested(c, r, p) => s.requests[(c, r) := p]
    case TurnStartAnswered(c, r, _) => s.requests - {(c, r)}
    case TurnSteerAnswered(c, r, _) => s.requests - {(c, r)}
    case RequestFailed(c, r, _) => s.requests - {(c, r)}
    case _ => s.requests
  }

  function NextConnections(s: State, f: Fact): map<nat, Connection> {
    if f.Initialize? then s.connections[f.connectionId := f.connection] else s.connections
  }

  function SubAgentMetadata(f: Fact): Metadata
    requires f.SubAgentStarted?
  {
    Metadata(f.sessionId, Some("subagent"), New, Some(f.source), f.parent)
  }

  function NextThreads(s: State, f: Fact): map<string, Thread> {
    match f
    case ThreadOpened(c, threadId, metadata) =>
      if c in s.connections then s.threads[threadId := Thread(Some(c), Some(metadata))] else s.threads
    case SubAgentStarted(threadId, _, _, parent) =>
      var inherited := if parent.Some? && parent.value in s.threads then s.threads[parent.value].connection else None;
      var t := if threadId in s.threads then s.threads[threadId] else Thread(None, None);
      s.threads[threadId := Thread(if t.connection.Some? then t.connection else inherited,
                                   if t.metadata.Some? then t.metadata else Some(SubAgentMetadata(f)))]
    case _ => s.threads
  }

  /** A pending steer request becomes an event when its connection and thread are known. */
  function SteerEvents(s: State, c: nat, p: PendingRequest, result: SteerResult): seq<Event> {
    if c in s.connections && p.threadId in s.threads && s.threads[p.threadId].metadata.Some?
    then [SteerEvent(p, result, s.connections[c], s.threads[p.threadId].metadata.value)]
    else []
  }

  // ------------------------------------------------------------------ reviews

  function ReviewOf(f: Fact): Option<Review>
    requires f.ApprovalRequested?
  {
    if f.startedAt < 0 then None
    else
      var id := UserReview(f.requestId);
      Some(match f.approval
           case CommandApproval(context, amendments, permissions, intercepted) =>
             var network := context || amendments || (permissions.Some? && permissions.value);
             Review(f.threadId, f.turnId, Some(f.itemId), id,
                    if context then NetworkSubject else CommandSubject,
                    if intercepted then ExecveIntercept else if network then NetworkPolicyDenial
                    else if permissions.Some? then SandboxDenial else Initial,
                    f.startedAt, permissions.Some?, network)
           case FileApproval(grantRoot) =>
             Review(f.threadId, f.turnId, Some(f.itemId), id, FileSubject,
                    if grantRoot then SandboxDenial else Initial, f.startedAt, grantRoot, false)
           case PermissionsApproval(network, fileSystem) =>
             Review(f.threadId, f.turnId, Some(f.itemId), id, PermissionsSubject,
                    if network then NetworkPolicyDenial else if fileSystem then SandboxDenial else Initial,
                    f.startedAt, network || fileSystem, network))
  }

  function NextReviews(s: State, f: Fact): map<RequestId, Review> {
    match f
    case ApprovalRequested(r, _, _, _, _, _) =>
      if ReviewOf(f).Some? then s.reviews[r := ReviewOf(f).value] else s.reviews
    case ReviewAnswered(r, _, _) => s.reviews - {r}
    case _ => s.reviews
  }

  function CommandResult(d: CommandDecision): (Status, Settlement) {
    match d
    case Accept => (Approved, NoSettlement)
    case AcceptForSession => (Approved, SessionApproval)
    case AcceptWithExecpolicyAmendment => (Approved, ExecPolicyAmendment)
    case ApplyNetworkPolicy(allow) => (if allow then Approved else Denied, NetworkPolicyAmendment)
    case Decline => (Denied, NoSettlement)
    case Cancel => (Aborted, NoSettlement)
  }

  function VerdictResult(v: Verdict): (Status, Settlement) {
    match v
    case CommandVerdict(d) => CommandResult(d)
    case FileVerdict(FileAccept) => (Approved, NoSettlement)
    case FileVerdict(FileAcceptForSession) => (Approved, SessionApproval)
    case FileVerdict(FileDecline) => (Denied, NoSettlement)
    case FileVerdict(FileCancel) => (Aborted, NoSettlement)
    case PermissionsVerdict(empty, session) =>
      if empty then (Denied, NoSettlement) else (Approved, if session then SessionApproval else NoSettlement)
    case AbortedVerdict => (Aborted, NoSettlement)
  }

  function GuardianResult(s: GuardianStatus): Option<Status> {
    match s
    case GuardianInProgress => None
    case GuardianSaysApproved => Some(Approved)
    case GuardianSaysDenied => Some(Denied)
    case GuardianTimedOut => Some(TimedOut)
    case GuardianSaysAborted => Some(Aborted)
  }

  function GuardianReviewOf(f: Fact): Review
    requires f.GuardianCompleted? && f.startedAt >= 0
  {
    var (subject, trigger, additional, network) :=
      match f.action
      case GuardCommand => (CommandSubject, Initial, false, false)
      case GuardExecve => (CommandSubject, ExecveIntercept, false, false)
      case GuardApplyPatch => (FileSubject, SandboxDenial, true, false)
      case GuardNetworkAccess => (NetworkSubject, NetworkPolicyDenial, true, true)
      case GuardMcpToolCall => (McpSubject, Initial, false, false)
      case GuardRequestPermissions(n, fs) =>
        (PermissionsSubject, if n then NetworkPolicyDenial else if fs then SandboxDenial else Initial, n || fs, n);
    Review(f.threadId, f.turnId, f.target, GuardianReviewId(f.reviewId),
           subject, trigger, f.startedAt, additional, network)
  }

  /** A review that has been decided. */
  datatype Resolution = Resolution(
    review: Review, reviewer: Reviewer, status: Status, settlement: Settlement, endedAt: nat)

  /** The review a fact decides, if any. */
  function Resolved(s: State, f: Fact): Option<Resolution> {
    match f
    case ReviewAnswered(r, v, at) =>
      if r in s.reviews then Some(Resolution(s.reviews[r], User, VerdictResult(v).0, VerdictResult(v).1, at)) else None
    case GuardianCompleted(_, _, _, _, _, status, startedAt, endedAt) =>
      if GuardianResult(status).Some? && startedAt >= 0 && endedAt >= 0
      then Some(Resolution(GuardianReviewOf(f), Guardian, GuardianResult(status).value, NoSettlement, endedAt))
      else None
    case _ => None
  }

  /** `item_review_summary_key`. */
  function SummaryKey(r: Review): Option<ItemKey> {
    if r.itemId.Some? && (r.subject.CommandSubject? || r.subject.FileSubject? || r.subject.McpSubject?)
    then Some(ItemKey(r.threadId, r.turnId, r.itemId.value)) else None
  }

  function OutcomeOf(r: Resolution): Outcome {
    match (r.reviewer, r.status)
    case (Guardian, Approved) => GuardianApproved
    case (Guardian, Denied) => GuardianDenied
    case (Guardian, _) => GuardianAborted
    case (User, Approved) => if r.settlement == SessionApproval then UserApprovedForSession else UserApproved
    case (User, Denied) => UserDenied
    case (User, _) => UserAborted
  }

  /** `record_item_review_summary`. */
  function RecordReview(m: ReviewSummary, r: Resolution): ReviewSummary {
    ReviewSummary(
      m.reviews + 1,
      if r.reviewer == Guardian then m.guardianReviews + 1 else m.guardianReviews,
      if r.reviewer == User then m.userReviews + 1 else m.userReviews,
      Some(OutcomeOf(r)),
      m.additionalPermissions || r.review.additionalPermissions,
      m.networkAccess || r.review.networkAccess)
  }

  function SummaryOf(s: State, key: ItemKey): ReviewSummary {
    if key in s.summaries then s.summaries[key] else NO_REVIEWS
  }

  // -------------------------------------------------------------------- items

  function KeyOf(f: Fact): ItemKey
    requires f.ItemStarted? || f.ItemCompleted?
  {
    ItemKey(f.threadId, f.turnId, f.item.id)
  }

  /** The completion is counted and its start looked up. */
  predicate Closes(s: State, f: Fact) {
    f.ItemCompleted? && Tracked(f.item.kind) && f.turnId in s.turns
  }

  /** The completion gets past the turn, start, time and context checks. */
  predicate Reports(s: State, f: Fact) {
    && Closes(s, f) && KeyOf(f) in s.itemsStarted && f.endedAt >= 0
    && ThreadContext(s, f.threadId).Found?
  }

  function NextItems(s: State, f: Fact): map<ItemKey, nat> {
    if f.ItemStarted? && Tracked(f.item.kind) && f.startedAt >= 0 then s.itemsStarted[KeyOf(f) := f.startedAt]
    else if Closes(s, f) then s.itemsStarted - {KeyOf(f)}
    else s.itemsStarted
  }

  function NextSummaries(s: State, f: Fact): map<ItemKey, ReviewSummary> {
    if Reports(s, f) then s.summaries - {KeyOf(f)}
    else if Resolved(s, f).Some? && SummaryKey(Resolved(s, f).value.review).Some? then
      var r := Resolved(s, f).value;
      var key := SummaryKey(r.review).value;
      s.summaries[key := RecordReview(SummaryOf(s, key), r)]
    else s.summaries
  }

  function ToolEvents(s: State, f: Fact): seq<Event>
    requires Reports(s, f)
  {
    var c := ThreadContext(s, f.threadId);
    if f.item.terminal
    then [ToolItemEvent(KeyOf(f), f.item.kind, s.itemsStarted[KeyOf(f)], f.endedAt, SummaryOf(s, KeyOf(f)),
                        c.connection, c.metadata)]
    else []
  }

  // --------------------------------------------------------------- everything

  function Next(s: State, f: Fact): State {
    State(NextRequests(s, f), NextTurns(s, f), NextConnections(s, f), NextThreads(s, f),
          NextItems(s, f), NextReviews(s, f), NextSummaries(s, f))
  }

  function Emitted(s: State, f: Fact): seq<Event> {
    match f
    case ThreadOpened(c, threadId, metadata) =>
      if c in s.connections then [ThreadInitialized(threadId, metadata, Some(s.connections[c]))] else []
    case SubAgentStarted(threadId, _, _, _) => [ThreadInitialized(threadId, SubAgentMetadata(f), None)]
    case ContextReported(threadId, body) =>
      var c := ThreadContext(s, threadId);
      if c.Found? then [ContextEvent(threadId, body, c.connection, c.metadata)] else []
    case TurnSteerAnswered(c, r, turnId) =>
      if MatchesSteer(s, f) then SteerEvents(s, c, s.requests[(c, r)], Accepted(turnId)) else []
    case RequestFailed(c, r, reason) =>
      if (c, r) in s.requests && s.requests[(c, r)].TurnSteer?
      then SteerEvents(s, c, s.requests[(c, r)], Rejected(reason)) else []
    case ReviewAnswered(_, _, _) => ReviewEvents(s, f)
    case GuardianCompleted(_, _, _, _, _, _, _, _) => ReviewEvents(s, f)
    case ItemCompleted(_, _, _, _) => if Reports(s, f) then ToolEvents(s, f) else []
    case _ => if Finishes(s, f) then TurnEvents(s, Touches(s, f).value, Touched(s, f)) else []
  }

  function ReviewEvents(s: State, f: Fact): seq<Event> {
    if Resolved(s, f).None? then []
    else
      var c := ThreadContext(s, Resolved(s, f).value.review.threadId);
      if c.Found? then [ReviewEvent(Resolved(s, f).value, c.connection, c.metadata)] else []
  }

  /** Neither readiness nor the event looks at the map of turns. */
  lemma {:induction false} TurnsDoNotMatter(s: State, turns: map<string, Turn>, turnId: string, t: Turn)
    ensures Ready(s.(turns := turns), t) == Ready(s, t)
    ensures Ready(s, t) ==> TurnEvents(s.(turns := turns), turnId, t) == TurnEvents(s, turnId, t)
  {
  }

  /** What a turn update does, all maps at once. */
  lemma {:induction false} TurnUpdateStep(s: State, turnId: string, u: TurnUpdate)
    ensures var t := UpdateTurn(TurnOf(s, turnId), u);
            var f := TurnUpdated(turnId, u);
            && (Reconsiders(u) && Ready(s, t) ==>
                  Next(s, f) == s.(turns := s.turns - {turnId}) && Emitted(s, f) == TurnEvents(s, turnId, t))
            && (!(Reconsiders(u) && Ready(s, t)) ==>
                  Next(s, f) == s.(turns := s.turns[turnId := t]) && Emitted(s, f) == [])
  {
  }

  function After(s: State, facts: seq<Fact>): State
    decreases |facts|
  {
    if |facts| == 0 then s else Next(After(s, Front(facts)), Last(facts))
  }

  function Events(s: State, facts: seq<Fact>): seq<Event>
    decreases |facts|
  {
    if |facts| == 0 then [] else Events(s, Front(facts)) + Emitted(After(s, Front(facts)), Last(facts))
  }
}
