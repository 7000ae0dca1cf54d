/**
  Whole-history results about threads and turns: the context invariant, what a turn event
  consumes, and its counters.
 */
module ReducerTurns {
  import opened Prelude
  import opened Reducer

  // ---------------------------------------------------------- context invariant

  ghost predicate ContextInv(s: State) {
    forall id :: id in s.threads ==>
      && s.threads[id].metadata.Some?
      && (s.threads[id].connection.Some? ==> s.threads[id].connection.value in s.connections)
  }

  lemma {:induction false} NextKeepsContext(s: State, f: Fact)
    requires ContextInv(s)
    ensures ContextInv(Next(s, f))
  {
  }

  /**
    In every reachable state each thread has metadata, and its connection - its own, or one
    inherited from a parent - is an initialised one. So the context lookup can fail in one
    way only: the thread is unknown or has no connection.
   */
  lemma {:induction false} ReachableContexts(facts: seq<Fact>, threadId: string)
    ensures ContextInv(After(INITIAL, facts))
    ensures var s := After(INITIAL, facts);
            var c := ThreadContext(s, threadId);
            && !c.MissingConnection? && !c.MissingThreadMetadata?
            && (c.Found? <==> threadId in s.threads && s.threads[threadId].connection.Some?)
    decreases |facts|
  {
    if |facts| > 0 {
      ReachableContexts(Front(facts), threadId);
      NextKeepsContext(After(INITIAL, Front(facts)), Last(facts));
    }
  }

  // -------------------------------------------------- turn events use up facts

  /** The three parts that a turn event needs and the reducer forgets afterwards. */
  datatype Part = ConfigPart | ProfilePart | CompletedPart

  predicate HasPart(t: Turn, part: Part) {
    match part
    case ConfigPart => t.config.Some?
    case ProfilePart => t.profile.Some?
    case CompletedPart => t.completed.Some?
  }

  predicate GivesPart(f: Fact, turnId: string, part: Part) {
    f.TurnUpdated? && f.turnId == turnId &&
    match part
    case ConfigPart => f.update.ResolvedConfig?
    case ProfilePart => f.update.Profile?
    case CompletedPart => f.update.Completed?
  }

  function Given(facts: seq<Fact>, turnId: string, part: Part): nat {
    if |facts| == 0 then 0
    else Given(Front(facts), turnId, part) + (if GivesPart(Last(facts), turnId, part) then 1 else 0)
  }

  function TurnEventsFor(events: seq<Event>, turnId: string): nat {
    if |events| == 0 then 0
    else TurnEventsFor(Front(events), turnId)
         + (if Last(events).TurnEvent? && Last(events).turn.turnId == turnId then 1 else 0)
  }

  function Held(s: State, turnId: string, part: Part): nat {
    if turnId in s.turns && HasPart(s.turns[turnId], part) then 1 else 0
  }

  lemma {:induction false} TurnEventsAppend(a: seq<Event>, b: seq<Event>, turnId: string)
    ensures TurnEventsFor(a + b, turnId) == TurnEventsFor(a, turnId) + TurnEventsFor(b, turnId)
    decreases |b|
  {
    if |b| == 0 {
      assert a + b == a;
    } else {
      assert Front(a + b) == a + Front(b) && Last(a + b) == Last(b);
      TurnEventsAppend(a, Front(b), turnId);
    }
  }

  lemma {:induction false} NotATurnEvent(e: Event, turnId: string)
    ensures TurnEventsFor([e], turnId) == if e.TurnEvent? && e.turn.turnId == turnId then 1 else 0
  {
  }

  /** A fact emits one turn event if it finishes its turn, none otherwise. */
  lemma {:induction false} EmittedTurnEvents(s: State, f: Fact, turnId: string)
    ensures TurnEventsFor(Emitted(s, f), turnId) == if Finishes(s, f) && Touches(s, f) == Some(turnId) then 1 else 0
  {
    var es := Emitted(s, f);
    if Finishes(s, f) {
      var id := Touches(s, f).value;
      var te := TurnEvents(s, id, Touched(s, f));
      assert es == te;
      assert te == [te[0]] + te[1..];
      TurnEventsAppend([te[0]], te[1..], turnId);
      NotATurnEvent(te[0], turnId);
      if |te| > 1 { assert te[1..] == [te[1]]; NotATurnEvent(te[1], turnId); }
    } else {
      assert |es| <= 1;
      if |es| == 1 { assert es == [es[0]]; NotATurnEvent(es[0], turnId); }
    }
  }

  lemma {:induction false} TouchedPart(s: State, f: Fact, part: Part)
    requires Touches(s, f).Some? && HasPart(Touched(s, f), part)
    ensures Held(s, Touches(s, f).value, part) == 1 || GivesPart(f, Touches(s, f).value, part)
  {
  }

  lemma {:induction false} StepUsesParts(s: State, f: Fact, turnId: string, part: Part)
    ensures TurnEventsFor(Emitted(s, f), turnId) + Held(Next(s, f), turnId, part)
            <= Held(s, turnId, part) + (if GivesPart(f, turnId, part) then 1 else 0)
  {
    EmittedTurnEvents(s, f, turnId);
    if Touches(s, f) == Some(turnId) && HasPart(Touched(s, f), part) { TouchedPart(s, f, part); }
  }

  /**
    Turn events consume fresh facts: from any state on, the turn events for an id are no
    more than the configs, the profiles and the completions ingested for it, plus the one
    the state may already hold.
   */
  lemma {:induction false} TurnEventsUseParts(s: State, facts: seq<Fact>, turnId: string, part: Part)
    ensures TurnEventsFor(Events(s, facts), turnId) + Held(After(s, facts), turnId, part)
            <= Held(s, turnId, part) + Given(facts, turnId, part)
    decreases |facts|
  {
    if |facts| > 0 {
      var m := After(s, Front(facts));
      TurnEventsUseParts(s, Front(facts), turnId, part);
      StepUsesParts(m, Last(facts), turnId, part);
      TurnEventsAppend(Events(s, Front(facts)), Emitted(m, Last(facts)), turnId);
    }
  }

  /**
    Once a turn event has gone out, in whatever state, every further one for that id needs
    each of the three parts afresh.
   */
  lemma {:induction false} FreshPartsBetweenTurnEvents(s: State, f: Fact, later: seq<Fact>, turnId: string, part: Part)
    requires TurnEventsFor(Emitted(s, f), turnId) > 0
    ensures TurnEventsFor(Events(Next(s, f), later), turnId) <= Given(later, turnId, part)
  {
    EmittedTurnEvents(s, f, turnId);
    TurnEventsUseParts(Next(s, f), later, turnId, part);
  }

  /** Over every history, an id has no more turn events than configs, profiles or completions. */
  lemma {:induction false} TurnEventsNeverExceedParts(facts: seq<Fact>, turnId: string)
    ensures forall part :: TurnEventsFor(Events(INITIAL, facts), turnId) <= Given(facts, turnId, part)
  {
    forall part
      ensures TurnEventsFor(Events(INITIAL, facts), turnId) <= Given(facts, turnId, part)
    {
      TurnEventsUseParts(INITIAL, facts, turnId, part);
    }
  }

  // ---------------------------------------------------- counters match history

  /** The last position of the history at which the turn had no state. */
  function Birth(facts: seq<Fact>, turnId: string): (n: nat)
    ensures n <= |facts| && turnId !in After(INITIAL, facts[..n]).turns
    decreases |facts|
  {
    if |facts| == 0 || turnId !in After(INITIAL, facts).turns then
      assert facts[..|facts|] == facts;
      |facts|
    else
      var n := Birth(Front(facts), turnId);
      assert Front(facts)[..n] == facts[..n];
      n
  }

  predicate CompletesItem(f: Fact, turnId: string, kind: ItemKind) {
    f.ItemCompleted? && f.turnId == turnId && f.item.kind == kind
  }

  /** How many items of a kind the facts complete for a turn. */
  function Items(facts: seq<Fact>, turnId: string, kind: ItemKind): nat {
    if |facts| == 0 then 0
    else Items(Front(facts), turnId, kind) + (if CompletesItem(Last(facts), turnId, kind) then 1 else 0)
  }

  /** How many steers from position `from` on were accepted into the turn. */
  function Steers(facts: seq<Fact>, from: nat, turnId: string): nat
    decreases |facts|
  {
    if |facts| <= from then 0
    else Steers(Front(facts), from, turnId)
         + (if MatchesSteer(After(INITIAL, Front(facts)), Last(facts)) && Last(facts).turnId == turnId then 1 else 0)
  }

  ghost predicate CountsAgree(c: ToolCounts, facts: seq<Fact>, turnId: string) {
    && c.shellCommand == Items(facts, turnId, CommandExecution)
    && c.fileChange == Items(facts, turnId, FileChange)
    && c.mcpToolCall == Items(facts, turnId, McpToolCall)
    && c.dynamicToolCall == Items(facts, turnId, DynamicToolCall)
    && c.subagentToolCall == Items(facts, turnId, CollabAgentToolCall) + Items(facts, turnId, SubAgentActivity)
    && c.webSearch == Items(facts, turnId, WebSearch)
    && c.imageGeneration == Items(facts, turnId, ImageGeneration)
    && c.total == c.shellCommand + c.fileChange + c.mcpToolCall + c.dynamicToolCall + c.subagentToolCall
                  + c.webSearch + c.imageGeneration
  }

  lemma {:induction false} ItemsAppend(facts: seq<Fact>, f: Fact, turnId: string, kind: ItemKind)
    ensures Items(facts + [f], turnId, kind)
            == Items(facts, turnId, kind) + (if CompletesItem(f, turnId, kind) then 1 else 0)
  {
  }

  lemma {:induction false} CountsAppend(c: ToolCounts, facts: seq<Fact>, f: Fact, turnId: string)
    requires CountsAgree(c, facts, turnId)
    ensures f.ItemCompleted? && f.turnId == turnId ==> CountsAgree(RecordTool(c, f.item.kind), facts + [f], turnId)
    ensures !(f.ItemCompleted? && f.turnId == turnId && f.item.kind != OtherItem) ==>
              CountsAgree(c, facts + [f], turnId)
  {
    ItemsAppend(facts, f, turnId, CommandExecution);
    ItemsAppend(facts, f, turnId, FileChange);
    ItemsAppend(facts, f, turnId, McpToolCall);
    ItemsAppend(facts, f, turnId, DynamicToolCall);
    ItemsAppend(facts, f, turnId, CollabAgentToolCall);
    ItemsAppend(facts, f, turnId, SubAgentActivity);
    ItemsAppend(facts, f, turnId, WebSearch);
    ItemsAppend(facts, f, turnId, ImageGeneration);
  }

  /** What one fact does to a turn's counters. */
  lemma {:induction false} TouchedCounters(s: State, f: Fact, turnId: string)
    requires Touches(s, f) == Some(turnId)
    ensures var tools := TurnOf(s, turnId).tools;
            Touched(s, f).tools == if f.ItemCompleted? then RecordTool(tools, f.item.kind) else tools
    ensures Touched(s, f).steers
            == TurnOf(s, turnId).steers + (if MatchesSteer(s, f) && f.turnId == turnId then 1 else 0)
    ensures turnId !in s.turns ==> !f.ItemCompleted? && !MatchesSteer(s, f)
  {
  }

  lemma {:induction false} UntouchedCounters(s: State, f: Fact, turnId: string)
    requires Touches(s, f) != Some(turnId) && turnId in s.turns
    ensures !(f.ItemCompleted? && f.turnId == turnId && f.item.kind != OtherItem)
    ensures !(MatchesSteer(s, f) && f.turnId == turnId)
    ensures turnId in Next(s, f).turns && Next(s, f).turns[turnId] == s.turns[turnId]
  {
  }

  ghost predicate Counted(t: Turn, facts: seq<Fact>, turnId: string) {
    && CountsAgree(t.tools, facts[Birth(facts, turnId)..], turnId)
    && t.steers == Steers(facts, Birth(facts, turnId), turnId)
  }

  lemma {:induction false} SinceBirth(facts: seq<Fact>, turnId: string)
    requires turnId in After(INITIAL, facts).turns
    ensures |facts| > 0 && Birth(facts, turnId) == Birth(Front(facts), turnId)
    ensures facts[Birth(facts, turnId)..] == Front(facts)[Birth(facts, turnId)..] + [Last(facts)]
  {
    SuffixGrows(facts, Birth(Front(facts), turnId));
  }

  /** In every reachable state a turn's counters are those of the history since its state was created. */
  lemma {:induction false} CountersMatchHistory(facts: seq<Fact>, turnId: string)
    ensures Counted(TurnOf(After(INITIAL, facts), turnId), facts, turnId)
    decreases |facts|
  {
    if turnId !in After(INITIAL, facts).turns {
      assert facts[Birth(facts, turnId)..] == [];
    } else {
      var h, f := Front(facts), Last(facts);
      CountersMatchHistory(h, turnId);
      SinceBirth(facts, turnId);
      StepCounters(After(INITIAL, h), f, h[Birth(h, turnId)..], turnId);
    }
  }

  lemma {:induction false} StepCounters(s: State, f: Fact, since: seq<Fact>, turnId: string)
    requires CountsAgree(TurnOf(s, turnId).tools, since, turnId) && turnId in Next(s, f).turns
    ensures CountsAgree(Next(s, f).turns[turnId].tools, since + [f], turnId)
    ensures Next(s, f).turns[turnId].steers
            == TurnOf(s, turnId).steers + (if MatchesSteer(s, f) && f.turnId == turnId then 1 else 0)
  {
    CountsAppend(TurnOf(s, turnId).tools, since, f, turnId);
    if Touches(s, f) == Some(turnId) {
      TouchedCounters(s, f, turnId);
    } else {
      UntouchedCounters(s, f, turnId);
    }
  }

  /** So are the counters that a turn event reports. */
  lemma {:induction false} TurnEventReportsHistory(facts: seq<Fact>, f: Fact)
    requires Finishes(After(INITIAL, facts), f)
    ensures var s := After(INITIAL, facts);
            var id := Touches(s, f).value;
            && |Emitted(s, f)| > 0 && Emitted(s, f)[0].TurnEvent?
            && var p := Emitted(s, f)[0].turn;
               && p.turnId == id
               && CountsAgree(p.tools, facts[Birth(facts, id)..], id)
               && p.steers == Steers(facts, Birth(facts, id), id)
  {
    var s := After(INITIAL, facts);
    var id := Touches(s, f).value;
    CountersMatchHistory(facts, id);
    TouchedCounters(s, f, id);
  }
}
