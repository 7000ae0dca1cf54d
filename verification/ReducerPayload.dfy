/**
  What a turn event carries besides its counters: of each kind of update, the latest one
  ingested since the turn's state was created.
 */
module ReducerPayload {
  import opened Prelude
  import opened Reducer
  import opened ReducerTurns

  datatype Kind = ConfigKind | ProfileKind | CompletedKind | UsageKind | ErrorKind | StartKind | DiffKind

  function KindOf(u: TurnUpdate): Kind {
    match u
    case ResolvedConfig(_) => ConfigKind
    case Profile(_) => ProfileKind
    case Completed(_) => CompletedKind
    case TokenUsage(_, _) => UsageKind
    case CodexError(_, _) => ErrorKind
    case Started(_) => StartKind
    case DiffUpdated(_, _) => DiffKind
  }

  predicate Updates(f: Fact, turnId: string, kind: Kind) {
    f.TurnUpdated? && f.turnId == turnId && KindOf(f.update) == kind
  }

  /** The latest update of a kind for a turn. */
  function Latest(facts: seq<Fact>, turnId: string, kind: Kind): (u: Option<TurnUpdate>)
    ensures u.Some? ==> KindOf(u.value) == kind
  {
    if |facts| == 0 then None
    else if Updates(Last(facts), turnId, kind) then Some(Last(facts).update)
    else Latest(Front(facts), turnId, kind)
  }

  function NotNegative(n: Option<int>): Option<nat> {
    if n.Some? && n.value >= 0 then Some(n.value) else None
  }

  /** A turn's state says what the latest update of this kind said, and nothing if there was none. */
  ghost predicate Remembers(t: Turn, kind: Kind, u: Option<TurnUpdate>)
    requires u.Some? ==> KindOf(u.value) == kind
  {
    match kind
    case ConfigKind => t.config == if u.Some? then Some(u.value.config) else None
    case ProfileKind => t.profile == if u.Some? then Some(u.value.profile) else None
    case CompletedKind => t.completed == if u.Some? then Some(u.value.completion) else None
    case UsageKind => t.tokenUsage == if u.Some? then Some(u.value.usage) else None
    case ErrorKind => t.codexError == if u.Some? then Some(u.value.error) else None
    case StartKind => t.startedAt == if u.Some? then NotNegative(u.value.startedAt) else None
    case DiffKind => t.latestDiff == if u.Some? then Some(u.value.diff) else None
  }

  lemma {:induction false} TouchedRemembers(s: State, f: Fact, turnId: string, kind: Kind, u: Option<TurnUpdate>)
    requires u.Some? ==> KindOf(u.value) == kind
    requires Remembers(TurnOf(s, turnId), kind, u) && Touches(s, f) == Some(turnId)
    ensures Remembers(Touched(s, f), kind, if Updates(f, turnId, kind) then Some(f.update) else u)
  {
  }

  lemma {:induction false} LatestAppend(facts: seq<Fact>, f: Fact, turnId: string, kind: Kind)
    ensures Latest(facts + [f], turnId, kind)
            == if Updates(f, turnId, kind) then Some(f.update) else Latest(facts, turnId, kind)
  {
  }

  lemma {:induction false} StepRemembers(s: State, f: Fact, since: seq<Fact>, turnId: string, kind: Kind)
    requires Remembers(TurnOf(s, turnId), kind, Latest(since, turnId, kind)) && turnId in Next(s, f).turns
    ensures Remembers(Next(s, f).turns[turnId], kind, Latest(since + [f], turnId, kind))
  {
    LatestAppend(since, f, turnId, kind);
    if Touches(s, f) == Some(turnId) {
      TouchedRemembers(s, f, turnId, kind, Latest(since, turnId, kind));
    } else {
      UntouchedCounters(s, f, turnId);
    }
  }

  /** In every reachable state a turn holds, of each kind, the latest update since its creation. */
  lemma {:induction false} TurnsHoldTheLatest(facts: seq<Fact>, turnId: string, kind: Kind)
    ensures Remembers(TurnOf(After(INITIAL, facts), turnId), kind, Latest(facts[Birth(facts, turnId)..], turnId, kind))
    decreases |facts|
  {
    if turnId !in After(INITIAL, facts).turns {
      assert facts[Birth(facts, turnId)..] == [];
    } else {
      var h, f := Front(facts), Last(facts);
      TurnsHoldTheLatest(h, turnId, kind);
      SinceBirth(facts, turnId);
      StepRemembers(After(INITIAL, h), f, h[Birth(h, turnId)..], turnId, kind);
    }
  }

  /** The turn whose event goes out holds the latest updates, fact `f` included. */
  lemma {:induction false} FinishedTurnHoldsTheLatest(facts: seq<Fact>, f: Fact, turnId: string, kind: Kind)
    requires Touches(After(INITIAL, facts), f) == Some(turnId)
    ensures Remembers(Touched(After(INITIAL, facts), f), kind,
                      Latest(facts[Birth(facts, turnId)..] + [f], turnId, kind))
  {
    var since := facts[Birth(facts, turnId)..];
    TurnsHoldTheLatest(facts, turnId, kind);
    LatestAppend(since, f, turnId, kind);
    TouchedRemembers(After(INITIAL, facts), f, turnId, kind, Latest(since, turnId, kind));
  }

  /** The payload says what these updates say. */
  ghost predicate Carries(p: TurnPayload, since: seq<Fact>, turnId: string) {
    && Latest(since, turnId, ConfigKind) == Some(ResolvedConfig(p.config))
    && Latest(since, turnId, ProfileKind) == Some(Profile(p.profile))
    && Latest(since, turnId, CompletedKind) == Some(Completed(p.completion))
    && p.tokenUsage == (var u := Latest(since, turnId, UsageKind); if u.Some? then Some(u.value.usage) else None)
    && p.codexError == (var u := Latest(since, turnId, ErrorKind); if u.Some? then Some(u.value.error) else None)
    && p.startedAt == (var u := Latest(since, turnId, StartKind);
                       if u.Some? then NotNegative(u.value.startedAt) else None)
  }

  lemma {:induction false} PayloadCarries(s: State, turnId: string, t: Turn, since: seq<Fact>)
    requires Ready(s, t) && forall kind :: Remembers(t, kind, Latest(since, turnId, kind))
    ensures Carries(Payload(s, turnId, t), since, turnId)
  {
  }

  /**
    A turn event carries the latest config, profile and completion ingested for its turn
    since its state was created - there is one of each - and the latest token usage, error
    and start time, if any.
   */
  lemma {:induction false} TurnEventCarriesTheLatest(facts: seq<Fact>, f: Fact, turnId: string)
    requires Finishes(After(INITIAL, facts), f) && Touches(After(INITIAL, facts), f) == Some(turnId)
    ensures var events := Emitted(After(INITIAL, facts), f);
            && |events| > 0 && events[0].TurnEvent?
            && Carries(events[0].turn, facts[Birth(facts, turnId)..] + [f], turnId)
  {
    var s := After(INITIAL, facts);
    var since := facts[Birth(facts, turnId)..] + [f];
    forall kind
      ensures Remembers(Touched(s, f), kind, Latest(since, turnId, kind))
    {
      FinishedTurnHoldsTheLatest(facts, f, turnId, kind);
    }
    PayloadCarries(s, turnId, Touched(s, f), since);
    FirstIsTheTurnEvent(s, f);
  }

  lemma {:induction false} FirstIsTheTurnEvent(s: State, f: Fact)
    requires Finishes(s, f)
    ensures |Emitted(s, f)| > 0 && Emitted(s, f)[0] == TurnEvent(Payload(s, Touches(s, f).value, Touched(s, f)))
  {
  }
}
