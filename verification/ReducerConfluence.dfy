/**
  The resolved config, the profile and the completion of a turn may arrive in any order.
  When does the order not matter, exactly?
 */
module ReducerConfluence {
  import opened Prelude
  import opened Reducer

  /** The three facts, in one of their six orders. */
  predicate IsOrder(us: seq<TurnUpdate>, c: Config, p: string, d: Completion) {
    var r, q, e := ResolvedConfig(c), Profile(p), Completed(d);
    us in [[r, q, e], [r, e, q], [q, r, e], [q, e, r], [e, r, q], [e, q, r]]
  }

  function Facts(turnId: string, us: seq<TurnUpdate>): seq<Fact> {
    seq(|us|, i requires 0 <= i < |us| => TurnUpdated(turnId, us[i]))
  }

  /** The turn with all three. */
  function Full(t: Turn, c: Config, p: string, d: Completion): Turn {
    t.(threadId := Some(c.threadId), images := Some(c.images), config := Some(c),
       profile := Some(p), completed := Some(d))
  }

  /** The thread of the config, and the connection the turn will use, are known. */
  predicate Known(s: State, t: Turn, c: Config) {
    TurnContext(s, t.connection, c.threadId).Found?
  }

  /** Nothing the turn already holds can make its event go out before all three facts are in. */
  predicate Waits(s: State, t: Turn) {
    && t.profile.None? && t.completed.None?
    && !(t.config.Some? && t.threadId.Some? && t.images.Some? && TurnContext(s, t.connection, t.threadId.value).Found?)
  }

  /** Silence for two facts, then the event of the full turn, and no trace of the turn. */
  ghost predicate OneEventAtTheEnd(s: State, turnId: string, us: seq<TurnUpdate>, full: Turn)
    requires |us| == 3 && Ready(s, full)
  {
    && Events(s, Facts(turnId, us[..2])) == []
    && Events(s, Facts(turnId, us)) == TurnEvents(s, turnId, full)
    && After(s, Facts(turnId, us)) == s.(turns := s.turns - {turnId})
  }

  /** A state that differs only in one turn. */
  function With(s: State, turnId: string, t: Turn): State {
    s.(turns := s.turns[turnId := t])
  }

  /** Neither readiness nor the event looks at the other turns. */
  lemma {:induction false} OnlyThisTurn(s: State, turnId: string, t: Turn, t': Turn)
    ensures Ready(With(s, turnId, t), t') == Ready(s, t')
    ensures Ready(s, t') ==> TurnEvents(With(s, turnId, t), turnId, t') == TurnEvents(s, turnId, t')
    ensures With(With(s, turnId, t), turnId, t') == With(s, turnId, t')
    ensures With(s, turnId, t).turns - {turnId} == s.turns - {turnId}
    ensures TurnOf(With(s, turnId, t), turnId) == t
  {
  }

  lemma {:induction false} FactsSplit(turnId: string, us: seq<TurnUpdate>)
    requires |us| > 0
    ensures Front(Facts(turnId, us)) == Facts(turnId, Front(us))
    ensures Last(Facts(turnId, us)) == TurnUpdated(turnId, Last(us))
  {
  }

  /** The turn after two of the three facts. */
  function AfterTwo(t: Turn, us: seq<TurnUpdate>): Turn
    requires |us| >= 2
  {
    UpdateTurn(UpdateTurn(t, us[0]), us[1])
  }

  lemma {:induction false} TwoQuietSteps(s: State, turnId: string, us: seq<TurnUpdate>)
    requires |us| == 2 && Reconsiders(us[0]) && Reconsiders(us[1])
    requires !Ready(s, UpdateTurn(TurnOf(s, turnId), us[0])) && !Ready(s, AfterTwo(TurnOf(s, turnId), us))
    ensures After(s, Facts(turnId, us)) == With(s, turnId, AfterTwo(TurnOf(s, turnId), us))
    ensures Events(s, Facts(turnId, us)) == []
  {
    var t1 := UpdateTurn(TurnOf(s, turnId), us[0]);
    FactsSplit(turnId, us);
    FactsSplit(turnId, Front(us));
    assert Facts(turnId, Front(Front(us))) == [];
    TurnUpdateStep(s, turnId, us[0]);
    assert After(s, []) == s && Events(s, []) == [] && Emitted(s, TurnUpdated(turnId, us[0])) == [];
    assert After(s, Facts(turnId, Front(us))) == With(s, turnId, t1) && Events(s, Facts(turnId, Front(us))) == [];
    OnlyThisTurn(s, turnId, t1, AfterTwo(TurnOf(s, turnId), us));
    TurnUpdateStep(With(s, turnId, t1), turnId, us[1]);
  }

  lemma {:induction false} ThreeSteps(s: State, turnId: string, us: seq<TurnUpdate>, full: Turn)
    requires |us| == 3 && Reconsiders(us[0]) && Reconsiders(us[1]) && Reconsiders(us[2])
    requires !Ready(s, UpdateTurn(TurnOf(s, turnId), us[0])) && !Ready(s, AfterTwo(TurnOf(s, turnId), us))
    requires Ready(s, full) && UpdateTurn(AfterTwo(TurnOf(s, turnId), us), us[2]) == full
    ensures OneEventAtTheEnd(s, turnId, us, full)
  {
    var t2 := AfterTwo(TurnOf(s, turnId), us);
    assert Front(us) == us[..2];
    FactsSplit(turnId, us);
    TwoQuietSteps(s, turnId, us[..2]);
    OnlyThisTurn(s, turnId, t2, full);
    TurnUpdateStep(With(s, turnId, t2), turnId, us[2]);
    assert [] + TurnEvents(s, turnId, full) == TurnEvents(s, turnId, full);
  }

  /** In each order the turn ends up full, and before that it is not ready. */
  lemma {:induction false} OrdersMeet(s: State, t: Turn, us: seq<TurnUpdate>, c: Config, p: string, d: Completion)
    requires IsOrder(us, c, p, d)
    ensures |us| == 3 && Reconsiders(us[0]) && Reconsiders(us[1]) && Reconsiders(us[2])
    ensures UpdateTurn(AfterTwo(t, us), us[2]) == Full(t, c, p, d)
    ensures Waits(s, t) ==> !Ready(s, UpdateTurn(t, us[0])) && !Ready(s, AfterTwo(t, us))
  {
  }

  /**
    Turn confluence. For a turn whose thread and connection are known: all six orders give
    exactly one turn event, on the third fact, with the same payload, and leave no state for
    the turn, if and only if the turn waits for all three.
   */
  lemma {:induction false} TurnConfluence(s: State, turnId: string, c: Config, p: string, d: Completion)
    requires Known(s, TurnOf(s, turnId), c)
    ensures Ready(s, Full(TurnOf(s, turnId), c, p, d))
    ensures (forall us :: IsOrder(us, c, p, d) ==>
               |us| == 3 && OneEventAtTheEnd(s, turnId, us, Full(TurnOf(s, turnId), c, p, d)))
            <==> Waits(s, TurnOf(s, turnId))
  {
    var t := TurnOf(s, turnId);
    var full := Full(t, c, p, d);
    assert Ready(s, full);
    if Waits(s, t) {
      forall us | IsOrder(us, c, p, d)
        ensures |us| == 3 && OneEventAtTheEnd(s, turnId, us, full)
      {
        OrdersMeet(s, t, us, c, p, d);
        ThreeSteps(s, turnId, us, full);
      }
    } else {
      var us := EarlyOrder(s, turnId, c, p, d);
      assert !(|us| == 3 && OneEventAtTheEnd(s, turnId, us, full));
    }
  }

  /** If the turn does not wait, some order lets the event out after two facts or fewer. */
  lemma {:induction false} EarlyOrder(s: State, turnId: string, c: Config, p: string, d: Completion)
    returns (us: seq<TurnUpdate>)
    requires Known(s, TurnOf(s, turnId), c) && !Waits(s, TurnOf(s, turnId))
    ensures IsOrder(us, c, p, d) && |us| == 3 && Events(s, Facts(turnId, us[..2])) != []
  {
    var t := TurnOf(s, turnId);
    var r, q, e := ResolvedConfig(c), Profile(p), Completed(d);
    us := if t.profile.Some? then [r, e, q] else if t.completed.Some? then [r, q, e] else [q, e, r];
    EarlyEvent(s, turnId, us[0], us[1]);
    assert us[..2] == [us[0], us[1]];
  }

  lemma {:induction false} EarlyEvent(s: State, turnId: string, u: TurnUpdate, v: TurnUpdate)
    requires Reconsiders(u) && Reconsiders(v)
    requires Ready(s, UpdateTurn(UpdateTurn(TurnOf(s, turnId), u), v))
    ensures Events(s, Facts(turnId, [u, v])) != []
  {
  }
}
