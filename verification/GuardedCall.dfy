/**
 * Provider calls that pass first the daily ledger and then their circuit breaker. Any number of them run
 * at once; every await is a point where the others may move, and a call may stop at any of them for good.
 */
module GuardedCall {
  import opened Wrappers
  import B = Breaker
  import BR = BreakerRuns
  import L = Ledger
  import LR = LedgerRuns

  /** How a call ends: refused by the breaker, with a reply, with an error and its receipts, or cancelled. */
  datatype Outcome =
    | Refused
    | Replied(cost: Option<real>)
    | Raised(attempts: seq<Option<real>>)
    | Cancelled

  /** saved is false when the ledger could not be reached at the end of the call. */
  datatype Stage = Admitting | Calling | Settling(outcome: Outcome) | Ended(outcome: Outcome, saved: bool)

  datatype Guarded = Guarded(key: string, token: string, stage: Stage)

  datatype World = World(breakers: map<string, BR.System>, ledger: LR.System, calls: map<nat, Guarded>)

  datatype Step =
    | Reserve(id: nat, key: string, ask: LR.Action)
      /** A reservation or an ending that belongs to no guarded call, or to one cancelled while it reserved. */
    | Elsewhere(action: LR.Action)
    | Gate(id: nat, now: real)
    | Reply(id: nat, cost: Option<real>)
    | Raise(id: nat, now: real, attempts: seq<Option<real>>)
    | Cancel(id: nat, now: real)
    | Settle(id: nat, saved: bool)

  function Begin(limit: real): World { World(map[], LR.Begin(limit), map[]) }

  function BreakerOf(w: World, key: string): BR.System {
    if key in w.breakers then w.breakers[key] else BR.INITIAL
  }

  /** What the end of a call does to its reservation; None leaves the lease in place. */
  function EndingOf(o: Outcome): Option<L.Ending> {
    match o
    case Refused => Some(L.Release)
    case Replied(cost) => Some(L.ReplyEnding(cost))
    case Raised(attempts) => L.ErrorEnding(attempts)
    case Cancelled => None
  }

  predicate IsAt(w: World, id: nat, stage: Stage) { id in w.calls && w.calls[id].stage == stage }

  function Moved(w: World, id: nat, stage: Stage): World
    requires id in w.calls
  {
    w.(calls := w.calls[id := w.calls[id].(stage := stage)])
  }

  function BreakerMoves(config: B.Config, w: World, key: string, e: BR.Event): World {
    w.(breakers := w.breakers[key := BR.Next(config, BreakerOf(w, key), e)])
  }

  predicate Unowned(w: World, token: string) { forall id :: id in w.calls ==> w.calls[id].token != token }

  function DoReserve(w: World, id: nat, key: string, ask: LR.Action): World
    requires ask.Ask?
  {
    var ledger := LR.Next(w.ledger, ask);
    if ask.token in ledger.granted
    then w.(ledger := ledger, calls := w.calls[id := Guarded(key, ask.token, Admitting)])
    else w.(ledger := ledger)
  }

  function DoGate(config: B.Config, w: World, id: nat, now: real): World
    requires id in w.calls
  {
    var key := w.calls[id].key;
    var stage := if B.Refuses(BreakerOf(w, key).b, now) then Settling(Refused) else Calling;
    Moved(BreakerMoves(config, w, key, BR.Call(id, now)), id, stage)
  }

  function LedgerAfter(w: World, c: Guarded, outcome: Outcome, saved: bool): LR.System {
    if saved && EndingOf(outcome).Some?
    then LR.Next(w.ledger, LR.End(c.token, EndingOf(outcome).value))
    else w.ledger
  }

  function DoSettle(w: World, id: nat, saved: bool): World
    requires id in w.calls && w.calls[id].stage.Settling?
  {
    var outcome := w.calls[id].stage.outcome;
    Moved(w, id, Ended(outcome, saved)).(ledger := LedgerAfter(w, w.calls[id], outcome, saved))
  }

  function Next(config: B.Config, w: World, step: Step): World {
    match step
    case Reserve(id, key, ask) =>
      if id in w.calls || !ask.Ask? || !LR.Fits(w.ledger, ask) then w else DoReserve(w, id, key, ask)
    case Elsewhere(action) =>
      if action.End? && !Unowned(w, action.token) then w else w.(ledger := LR.Next(w.ledger, action))
    case Gate(id, now) =>
      if !IsAt(w, id, Admitting) then w else DoGate(config, w, id, now)
    case Reply(id, cost) =>
      if !IsAt(w, id, Calling) then w
      else Moved(BreakerMoves(config, w, w.calls[id].key, BR.Succeed(id)), id, Settling(Replied(cost)))
    case Raise(id, now, attempts) =>
      if !IsAt(w, id, Calling) then w
      else Moved(BreakerMoves(config, w, w.calls[id].key, BR.Fail(id, now)), id, Settling(Raised(attempts)))
    case Cancel(id, now) =>
      if !IsAt(w, id, Calling) then w
      else Moved(BreakerMoves(config, w, w.calls[id].key, BR.Cancel(id, now)), id, Ended(Cancelled, true))
    case Settle(id, saved) =>
      if id !in w.calls || !w.calls[id].stage.Settling? then w else DoSettle(w, id, saved)
  }

  function Run(config: B.Config, limit: real, steps: seq<Step>): World {
    if steps == [] then Begin(limit)
    else Next(config, Run(config, limit, steps[..|steps| - 1]), steps[|steps| - 1])
  }

  predicate SaneStep(step: Step) {
    match step
    case Gate(_, now) => now >= 0.0
    case Raise(_, now, _) => now >= 0.0
    case Cancel(_, now) => now >= 0.0
    case _ => true
  }

  // ---------- The invariant ----------

  predicate TakenAway(f: LR.Fate) { f.Superseded? || f.Forgotten? }

  /** A token has only the fate that its own call's ending gave it, unless its lease was taken away. */
  predicate FateOk(w: World, c: Guarded) {
    && c.token in w.ledger.granted
    && (c.token in w.ledger.fates ==>
          TakenAway(w.ledger.fates[c.token])
          || (c.stage.Ended? && c.stage.saved && EndingOf(c.stage.outcome).Some?
              && w.ledger.fates[c.token] == LR.FateOf(EndingOf(c.stage.outcome).value)))
    && (c.stage.Ended? && c.stage.saved && EndingOf(c.stage.outcome).Some? ==> c.token in w.ledger.fates)
  }

  /** The breaker of a call knows its admission exactly while the provider is at work on it. */
  predicate AdmissionOk(w: World, id: nat)
    requires id in w.calls
  {
    w.calls[id].stage == Calling <==> id in BreakerOf(w, w.calls[id].key).calls
  }

  predicate FatesOk(w: World) { forall id :: id in w.calls ==> FateOk(w, w.calls[id]) }

  predicate AdmissionsOk(w: World) {
    && (forall id :: id in w.calls ==> AdmissionOk(w, id))
    && (forall key, id :: key in w.breakers && id in w.breakers[key].calls ==> id in w.calls && w.calls[id].key == key)
  }

  predicate TokensDiffer(w: World) {
    forall i, j :: i in w.calls && j in w.calls && w.calls[i].token == w.calls[j].token ==> i == j
  }

  ghost predicate BreakersOk(config: B.Config, w: World) {
    forall key :: key in w.breakers ==> BR.Inv(config, w.breakers[key])
  }

  ghost predicate Inv(config: B.Config, w: World) {
    LR.Inv(w.ledger) && BreakersOk(config, w) && FatesOk(w) && AdmissionsOk(w) && TokensDiffer(w)
  }

  // ---------- What each part of a step keeps ----------

  lemma {:induction false} SumIsNonNegative(attempts: seq<Option<real>>)
    requires L.AllValid(attempts)
    ensures L.Sum(L.Values(attempts)) >= 0.0
  {
    if attempts != [] {
      var rest := attempts[..|attempts| - 1];
      SumIsNonNegative(rest);
      assert L.Values(attempts)[..|attempts| - 1] == L.Values(rest);
    }
  }

  /** Other people's actions can only take a token's lease away. */
  lemma OthersOnlyTakeAway(s: LR.System, a: LR.Action, token: string)
    requires LR.Inv(s) && token in s.granted && (a.End? ==> a.token != token)
    ensures var s' := LR.Next(s, a);
            && token in s'.granted && (token in s.fates ==> token in s'.fates && s'.fates[token] == s.fates[token])
            && (token in s'.fates && token !in s.fates ==> TakenAway(s'.fates[token]))
  {
    LR.NextIsLater(s, a);
  }

  /** A token without a fate gets the one that its ending asks for; one with a fate keeps it. */
  lemma EndingGivesFate(s: LR.System, token: string, e: L.Ending)
    requires LR.Inv(s) && token in s.granted && (e.Charge? ==> e.cost >= 0.0)
    ensures var s' := LR.Next(s, LR.End(token, e));
            && s'.granted == s.granted
            && s'.fates == if token in s.fates then s.fates else s.fates[token := LR.FateOf(e)]
  {
    assert LR.TokenOk(s, token);
    if s.granted[token] in s.days { assert LR.DayOk(s, s.granted[token]); }
    hide LR.Inv;
  }

  lemma LedgerActionKeepsFates(w: World, w': World, a: LR.Action)
    requires LR.Inv(w.ledger) && w'.ledger == LR.Next(w.ledger, a) && w'.calls == w.calls
    requires FatesOk(w) && (a.End? ==> Unowned(w, a.token))
    ensures FatesOk(w')
  {
    forall id | id in w.calls ensures FateOk(w', w.calls[id]) {
      assert FateOk(w, w.calls[id]);
      OthersOnlyTakeAway(w.ledger, a, w.calls[id].token);
      hide *;
      FateFrame(w, w', w.calls[id]);
    }
  }

  lemma FateFrame(w: World, w': World, c: Guarded)
    requires FateOk(w, c) && c.token in w'.ledger.granted
    requires c.token in w.ledger.fates ==>
               c.token in w'.ledger.fates && w'.ledger.fates[c.token] == w.ledger.fates[c.token]
    requires c.token in w'.ledger.fates && c.token !in w.ledger.fates ==> TakenAway(w'.ledger.fates[c.token])
    ensures FateOk(w', c)
  {
  }

  lemma SameAdmissions(w: World, w': World)
    requires AdmissionsOk(w) && w'.breakers == w.breakers && w.calls.Keys <= w'.calls.Keys
    requires forall id :: id in w.calls ==>
                            w'.calls[id].key == w.calls[id].key
                            && (w'.calls[id].stage == Calling <==> w.calls[id].stage == Calling)
    requires forall id :: id in w'.calls && id !in w.calls ==> w'.calls[id].stage == Admitting
    ensures AdmissionsOk(w')
  {
    forall id | id in w'.calls ensures AdmissionOk(w', id) {
      if id in w.calls { assert AdmissionOk(w, id); }
    }
  }

  lemma SameBreakers(config: B.Config, w: World, w': World)
    requires BreakersOk(config, w) && w'.breakers == w.breakers
    ensures BreakersOk(config, w')
  {
    hide BR.Inv;
  }

  /** Stages may change under a token, tokens may not. */
  lemma SameTokens(w: World, w': World)
    requires TokensDiffer(w) && w'.calls.Keys == w.calls.Keys
    requires forall id :: id in w.calls ==> w'.calls[id].token == w.calls[id].token
    ensures TokensDiffer(w')
  {
  }

  lemma LedgerStepKeepsInv(config: B.Config, w: World, w': World, a: LR.Action)
    requires Inv(config, w) && w' == w.(ledger := LR.Next(w.ledger, a)) && (a.End? ==> Unowned(w, a.token))
    ensures Inv(config, w')
  {
    hide LR.Inv, LR.Next, FatesOk, AdmissionsOk, BreakersOk, TokensDiffer;
    LR.NextKeepsInv(w.ledger, a);
    LedgerActionKeepsFates(w, w', a);
    SameAdmissions(w, w');
    SameBreakers(config, w, w');
    SameTokens(w, w');
  }

  /** A call that enters after its token was granted. */
  lemma NewCallKeepsInv(config: B.Config, w: World, w': World, id: nat, c: Guarded)
    requires Inv(config, w) && id !in w.calls && w' == w.(calls := w.calls[id := c])
    requires c.stage == Admitting && FateOk(w, c) && Unowned(w, c.token)
    ensures Inv(config, w')
  {
    hide LR.Inv, TokensDiffer, BreakersOk, AdmissionsOk, FatesOk, Unowned, FateOk;
    SameBreakers(config, w, w');
    SameAdmissions(w, w');
    NewTokenDiffers(w, w', id, c);
    NewFates(w, w', id, c);
  }

  lemma NewTokenDiffers(w: World, w': World, id: nat, c: Guarded)
    requires TokensDiffer(w) && Unowned(w, c.token) && w' == w.(calls := w.calls[id := c])
    ensures TokensDiffer(w')
  {
  }

  lemma NewFates(w: World, w': World, id: nat, c: Guarded)
    requires FatesOk(w) && FateOk(w, c) && w' == w.(calls := w.calls[id := c])
    ensures FatesOk(w')
  {
    forall i | i in w'.calls ensures FateOk(w', w'.calls[i]) {
      if i != id { assert FateOk(w, w.calls[i]); }
    }
  }

  lemma ReserveKeepsInv(config: B.Config, w: World, id: nat, key: string, ask: LR.Action)
    requires Inv(config, w) && id !in w.calls && ask.Ask? && LR.Fits(w.ledger, ask)
    ensures Inv(config, DoReserve(w, id, key, ask))
  {
    var ledger := LR.Next(w.ledger, ask);
    var between := w.(ledger := ledger);
    assert ask.token !in w.ledger.granted;
    hide LR.Inv, LR.Next, LR.Fits, AdmissionsOk, TokensDiffer, BreakersOk;
    assert Unowned(between, ask.token) by {
      forall i | i in w.calls ensures w.calls[i].token != ask.token { assert FateOk(w, w.calls[i]); }
    }
    LedgerStepKeepsInv(config, w, between, ask);
    if ask.token in ledger.granted {
      NewTokenHasNoFate(w.ledger, ask);
      hide FatesOk;
      NewCallKeepsInv(config, between, DoReserve(w, id, key, ask), id, Guarded(key, ask.token, Admitting));
    }
  }

  lemma NewTokenHasNoFate(s: LR.System, a: LR.Action)
    requires LR.Inv(s) && a.Ask? && LR.Fits(s, a) && a.token in LR.Next(s, a).granted
    ensures a.token !in LR.Next(s, a).fates
  {
    var held := if a.day in s.days then s.days[a.day].token else "";
    assert a.day in s.days ==> LR.DayOk(s, a.day);
    assert a.token !in s.granted && a.token !in s.fates;
    hide LR.Inv;
  }

  lemma OthersKeepAdmission(config: B.Config, s: BR.System, e: BR.Event, i: nat)
    requires i != e.id
    ensures i in BR.Next(config, s, e).calls <==> i in s.calls
  {
  }

  /** A move of one breaker, and of the stage of the call that caused it. */
  predicate MoveShape(w: World, w': World, key: string, after: BR.System, id: nat, stage: Stage) {
    && id in w.calls && w.calls[id].key == key && w'.ledger == w.ledger
    && w'.breakers == w.breakers[key := after] && w'.calls == w.calls[id := w.calls[id].(stage := stage)]
  }

  lemma BreakerStepKeepsInv(config: B.Config, w: World, key: string, e: BR.Event, id: nat, stage: Stage)
    requires BR.Sane(config) && BR.SaneEvent(e) && e.id == id
    requires Inv(config, w) && id in w.calls && w.calls[id].key == key && !w.calls[id].stage.Ended?
    requires !stage.Ended? || stage.outcome.Cancelled?
    requires stage == Calling <==> id in BR.Next(config, BreakerOf(w, key), e).calls
    ensures Inv(config, Moved(BreakerMoves(config, w, key, e), id, stage))
  {
    var w' := Moved(BreakerMoves(config, w, key, e), id, stage);
    var before, after := BreakerOf(w, key), BR.Next(config, BreakerOf(w, key), e);
    MovesInShape(config, w, key, e, id, stage);
    hide LR.Inv, FatesOk, AdmissionsOk, TokensDiffer, Moved, BreakerMoves, MoveShape, BreakersOk, BreakerOf, BR.Inv, BR.Next;
    BreakerIsOk(config, w, key);
    BR.NextKeepsInv(config, before, e);
    forall i | i != id ensures i in after.calls <==> i in before.calls { OthersKeepAdmission(config, before, e, i); }
    MovedAdmissions(w, w', key, before, after, id, stage);
    MovedBreakers(config, w, w', key, after, id, stage);
    MovedFates(w, w', key, after, id, stage);
  }

  lemma MovesInShape(config: B.Config, w: World, key: string, e: BR.Event, id: nat, stage: Stage)
    requires id in w.calls && w.calls[id].key == key
    ensures MoveShape(w, Moved(BreakerMoves(config, w, key, e), id, stage), key,
                      BR.Next(config, BreakerOf(w, key), e), id, stage)
  {
    hide BR.Next, BreakerOf;
  }

  lemma BreakerIsOk(config: B.Config, w: World, key: string)
    requires BreakersOk(config, w) && BR.Sane(config)
    ensures BR.Inv(config, BreakerOf(w, key))
  {
  }

  lemma MovedBreakers(config: B.Config, w: World, w': World, key: string, after: BR.System, id: nat, stage: Stage)
    requires MoveShape(w, w', key, after, id, stage) && BreakersOk(config, w) && BR.Inv(config, after)
    ensures BreakersOk(config, w')
  {
    hide BR.Inv;
  }

  lemma MovedFates(w: World, w': World, key: string, after: BR.System, id: nat, stage: Stage)
    requires MoveShape(w, w', key, after, id, stage) && LR.Inv(w.ledger) && FatesOk(w) && TokensDiffer(w)
    requires !w.calls[id].stage.Ended? && (!stage.Ended? || stage.outcome.Cancelled?)
    ensures LR.Inv(w'.ledger) && FatesOk(w') && TokensDiffer(w')
  {
    hide LR.Inv, TokensDiffer;
    SameTokens(w, w');
    forall i | i in w'.calls ensures FateOk(w', w'.calls[i]) { assert FateOk(w, w.calls[i]); }
  }

  lemma MovedAdmissions(w: World, w': World, key: string, before: BR.System, after: BR.System, id: nat, stage: Stage)
    requires AdmissionsOk(w) && before == BreakerOf(w, key) && MoveShape(w, w', key, after, id, stage)
    requires forall i :: i != id ==> (i in after.calls <==> i in before.calls)
    requires stage == Calling <==> id in after.calls
    ensures AdmissionsOk(w')
  {
    assert forall k :: k != key ==> BreakerOf(w', k) == BreakerOf(w, k);
    assert BreakerOf(w', key) == after;
    forall i | i in w'.calls ensures AdmissionOk(w', i) {
      assert AdmissionOk(w, i);
    }
    forall k, i | k in w'.breakers && i in w'.breakers[k].calls ensures i in w'.calls && w'.calls[i].key == k {
      if k == key && i != id {
        assert i in before.calls;
        assert key in w.breakers && i in w.breakers[key].calls;
      }
    }
  }

  /** A call's own ending gives it the fate it asked for, unless its lease had been taken away. */
  lemma SettledFate(w: World, c: Guarded, outcome: Outcome, saved: bool)
    requires LR.Inv(w.ledger) && FateOk(w, c) && c.stage == Settling(outcome)
    ensures var ledger := LedgerAfter(w, c, outcome, saved);
            && LR.Inv(ledger) && ledger.granted == w.ledger.granted
            && FateOk(w.(ledger := ledger), c.(stage := Ended(outcome, saved)))
            && (forall t :: t in w.ledger.fates ==> t in ledger.fates && ledger.fates[t] == w.ledger.fates[t])
            && (forall t :: t in ledger.fates && t !in w.ledger.fates ==> t == c.token)
  {
    hide LR.Inv, LR.Next, LR.FateOf, EndingOf;
    var e := EndingOf(outcome);
    if saved && e.Some? {
      EndingIsSane(outcome);
      EndingGivesFate(w.ledger, c.token, e.value);
      LR.NextKeepsInv(w.ledger, LR.End(c.token, e.value));
    }
  }

  lemma EndingIsSane(outcome: Outcome)
    ensures var e := EndingOf(outcome); e.Some? && e.value.Charge? ==> e.value.cost >= 0.0
  {
    if outcome.Raised? && L.AllValid(outcome.attempts) { SumIsNonNegative(outcome.attempts); }
  }

  lemma SettledFates(w: World, w': World, id: nat, outcome: Outcome, saved: bool)
    requires LR.Inv(w.ledger) && FatesOk(w) && TokensDiffer(w) && id in w.calls && w.calls[id].stage == Settling(outcome)
    requires w'.calls == w.calls[id := w.calls[id].(stage := Ended(outcome, saved))]
    requires w'.ledger == LedgerAfter(w, w.calls[id], outcome, saved)
    ensures LR.Inv(w'.ledger) && FatesOk(w')
  {
    hide LR.Inv, LedgerAfter;
    assert FateOk(w, w.calls[id]);
    SettledFate(w, w.calls[id], outcome, saved);
    forall i | i in w'.calls ensures FateOk(w', w'.calls[i]) {
      assert FateOk(w, w.calls[i]);
      if i == id {
        FateFrame(w.(ledger := w'.ledger), w', w'.calls[id]);
      } else {
        assert w.calls[i].token != w.calls[id].token;
        FateFrame(w, w', w.calls[i]);
      }
    }
  }

  lemma SettlesInShape(w: World, id: nat, saved: bool)
    requires id in w.calls && w.calls[id].stage.Settling?
    ensures var w', outcome := DoSettle(w, id, saved), w.calls[id].stage.outcome;
            && w'.breakers == w.breakers && w'.ledger == LedgerAfter(w, w.calls[id], outcome, saved)
            && w'.calls == w.calls[id := w.calls[id].(stage := Ended(outcome, saved))]
            && w'.calls.Keys == w.calls.Keys
            && (forall i :: i in w.calls ==>
                  w'.calls[i].key == w.calls[i].key && w'.calls[i].token == w.calls[i].token
                  && (w'.calls[i].stage == Calling <==> w.calls[i].stage == Calling))
  {
    hide LedgerAfter;
  }

  lemma SettleKeepsInv(config: B.Config, w: World, id: nat, saved: bool)
    requires Inv(config, w) && id in w.calls && w.calls[id].stage.Settling?
    ensures Inv(config, DoSettle(w, id, saved))
  {
    var w' := DoSettle(w, id, saved);
    SettlesInShape(w, id, saved);
    hide LR.Inv, LedgerAfter, BreakersOk, FatesOk, TokensDiffer, AdmissionsOk, DoSettle;
    SameBreakers(config, w, w');
    SameTokens(w, w');
    SameAdmissions(w, w');
    SettledFates(w, w', id, w.calls[id].stage.outcome, saved);
  }

  lemma NextKeepsInv(config: B.Config, w: World, step: Step)
    requires BR.Sane(config) && SaneStep(step) && Inv(config, w)
    ensures Inv(config, Next(config, w, step))
  {
    hide LR.Next, LR.Inv, BR.Inv, FatesOk, TokensDiffer, BreakersOk, DoReserve, DoSettle;
    match step {
      case Reserve(id, key, ask) =>
        if id !in w.calls && ask.Ask? && LR.Fits(w.ledger, ask) { ReserveKeepsInv(config, w, id, key, ask); }
      case Elsewhere(action) =>
        if action.Ask? || Unowned(w, action.token) {
          LedgerStepKeepsInv(config, w, Next(config, w, step), action);
        }
      case Gate(id, now) =>
        if IsAt(w, id, Admitting) {
          assert AdmissionOk(w, id);
          BreakerStepKeepsInv(config, w, w.calls[id].key, BR.Call(id, now), id, Next(config, w, step).calls[id].stage);
        }
      case Reply(id, cost) =>
        if IsAt(w, id, Calling) {
          BreakerStepKeepsInv(config, w, w.calls[id].key, BR.Succeed(id), id, Settling(Replied(cost)));
        }
      case Raise(id, now, attempts) =>
        if IsAt(w, id, Calling) {
          BreakerStepKeepsInv(config, w, w.calls[id].key, BR.Fail(id, now), id, Settling(Raised(attempts)));
        }
      case Cancel(id, now) =>
        if IsAt(w, id, Calling) {
          BreakerStepKeepsInv(config, w, w.calls[id].key, BR.Cancel(id, now), id, Ended(Cancelled, true));
        }
      case Settle(id, saved) =>
        if id in w.calls && w.calls[id].stage.Settling? { SettleKeepsInv(config, w, id, saved); }
    }
  }

  lemma {:induction false} RunKeepsInv(config: B.Config, limit: real, steps: seq<Step>)
    requires BR.Sane(config) && forall i :: 0 <= i < |steps| ==> SaneStep(steps[i])
    ensures Inv(config, Run(config, limit, steps))
    ensures Run(config, limit, steps).ledger.limit == limit
  {
    if steps != [] {
      var before := Run(config, limit, steps[..|steps| - 1]);
      RunKeepsInv(config, limit, steps[..|steps| - 1]);
      NextKeepsInv(config, before, steps[|steps| - 1]);
      LimitStays(config, before, steps[|steps| - 1]);
    }
  }

  lemma LedgerLimitStays(s: LR.System, a: LR.Action)
    ensures LR.Next(s, a).limit == s.limit
  {
    hide L.Reserve, L.Finish, LR.Forget;
  }

  lemma LimitStays(config: B.Config, w: World, step: Step)
    ensures Next(config, w, step).ledger.limit == w.ledger.limit
  {
    forall a ensures LR.Next(w.ledger, a).limit == w.ledger.limit { LedgerLimitStays(w.ledger, a); }
    hide LR.Next, EndingOf, BR.Next;
  }

  // ---------- What a run can show ----------

  /**
   * A breaker refusal costs nothing: no bill of any day is its, and when the ledger could be reached
   * its lease is gone.
   */
  lemma RefusalCostsNothing(config: B.Config, limit: real, steps: seq<Step>, id: nat, day: int, i: nat)
    requires BR.Sane(config) && forall i :: 0 <= i < |steps| ==> SaneStep(steps[i])
    requires var w := Run(config, limit, steps);
             id in w.calls && w.calls[id].stage.Ended? && w.calls[id].stage.outcome == Refused
    ensures var w := Run(config, limit, steps);
            var token := w.calls[id].token;
            && (i < |LR.BillsOf(w.ledger, day)| ==> LR.BillsOf(w.ledger, day)[i].token != token)
            && (w.calls[id].stage.saved ==> !LR.CanSettle(w.ledger, token))
            && (token in w.ledger.fates ==> !w.ledger.fates[token].Charged? && !w.ledger.fates[token].DayExhausted?)
  {
    var w := Run(config, limit, steps);
    RunKeepsInv(config, limit, steps);
    var c := w.calls[id];
    assert FateOk(w, c);
    assert LR.TokenOk(w.ledger, c.token);
    assert day in w.ledger.bills ==> LR.BillsOk(w.ledger, day);
    hide Run, LR.Inv, Inv;
  }

  lemma RefusalReleases(config: B.Config, w: World, id: nat, saved: bool)
    requires IsAt(w, id, Settling(Refused))
    ensures Next(config, w, Settle(id, saved)).ledger
            == if saved then LR.Next(w.ledger, LR.End(w.calls[id].token, L.Release)) else w.ledger
  {
    hide LR.Next;
  }

  lemma ReleaseKeepsSpent(s: LR.System, token: string, day: int)
    requires LR.Inv(s) && token in s.granted
    ensures var s' := LR.Next(s, LR.End(token, L.Release));
            s'.days.Keys == s.days.Keys && (day in s.days ==> s'.days[day].spent == s.days[day].spent)
  {
    var own := s.granted[token];
    assert own in s.days ==> LR.DayOk(s, own);
    hide LR.Inv;
  }

  /** Settling a refusal, whenever it happens, changes no day's spending. */
  lemma ReleaseLeavesSpending(config: B.Config, limit: real, steps: seq<Step>, id: nat, saved: bool, day: int)
    requires BR.Sane(config) && forall i :: 0 <= i < |steps| ==> SaneStep(steps[i])
    requires IsAt(Run(config, limit, steps), id, Settling(Refused))
    ensures var w := Run(config, limit, steps);
            var w' := Next(config, w, Settle(id, saved));
            && w'.ledger.days.Keys == w.ledger.days.Keys
            && (day in w.ledger.days ==> w'.ledger.days[day].spent == w.ledger.days[day].spent)
  {
    var w := Run(config, limit, steps);
    RunKeepsInv(config, limit, steps);
    hide Run, LR.Inv, AdmissionsOk, BreakersOk, TokensDiffer, LR.Next, Next;
    assert FateOk(w, w.calls[id]);
    RefusalReleases(config, w, id, saved);
    hide *;
    ReleaseKeepsSpent(w.ledger, w.calls[id].token, day);
  }

  /**
   * A finished call that reached the provider is accounted for on its day: its reported cost is among the
   * day's bills, or the day is exhausted, or its lease is still there, or the day is no longer kept. Only
   * calls that reached the provider are ever billed, each exactly what it reported.
   */
  lemma EveryCallIsAccountedFor(config: B.Config, limit: real, steps: seq<Step>, id: nat)
    requires BR.Sane(config) && forall i :: 0 <= i < |steps| ==> SaneStep(steps[i])
    requires id in Run(config, limit, steps).calls
    ensures var w := Run(config, limit, steps);
            var c, s := w.calls[id], w.ledger;
            && c.token in s.granted
            && (var day := s.granted[c.token];
                && (c.stage.Ended? && !c.stage.outcome.Refused? && day in s.days ==>
                      || (c.token in s.fates && s.fates[c.token].Charged?)
                      || day in s.exhausted
                      || s.days[day].token == c.token)
                && (c.token in s.fates && s.fates[c.token].Charged? ==>
                      && c.stage.Ended? && (c.stage.outcome.Replied? || c.stage.outcome.Raised?)
                      && EndingOf(c.stage.outcome) == Some(L.Charge(s.fates[c.token].cost))
                      && LR.Bill(c.token, s.fates[c.token].cost) in LR.BillsOf(s, day))
                && (c.stage.Ended? && c.stage.saved && EndingOf(c.stage.outcome).Some? && day in s.days ==>
                      s.days[day].token != c.token))
  {
    RunKeepsInv(config, limit, steps);
    var w := Run(config, limit, steps);
    hide Run, LR.DaysOk, LR.AllBillsOk, LR.RecordsOk, AdmissionsOk, BreakersOk, TokensDiffer, FateOk, LR.TokenOk, EndingOf;
    AccountedFor(w, w.calls[id]);
  }

  /** What fate and row of one token say about its call. */
  lemma AccountedFor(w: World, c: Guarded)
    requires FateOk(w, c) && LR.TokenOk(w.ledger, c.token)
    ensures var s := w.ledger;
            var day := s.granted[c.token];
            && (c.stage.Ended? && !c.stage.outcome.Refused? && day in s.days ==>
                  || (c.token in s.fates && s.fates[c.token].Charged?)
                  || day in s.exhausted
                  || s.days[day].token == c.token)
            && (c.token in s.fates && s.fates[c.token].Charged? ==>
                  && c.stage.Ended? && (c.stage.outcome.Replied? || c.stage.outcome.Raised?)
                  && EndingOf(c.stage.outcome) == Some(L.Charge(s.fates[c.token].cost))
                  && LR.Bill(c.token, s.fates[c.token].cost) in LR.BillsOf(s, day))
            && (c.stage.Ended? && c.stage.saved && EndingOf(c.stage.outcome).Some? && day in s.days ==>
                  s.days[day].token != c.token)
  {
  }

  /** The first reservation that finds a left lease expired takes it away and exhausts the day. */
  lemma LeftLeaseExhaustsTheDay(config: B.Config, limit: real, steps: seq<Step>, id: nat, ask: LR.Action)
    requires BR.Sane(config) && forall i :: 0 <= i < |steps| ==> SaneStep(steps[i])
    requires var w := Run(config, limit, steps);
             && id in w.calls && w.calls[id].token in w.ledger.granted && w.calls[id].token !in w.ledger.fates
             && ask.Ask? && ask.token != "" && ask.token !in w.ledger.granted
             && (ask.telemetry.Some? ==> ask.telemetry.value >= 0.0)
             && ask.day == w.ledger.granted[w.calls[id].token]
             && ask.day in w.ledger.days && w.ledger.days[ask.day].expiry.Some?
             && w.ledger.days[ask.day].expiry.value.Passed(ask.now)
    ensures var w := Run(config, limit, steps);
            var token, s' := w.calls[id].token, Next(config, w, Elsewhere(ask)).ledger;
            && ask.day in s'.days && s'.days[ask.day] == L.Unleased(limit) && ask.day in s'.exhausted
            && token in s'.fates && s'.fates[token] == LR.Superseded && ask.token !in s'.granted
  {
    var w := Run(config, limit, steps);
    RunKeepsInv(config, limit, steps);
    hide Run, BreakersOk, FatesOk, AdmissionsOk, TokensDiffer, LR.Inv, LR.Next;
    LapsedIsTakenAway(w.ledger, w.calls[id].token, ask);
  }

  lemma LapsedIsTakenAway(s: LR.System, token: string, ask: LR.Action)
    requires LR.Inv(s) && token in s.granted && token !in s.fates
    requires ask.Ask? && ask.token != "" && ask.token !in s.granted && (ask.telemetry.Some? ==> ask.telemetry.value >= 0.0)
    requires ask.day == s.granted[token] && ask.day in s.days && s.days[ask.day].expiry.Some?
    requires s.days[ask.day].expiry.value.Passed(ask.now)
    ensures var s' := LR.Next(s, ask);
            && ask.day in s'.days && s'.days[ask.day] == L.Unleased(s.limit) && ask.day in s'.exhausted
            && token in s'.fates && s'.fates[token] == LR.Superseded && ask.token !in s'.granted
  {
    hide LR.DaysOk, LR.AllBillsOk, LR.DoAsk;
    assert LR.TokenOk(s, token) && s.floor <= ask.day;
    assert LR.Fits(s, ask) && LR.Expires(s, ask);
    hide LR.TokensOk, LR.RecordsOk, LR.TokenOk;
    LR.ExpiryTakesShape(s, ask);
  }

  // ---------- What is charged ----------

  predicate BadReceipt(attempts: seq<Option<real>>) {
    exists i :: 0 <= i < |attempts| && (attempts[i].None? || attempts[i].value < 0.0)
  }

  /** What the ledger may know of the end of a call: its cost, its receipts' costs, an exhausted day, or nothing. */
  predicate SettlesAs(outcome: Outcome, fate: LR.Fate) {
    match outcome
    case Refused => fate == LR.GivenBack
    case Replied(cost) =>
      if cost.Some? && cost.value >= 0.0 then fate == LR.Charged(cost.value) else fate == LR.DayExhausted
    case Raised(attempts) =>
      attempts != [] && fate == if BadReceipt(attempts) then LR.DayExhausted else LR.Charged(L.AddedUp(attempts))
    case Cancelled => false
  }

  lemma EndingSettles(outcome: Outcome)
    ensures var e := EndingOf(outcome);
            && (e.None? <==> outcome.Cancelled? || outcome == Raised([]))
            && (e.Some? ==> forall fate :: SettlesAs(outcome, fate) <==> fate == LR.FateOf(e.value))
  {
    if outcome.Raised? {
      L.SumAddsUp(outcome.attempts);
      assert BadReceipt(outcome.attempts) <==> !L.AllValid(outcome.attempts);
    }
    hide L.Sum, L.Values, L.AddedUp;
  }

  /**
   * What a call is charged, in every run: the cost of its reply, or the sum of the costs of its error's receipts; a missing
   * or negative cost and a bad receipt exhaust the day; a refusal is given back. Any other fate of its token is that its
   * lease was taken away, and a call that could settle has a fate.
   */
  lemma ChargedWhatItReported(config: B.Config, limit: real, steps: seq<Step>, id: nat)
    requires BR.Sane(config) && forall i :: 0 <= i < |steps| ==> SaneStep(steps[i])
    requires id in Run(config, limit, steps).calls
    ensures var w := Run(config, limit, steps);
            var c, fates := w.calls[id], w.ledger.fates;
            && (c.token in fates ==>
                  || fates[c.token].Superseded? || fates[c.token].Forgotten?
                  || (c.stage.Ended? && c.stage.saved && SettlesAs(c.stage.outcome, fates[c.token])))
            && (c.stage.Ended? && c.stage.saved && !c.stage.outcome.Cancelled? && c.stage.outcome != Raised([]) ==>
                  c.token in fates)
  {
    RunKeepsInv(config, limit, steps);
    var w := Run(config, limit, steps);
    var c := w.calls[id];
    hide Run, LR.Inv, AdmissionsOk, BreakersOk, TokensDiffer, EndingOf, SettlesAs, LR.FateOf;
    assert FateOk(w, c);
    if c.stage.Ended? { EndingSettles(c.stage.outcome); }
  }

  /** A day that a call exhausted stands at its limit for as long as it is kept. */
  lemma ExhaustedDayIsFull(config: B.Config, limit: real, steps: seq<Step>, id: nat)
    requires BR.Sane(config) && forall i :: 0 <= i < |steps| ==> SaneStep(steps[i])
    requires var w := Run(config, limit, steps);
             id in w.calls && w.calls[id].token in w.ledger.fates && w.ledger.fates[w.calls[id].token].DayExhausted?
    ensures var s := Run(config, limit, steps).ledger;
            var token := Run(config, limit, steps).calls[id].token;
            && token in s.granted
            && (s.granted[token] in s.days ==> s.days[s.granted[token]].spent == Some(limit))
  {
    RunKeepsInv(config, limit, steps);
    var w := Run(config, limit, steps);
    hide Run, AdmissionsOk, BreakersOk, TokensDiffer, LR.AllBillsOk, LR.RecordsOk;
    assert FateOk(w, w.calls[id]) && LR.TokenOk(w.ledger, w.calls[id].token);
    assert w.ledger.granted[w.calls[id].token] in w.ledger.days ==> LR.DayOk(w.ledger, w.ledger.granted[w.calls[id].token]);
  }

  /** Who moves one breaker: the calls of every other one, and the ledger, stand still. */
  lemma BreakerHears(config: B.Config, w: World, id: nat, e: BR.Event, stage: Stage)
    requires BR.Sane(config) && BR.SaneEvent(e) && Inv(config, w) && id in w.calls
    ensures var key := w.calls[id].key;
            var w' := Moved(BreakerMoves(config, w, key, e), id, stage);
            && w'.ledger == w.ledger && id in w'.calls && w'.calls[id] == w.calls[id].(stage := stage)
            && BR.View(BreakerOf(w', key)) == BR.SimpleNext(config, BR.View(BreakerOf(w, key)), e)
  {
    var key := w.calls[id].key;
    BreakerIsOk(config, w, key);
    hide BR.Next, BR.SimpleNext, BR.Inv, Inv, BR.View;
    BR.Refines(config, BreakerOf(w, key), e);
  }

  /** A reply is kept as it came for the settlement, and its breaker hears of a success. */
  lemma RepliesAreHeard(config: B.Config, w: World, id: nat, cost: Option<real>)
    requires BR.Sane(config) && Inv(config, w) && IsAt(w, id, Calling)
    ensures var key, w' := w.calls[id].key, Next(config, w, Reply(id, cost));
            && w'.ledger == w.ledger && IsAt(w', id, Settling(Replied(cost)))
            && BR.View(BreakerOf(w', key)) == BR.SimpleNext(config, BR.View(BreakerOf(w, key)), BR.Succeed(id))
  {
    BreakerHears(config, w, id, BR.Succeed(id), Settling(Replied(cost)));
    hide Moved, BreakerMoves, BreakerOf, BR.View, BR.SimpleNext, Inv;
  }

  /** An error keeps its receipts for the settlement, and its breaker hears of a failure. */
  lemma ErrorsAreHeard(config: B.Config, w: World, id: nat, now: real, attempts: seq<Option<real>>)
    requires BR.Sane(config) && Inv(config, w) && IsAt(w, id, Calling) && now >= 0.0
    ensures var key, w' := w.calls[id].key, Next(config, w, Raise(id, now, attempts));
            && w'.ledger == w.ledger && IsAt(w', id, Settling(Raised(attempts)))
            && BR.View(BreakerOf(w', key)) == BR.SimpleNext(config, BR.View(BreakerOf(w, key)), BR.Fail(id, now))
  {
    BreakerHears(config, w, id, BR.Fail(id, now), Settling(Raised(attempts)));
    hide Moved, BreakerMoves, BreakerOf, BR.View, BR.SimpleNext, Inv;
  }

  /** A cancelled call settles nothing, and its breaker hears of an abandoned call. */
  lemma CancellationsAreHeard(config: B.Config, w: World, id: nat, now: real)
    requires BR.Sane(config) && Inv(config, w) && IsAt(w, id, Calling) && now >= 0.0
    ensures var key, w' := w.calls[id].key, Next(config, w, Cancel(id, now));
            && w'.ledger == w.ledger && IsAt(w', id, Ended(Cancelled, true))
            && BR.View(BreakerOf(w', key)) == BR.SimpleNext(config, BR.View(BreakerOf(w, key)), BR.Cancel(id, now))
  {
    BreakerHears(config, w, id, BR.Cancel(id, now), Ended(Cancelled, true));
    hide Moved, BreakerMoves, BreakerOf, BR.View, BR.SimpleNext, Inv;
  }

  /** A reserved call is refused exactly while its breaker probes or waits for its deadline. */
  lemma GateAsksTheBreaker(config: B.Config, w: World, id: nat, now: real)
    requires BR.Sane(config) && Inv(config, w) && IsAt(w, id, Admitting) && now >= 0.0
    ensures var key, w' := w.calls[id].key, Next(config, w, Gate(id, now));
            var mode := BR.View(BreakerOf(w, key)).mode;
            && w'.ledger == w.ledger
            && IsAt(w', id, if mode.Probing? || (mode.Open? && mode.until > now) then Settling(Refused) else Calling)
            && BR.View(BreakerOf(w', key)) == BR.SimpleNext(config, BR.View(BreakerOf(w, key)), BR.Call(id, now))
  {
    BreakerIsOk(config, w, w.calls[id].key);
    RefusalsByMode(config, BreakerOf(w, w.calls[id].key), now);
    BreakerHears(config, w, id, BR.Call(id, now), Settling(Refused));
    BreakerHears(config, w, id, BR.Call(id, now), Calling);
    hide Moved, BreakerMoves, BreakerOf, BR.View, BR.SimpleNext, Inv, B.Refuses;
  }

  /** A breaker refuses while it probes and until its deadline. */
  lemma RefusalsByMode(config: B.Config, s: BR.System, now: real)
    requires BR.Inv(config, s) && now >= 0.0
    ensures var mode := BR.View(s).mode;
            B.Refuses(s.b, now) <==> mode.Probing? || (mode.Open? && mode.until > now)
  {
  }
}
