/**
 * One breaker under any number of outstanding calls whose outcomes arrive late, out of order or never.
 * The generation stamp implements a simpler machine that remembers which calls are live.
 */
module BreakerRuns {
  import opened Wrappers
  import opened Breaker

  predicate Sane(config: Config) { config.threshold >= 1 && config.cooldown > 0.0 }

  datatype Event =
    | Call(id: nat, now: real)
    | Succeed(id: nat)
    | Fail(id: nat, now: real)
    | Cancel(id: nat, now: real)

  predicate SaneEvent(e: Event) {
    match e
    case Succeed(_) => true
    case Call(_, now) => now >= 0.0
    case Fail(_, now) => now >= 0.0
    case Cancel(_, now) => now >= 0.0
  }

  /**
   * The breaker with its outstanding admissions. The last three fields only record history: probes
   * that closed it, probes that were abandoned, and current-generation failures since the last
   * current-generation success.
   */
  datatype System = System(
    b: Breaker, calls: map<nat, Admission>, closes: nat, abandons: nat, streak: nat)

  const KEY := ""

  const INITIAL := System(FRESH, map[], 0, 0, 0)

  predicate Current(s: System, id: nat) { id in s.calls && s.calls[id].generation == s.b.generation }

  function Next(config: Config, s: System, e: Event): System {
    match e
    case Call(id, now) =>
      if id in s.calls || Refuses(s.b, now) then s
      else s.(b := Admit(s.b, now),
              calls := s.calls[id := Admission(KEY, s.b.generation, s.b.openUntil != 0.0)])
    case Succeed(id) =>
      if id !in s.calls then s
      else
        var b := Succeeded(s.b, s.calls[id]);
        s.(b := b, calls := s.calls - {id},
           closes := s.closes + if b.generation != s.b.generation then 1 else 0,
           streak := if Current(s, id) then 0 else s.streak)
    case Fail(id, now) =>
      if id !in s.calls then s
      else
        var b := Failed(s.b, s.calls[id], config.threshold, now + config.cooldown);
        s.(b := b, calls := s.calls - {id},
           streak := if !Current(s, id) then s.streak
                     else if b.generation != s.b.generation then 0 else s.streak + 1)
    case Cancel(id, now) =>
      if id !in s.calls then s
      else
        var b := Abandoned(s.b, s.calls[id], now + config.Delay());
        s.(b := b, calls := s.calls - {id},
           abandons := s.abandons + if b.generation != s.b.generation then 1 else 0)
  }

  function Run(config: Config, s: System, events: seq<Event>): System {
    if events == [] then s
    else Next(config, Run(config, s, events[..|events| - 1]), events[|events| - 1])
  }

  // ---------- The simple machine ----------

  datatype Mode = Closed(failures: nat) | Open(until: real) | Probing

  /**
   * Of the open calls, those that were admitted and have not reported yet, only the live ones matter;
   * whenever the mode changes, none of them is live any more.
   */
  datatype Simple = Simple(mode: Mode, live: set<nat>, open: set<nat>)

  const AT_REST := Simple(Closed(0), {}, {})

  function SimpleNext(config: Config, m: Simple, e: Event): Simple {
    match e
    case Call(id, now) =>
      if id in m.open then m else
      (match m.mode
       case Closed(_) => m.(live := m.live + {id}, open := m.open + {id})
       case Open(until) => if until > now then m else Simple(Probing, {id}, m.open + {id})
       case Probing => m)
    case Succeed(id) =>
      if id !in m.live then m.(open := m.open - {id})
      else if m.mode.Probing? then Simple(Closed(0), {}, m.open - {id})
      else Simple(Closed(0), m.live - {id}, m.open - {id})
    case Fail(id, now) =>
      if id !in m.live then m.(open := m.open - {id})
      else if m.mode.Closed? && m.mode.failures + 1 < config.threshold
      then Simple(Closed(m.mode.failures + 1), m.live - {id}, m.open - {id})
      else Simple(Open(now + config.cooldown), {}, m.open - {id})
    case Cancel(id, now) =>
      if id !in m.live then m.(open := m.open - {id})
      else if m.mode.Probing? then Simple(Open(now + config.Delay()), {}, m.open - {id})
      else m.(live := m.live - {id}, open := m.open - {id})
  }

  function ModeOf(b: Breaker): Mode {
    if b.halfOpen then Probing else if b.openUntil != 0.0 then Open(b.openUntil) else Closed(b.failures)
  }

  function Live(s: System): set<nat> { set id | id in s.calls && s.calls[id].generation == s.b.generation }

  function View(s: System): Simple { Simple(ModeOf(s.b), Live(s), s.calls.Keys) }

  // ---------- The invariant ----------

  ghost predicate Inv(config: Config, s: System) {
    && s.b.openUntil >= 0.0
    && (forall id :: id in s.calls ==> s.calls[id].generation <= s.b.generation)
    && (forall id :: Current(s, id) ==> s.calls[id].probe == s.b.halfOpen)
    && (s.b.halfOpen ==> s.b.openUntil != 0.0
                         && (exists id :: Current(s, id))
                         && (forall i, j :: Current(s, i) && Current(s, j) ==> i == j))
    && (s.b.openUntil != 0.0 && !s.b.halfOpen ==> forall id :: !Current(s, id))
    && (s.b.openUntil == 0.0 ==> s.b.failures < config.threshold && s.b.failures == s.streak)
    && s.b.generation == s.b.trips + s.closes + s.abandons
  }

  lemma NextKeepsInv(config: Config, s: System, e: Event)
    requires Sane(config) && SaneEvent(e) && Inv(config, s)
    ensures Inv(config, Next(config, s, e))
  {
    var s' := Next(config, s, e);
    if s'.b.generation == s.b.generation {
      forall id | Current(s', id) && id in s.calls ensures Current(s, id) { }
    }
    if e.Call? && e.id !in s.calls && !Refuses(s.b, e.now) {
      assert Current(s', e.id);
    } else if !e.Call? && e.id in s.calls && s.b.halfOpen && s'.b.halfOpen {
      var id :| Current(s, id);
      assert Current(s', id);
    }
  }

  lemma {:induction false} RunKeepsInv(config: Config, events: seq<Event>)
    requires Sane(config) && forall i :: 0 <= i < |events| ==> SaneEvent(events[i])
    ensures Inv(config, Run(config, INITIAL, events))
  {
    if events != [] {
      RunKeepsInv(config, events[..|events| - 1]);
      NextKeepsInv(config, Run(config, INITIAL, events[..|events| - 1]), events[|events| - 1]);
    }
  }

  /** Calls that are not live report without effect, and the live ones are the current ones. */
  lemma RefinesLive(config: Config, s: System, e: Event)
    requires Sane(config) && SaneEvent(e) && Inv(config, s) && Inv(config, Next(config, s, e))
    ensures Live(Next(config, s, e)) == SimpleNext(config, View(s), e).live
  {
    var s' := Next(config, s, e);
    assert forall id :: id in Live(s) <==> Current(s, id);
    assert forall id :: id in Live(s') <==> Current(s', id);
  }

  lemma RefinesMode(config: Config, s: System, e: Event)
    requires Sane(config) && SaneEvent(e) && Inv(config, s) && Inv(config, Next(config, s, e))
    ensures ModeOf(Next(config, s, e).b) == SimpleNext(config, View(s), e).mode
    ensures Next(config, s, e).calls.Keys == SimpleNext(config, View(s), e).open
  {
    assert e.id in Live(s) <==> Current(s, e.id);
  }

  /** Refinement: the stamped breaker moves exactly as the machine that remembers its live calls. */
  lemma Refines(config: Config, s: System, e: Event)
    requires Sane(config) && SaneEvent(e) && Inv(config, s)
    ensures View(Next(config, s, e)) == SimpleNext(config, View(s), e)
  {
    hide Next, SimpleNext, Inv, Live, ModeOf, Sane, SaneEvent;
    NextKeepsInv(config, s, e);
    RefinesLive(config, s, e);
    RefinesMode(config, s, e);
  }

  function SimpleRun(config: Config, events: seq<Event>): Simple {
    if events == [] then AT_REST
    else SimpleNext(config, SimpleRun(config, events[..|events| - 1]), events[|events| - 1])
  }

  /** Every run of the breaker is, event by event, a run of the simple machine. */
  lemma {:induction false} RunRefines(config: Config, events: seq<Event>)
    requires Sane(config) && forall i :: 0 <= i < |events| ==> SaneEvent(events[i])
    ensures View(Run(config, INITIAL, events)) == SimpleRun(config, events)
  {
    if events == [] {
      assert Live(INITIAL) == {};
    } else {
      var before := events[..|events| - 1];
      RunRefines(config, before);
      RunKeepsInv(config, before);
      Refines(config, Run(config, INITIAL, before), events[|events| - 1]);
    }
  }

  // ---------- What a run can show ----------

  predicate CurrentProbe(s: System, id: nat) { Current(s, id) && s.calls[id].probe }

  /**
   * In every reachable state: half-open means exactly one outstanding current probe; an open deadline
   * excludes outstanding current calls other than that probe; generations count trips, probe closes
   * and probe abandons; and while closed the failure count is the streak, below the threshold.
   */
  lemma History(config: Config, events: seq<Event>)
    requires Sane(config) && forall i :: 0 <= i < |events| ==> SaneEvent(events[i])
    ensures var s := Run(config, INITIAL, events);
            && (s.b.halfOpen <==> exists id :: CurrentProbe(s, id))
            && (forall i, j :: CurrentProbe(s, i) && CurrentProbe(s, j) ==> i == j)
            && (s.b.openUntil != 0.0 ==> forall id :: Current(s, id) ==> s.calls[id].probe)
            && s.b.generation == s.b.trips + s.closes + s.abandons
            && (s.b.openUntil == 0.0 ==> s.b.failures == s.streak < config.threshold)
  {
    var s := Run(config, INITIAL, events);
    RunKeepsInv(config, events);
    if s.b.halfOpen {
      var id :| Current(s, id);
      assert CurrentProbe(s, id);
    }
  }

  /** Generations and trips only grow, and an admission once given is never altered. */
  lemma {:induction false} RunGrows(config: Config, s: System, more: seq<Event>)
    ensures var s' := Run(config, s, more);
            && s.b.generation <= s'.b.generation && s.b.trips <= s'.b.trips
            && (s.b.trips < s'.b.trips ==> s.b.generation < s'.b.generation)
  {
    if more != [] {
      RunGrows(config, s, more[..|more| - 1]);
    }
  }

  /** Whatever a call admitted before a trip reports afterwards, the breaker does not move. */
  lemma StaleOutcomesAreIgnored(config: Config, events: seq<Event>, more: seq<Event>, a: Admission, now: real)
    requires Sane(config) && forall i :: 0 <= i < |events| ==> SaneEvent(events[i])
    requires var s := Run(config, INITIAL, events);
             a in s.calls.Values && s.b.trips < Run(config, s, more).b.trips
    ensures var b := Run(config, Run(config, INITIAL, events), more).b;
            && Succeeded(b, a) == b && Failed(b, a, config.threshold, now + config.cooldown) == b
            && Abandoned(b, a, now + config.Delay()) == b
  {
    var s := Run(config, INITIAL, events);
    RunKeepsInv(config, events);
    RunGrows(config, s, more);
    var id :| id in s.calls && s.calls[id] == a;
  }

  predicate AllBefore(events: seq<Event>, until: real) {
    forall i :: 0 <= i < |events| ==> events[i].Call? ==> events[i].now < until
  }

  /** While the deadline of an open breaker lies ahead, nothing is admitted and nothing moves it. */
  lemma {:induction false} ClosedForBusiness(config: Config, s: System, more: seq<Event>, until: real)
    requires s.b.openUntil == until && !s.b.halfOpen && until > 0.0
    requires forall id :: id in s.calls ==> s.calls[id].generation < s.b.generation
    requires AllBefore(more, until)
    ensures var s' := Run(config, s, more);
            && s'.b == s.b && s'.calls.Keys <= s.calls.Keys
            && forall id :: id in s'.calls ==> s'.calls[id] == s.calls[id]
  {
    if more != [] {
      ClosedForBusiness(config, s, more[..|more| - 1], until);
    }
  }

  /** After a probe is abandoned no call at all is admitted before the full delay has passed. */
  lemma AbandonedProbeFences(config: Config, events: seq<Event>, id: nat, t: real, more: seq<Event>)
    requires Sane(config) && t >= 0.0 && forall i :: 0 <= i < |events| ==> SaneEvent(events[i])
    requires CurrentProbe(Run(config, INITIAL, events), id)
    requires AllBefore(more, t + config.Delay())
    ensures var s := Next(config, Run(config, INITIAL, events), Cancel(id, t));
            var s' := Run(config, s, more);
            && s.b.openUntil == t + config.Delay() >= t + config.deadline
            && s'.b == s.b && s'.calls.Keys <= s.calls.Keys
  {
    var before := Run(config, INITIAL, events);
    RunKeepsInv(config, events);
    ClosedForBusiness(config, Next(config, before, Cancel(id, t)), more, t + config.Delay());
  }
}
