/**
 * The circuit breaker of one provider plane: a counter, a deadline, a half-open flag and a generation
 * stamp that decides which outcomes still matter.
 */
module Breaker {
  import opened Wrappers

  /** openUntil is 0 while the breaker is closed; clock readings are positive. */
  datatype Breaker = Breaker(
    failures: nat, trips: nat, openUntil: real, halfOpen: bool, generation: nat)

  const FRESH := Breaker(0, 0, 0.0, false, 0)

  datatype Admission = Admission(key: string, generation: nat, probe: bool)

  /** delay is the wait after an abandoned probe: the cooldown or the provider deadline if longer. */
  datatype Config = Config(threshold: nat, cooldown: real, deadline: real) {
    function Delay(): real { MaxReal(cooldown, deadline) }
  }

  // ---------- The transitions ----------

  predicate Refuses(b: Breaker, now: real) { b.halfOpen || b.openUntil > now }

  function Admit(b: Breaker, now: real): Breaker {
    if !Refuses(b, now) && b.openUntil != 0.0 then b.(halfOpen := true) else b
  }

  function Abandoned(b: Breaker, a: Admission, until: real): Breaker {
    if a.probe && b.generation == a.generation && b.halfOpen
    then b.(halfOpen := false, openUntil := until, generation := a.generation + 1)
    else b
  }

  function Succeeded(b: Breaker, a: Admission): Breaker {
    if b.generation != a.generation then b
    else if a.probe then
      if !b.halfOpen || b.openUntil == 0.0 then b
      else b.(failures := 0, openUntil := 0.0, halfOpen := false, generation := a.generation + 1)
    else if b.halfOpen || b.openUntil != 0.0 then b
    else b.(failures := 0)
  }

  function Failed(b: Breaker, a: Admission, threshold: nat, until: real): Breaker {
    if b.generation != a.generation then b
    else if a.probe then
      if !b.halfOpen || b.openUntil == 0.0 then b
      else Breaker(b.failures + 1, b.trips + 1, until, false, a.generation + 1)
    else if b.halfOpen || b.openUntil != 0.0 then b
    else if b.failures + 1 >= threshold
    then Breaker(b.failures + 1, b.trips + 1, until, false, a.generation + 1)
    else b.(failures := b.failures + 1)
  }

  /** Whether an outcome still counts: of the current generation, and of a probe exactly while one is out. */
  predicate Counts(b: Breaker, a: Admission) {
    b.generation == a.generation && (if a.probe then b.halfOpen && b.openUntil != 0.0 else !b.halfOpen && b.openUntil == 0.0)
  }

  /** A failure that counts is counted, and trips the breaker if it is a probe's or the threshold is reached. */
  lemma FailureCounts(b: Breaker, a: Admission, threshold: nat, until: real)
    ensures var after := Failed(b, a, threshold, until);
            var trips := Counts(b, a) && (a.probe || after.failures >= threshold);
            && after.failures == b.failures + (if Counts(b, a) then 1 else 0)
            && after.trips == b.trips + (if trips then 1 else 0)
            && after.generation == b.generation + (if trips then 1 else 0)
            && after.openUntil == (if trips then until else b.openUntil)
            && (after.halfOpen <==> b.halfOpen && !trips)
  {
  }

  /** A success that counts clears the failures; a probe's also closes the breaker under a new generation. */
  lemma SuccessCounts(b: Breaker, a: Admission)
    ensures var after := Succeeded(b, a);
            var closes := Counts(b, a) && a.probe;
            && after.failures == (if Counts(b, a) then 0 else b.failures)
            && after.trips == b.trips
            && after.generation == b.generation + (if closes then 1 else 0)
            && after.openUntil == (if closes then 0.0 else b.openUntil)
            && (after.halfOpen <==> b.halfOpen && !closes)
  {
  }

  /** An abandoned probe leaves every count alone and waits for the longer of the cooldown and the deadline. */
  lemma AbandonmentFences(b: Breaker, a: Admission, config: Config, now: real)
    ensures var after := Abandoned(b, a, now + config.Delay());
            var fences := b.generation == a.generation && a.probe && b.halfOpen;
            && after.failures == b.failures && after.trips == b.trips
            && after.generation == b.generation + (if fences then 1 else 0)
            && (after.halfOpen <==> b.halfOpen && !fences)
            && (!fences ==> after.openUntil == b.openUntil)
            && (fences && config.cooldown >= config.deadline ==> after.openUntil == now + config.cooldown)
            && (fences && config.cooldown <= config.deadline ==> after.openUntil == now + config.deadline)
  {
  }

  function StateOf(states: map<string, Breaker>, key: string): Breaker {
    if key in states then states[key] else FRESH
  }

  /** The table of breakers, one per plane, credential and model. */
  class Breakers {
    const config: Config
    var states: map<string, Breaker>

    constructor (config: Config)
      ensures this.config == config && states == map[]
    {
      this.config, states := config, map[];
    }

    /** Admits a closed call, or claims the one half-open probe; None stands for a refusal. */
    method BeforeCall(key: string, now: real) returns (admission: Option<Admission>)
      modifies this
      ensures states == old(states)[key := Admit(StateOf(old(states), key), now)]
      ensures admission.None? <==> Refuses(StateOf(old(states), key), now)
      ensures admission.Some? ==>
                var b := StateOf(old(states), key);
                admission.value == Admission(key, b.generation, b.openUntil != 0.0)
    {
      if key !in states { states := states[key := FRESH]; }
      var b := states[key];
      if b.halfOpen || b.openUntil > now { return None; }
      if b.openUntil != 0.0 {
        states := states[key := b.(halfOpen := true)];
        return Some(Admission(key, b.generation, true));
      }
      return Some(Admission(key, b.generation, false));
    }

    method AbandonProbe(a: Admission, now: real)
      modifies this
      ensures states == if a.key in old(states)
                        then old(states)[a.key := Abandoned(old(states)[a.key], a, now + config.Delay())]
                        else old(states)
    {
      if !a.probe || a.key !in states { return; }
      var b := states[a.key];
      if b.generation != a.generation || !b.halfOpen { return; }
      b := b.(halfOpen := false);
      b := b.(openUntil := now + config.Delay());
      b := b.(generation := a.generation + 1);
      states := states[a.key := b];
    }

    method Success(a: Admission)
      modifies this
      ensures states == if a.key in old(states)
                        then old(states)[a.key := Succeeded(old(states)[a.key], a)] else old(states)
    {
      if a.key !in states { return; }
      var b := states[a.key];
      if b.generation != a.generation { return; }
      if a.probe {
        if !b.halfOpen || b.openUntil == 0.0 { return; }
        b := b.(failures := 0, openUntil := 0.0, halfOpen := false, generation := a.generation + 1);
      } else {
        if b.halfOpen || b.openUntil != 0.0 { return; }
        b := b.(failures := 0);
      }
      states := states[a.key := b];
    }

    method Failure(a: Admission, now: real)
      modifies this
      ensures states == if a.key in old(states)
                        then old(states)[a.key := Failed(old(states)[a.key], a, config.threshold,
                                                         now + config.cooldown)]
                        else old(states)
    {
      if a.key !in states { return; }
      var b := states[a.key];
      if b.generation != a.generation { return; }
      if a.probe {
        if !b.halfOpen || b.openUntil == 0.0 { return; }
        b := b.(failures := b.failures + 1, trips := b.trips + 1);
        b := b.(openUntil := now + config.cooldown, halfOpen := false, generation := a.generation + 1);
      } else {
        if b.halfOpen || b.openUntil != 0.0 { return; }
        b := b.(failures := b.failures + 1);
        if b.failures >= config.threshold {
          b := b.(trips := b.trips + 1);
          b := b.(openUntil := now + config.cooldown, halfOpen := false, generation := a.generation + 1);
        }
      }
      states := states[a.key := b];
    }
  }
}
