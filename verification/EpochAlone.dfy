/**
 * A seal call that nobody disturbs, from its first step to its reply: what it leaves in the row, the artifacts and the job,
 * and what it tells its caller.
 */
module EpochAlone {
  import opened Wrappers
  import opened Values
  import opened MissionStore
  import opened Epoch
  import opened EpochSafety
  import opened EpochCalls
  import BillingLedger

  /** Everything a call leaves to the world around it: the verdict, whether to give up, whether the job is lost, the time. */
  datatype Plan = Plan(passes: bool, givesUp: bool, jobLost: bool, now: int)

  function Chosen(pc: Pc, plan: Plan): bool {
    match pc
    case Checking => plan.passes
    case Committing(_, _) => plan.givesUp
    case SavingJob(_) => plan.jobLost
    case _ => false
  }

  /** The n next steps of one call. */
  function Alone(world: World, s: State, id: nat, plan: Plan, n: nat): State
    decreases n
  {
    if n == 0 || id !in s.workers then s
    else Alone(world, Next(world, s, Step(id, Chosen(s.workers[id].pc, plan), plan.now)), id, plan, n - 1)
  }

  function Once(world: World, s: State, id: nat, plan: Plan): State
    requires id in s.workers
  {
    StepWorker(world, s, id, s.workers[id], Chosen(s.workers[id].pc, plan), plan.now)
  }

  lemma OneMore(world: World, s: State, id: nat, plan: Plan, n: nat)
    requires id in s.workers && n > 0
    ensures Alone(world, s, id, plan, n) == Alone(world, Once(world, s, id, plan), id, plan, n - 1)
  {
    StepIs(world, s, id, Chosen(s.workers[id].pc, plan), plan.now);
    hide Next, StepWorker, Chosen;
  }

  lemma DoneRests(world: World, s: State, id: nat, plan: Plan)
    requires id in s.workers && s.workers[id].pc.Done?
    ensures Once(world, s, id, plan) == s
  {
  }

  lemma {:induction false} DoneStays(world: World, s: State, id: nat, plan: Plan, n: nat)
    requires id in s.workers && s.workers[id].pc.Done?
    ensures Alone(world, s, id, plan, n) == s
  {
    hide Once, Next;
    if n > 0 {
      OneMore(world, s, id, plan, n);
      DoneRests(world, s, id, plan);
      DoneStays(world, s, id, plan, n - 1);
    }
  }

  /** One step of the call leads from one state to another. */
  predicate Leads(world: World, id: nat, plan: Plan, s: State, s': State) {
    id in s.workers && id in s'.workers && Once(world, s, id, plan) == s'
  }

  lemma LeadsOn(world: World, id: nat, plan: Plan, s: State, s': State, n: nat)
    requires Leads(world, id, plan, s, s') && n > 0
    ensures Alone(world, s, id, plan, n) == Alone(world, s', id, plan, n - 1)
  {
    hide Once, Alone;
    OneMore(world, s, id, plan, n);
  }

  lemma EndsHere(world: World, t: State, id: nat, w: Worker, reply: Payload, plan: Plan, n: nat)
    ensures var s := At(t, id, w, Done(reply)); Alone(world, s, id, plan, n) == s
  {
    hide Alone;
    DoneStays(world, At(t, id, w, Done(reply)), id, plan, n);
  }

  // ---------- Up to the verdict ----------

  predicate Owns(s: State, w: Worker) {
    w.generation == s.row.generation && s.row.token != "" && w.token == s.row.token && s.row.status in {Running, Verifying}
  }

  /** The call may begin: the row is active and the call owns its lease, or has no token of its own. */
  predicate MayBegin(s: State, id: nat, w: Worker) {
    && id in s.workers && s.workers[id] == w && w.pc == Loading && s.row.status in {Running, Verifying}
    && w.generation == s.row.generation && s.row.token != "" && (w.token == "" || w.token == s.row.token)
  }

  function Renewed(s: State, w: Worker, now: int): State { s.(row := s.row.(expires := Some(now + w.ttl))) }

  function Frozen(world: World, s: State, w: Worker): State {
    var digest := world.digest(world.project(w.text));
    s.(artifacts := if digest in s.artifacts then s.artifacts
                    else s.artifacts[digest := world.redact(world.project(w.text))])
  }

  function Bound(s: State, w: Worker): State { s.(row := s.row.(envelope := MaxInt(s.row.envelope, w.envelope))) }

  lemma LoadsOwn(world: World, s: State, id: nat, w: Worker, plan: Plan)
    requires MayBegin(s, id, w)
    ensures Leads(world, id, plan, s, At(s, id, w.(token := s.row.token), Heartbeating))
    ensures Owns(s, w.(token := s.row.token))
  {
  }

  lemma BeatsOwn(world: World, s: State, id: nat, w: Worker, plan: Plan)
    requires Owns(s, w)
    ensures Leads(world, id, plan, At(s, id, w, Heartbeating), At(Renewed(s, w, plan.now), id, w, Freezing))
    ensures Owns(Renewed(s, w, plan.now), w)
  {
    hide Continue;
  }

  lemma FreezesOwn(world: World, s: State, id: nat, w: Worker, plan: Plan)
    requires Owns(s, w)
    ensures Leads(world, id, plan, At(s, id, w, Freezing), At(Frozen(world, s, w), id, w, Refreshing))
    ensures Owns(Frozen(world, s, w), w)
  {
  }

  lemma RefreshesOwn(world: World, s: State, id: nat, w: Worker, plan: Plan)
    requires Owns(s, w)
    ensures Leads(world, id, plan, At(s, id, w, Refreshing), At(s, id, w, Binding(s.row)))
  {
    hide Continue;
  }

  lemma BindsOwn(world: World, s: State, id: nat, w: Worker, plan: Plan)
    requires Owns(s, w)
    ensures Leads(world, id, plan, At(s, id, w, Binding(s.row)), At(Bound(s, w), id, w, Advancing(s.row)))
    ensures Owns(Bound(s, w), w)
  {
  }

  /** The state in which the call advances the mission, and the row it saw before. */
  function Opened(world: World, s: State, w: Worker, now: int): State { Frozen(world, Renewed(s, w, now), w) }

  /** Five steps to the point where the mission is advanced. */
  lemma Opens(world: World, s: State, id: nat, w: Worker, plan: Plan, n: nat)
    requires MayBegin(s, id, w) && n >= 5
    ensures var own := w.(token := s.row.token);
            var ready := Opened(world, s, own, plan.now);
            && Owns(ready, own) && Owns(Bound(ready, own), own)
            && Alone(world, s, id, plan, n)
               == Alone(world, At(Bound(ready, own), id, own, Advancing(ready.row)), id, plan, n - 5)
  {
    var own := w.(token := s.row.token);
    var renewed, ready := Renewed(s, own, plan.now), Opened(world, s, own, plan.now);
    assert ready == Frozen(world, renewed, own);
    hide *;
    LoadsOwn(world, s, id, w, plan);
    BeatsOwn(world, s, id, own, plan);
    FreezesOwn(world, renewed, id, own, plan);
    RefreshesOwn(world, ready, id, own, plan);
    BindsOwn(world, ready, id, own, plan);
    LeadsOn(world, id, plan, s, At(s, id, own, Heartbeating), n);
    LeadsOn(world, id, plan, At(s, id, own, Heartbeating), At(renewed, id, own, Freezing), n - 1);
    LeadsOn(world, id, plan, At(renewed, id, own, Freezing), At(ready, id, own, Refreshing), n - 2);
    LeadsOn(world, id, plan, At(ready, id, own, Refreshing), At(ready, id, own, Binding(ready.row)), n - 3);
    LeadsOn(world, id, plan, At(ready, id, own, Binding(ready.row)),
            At(Bound(ready, own), id, own, Advancing(ready.row)), n - 4);
  }

  // ---------- The verdict ----------

  function Delivered(c: Checkpoint, w: Worker): Checkpoint {
    c.(billing := BillingLedger.Deliver(c.billing, BillingLedger.Delivery(w.usage, w.generation)))
  }

  /** The mission taken to verification: a running one is advanced and billed, one under verification taken over. */
  function Taken(s: State, w: Worker): State {
    if s.row.status != Running then s
    else Land(s.(row := s.row.(status := Verifying, version := s.row.version + 1,
                               checkpoint := Delivered(s.row.checkpoint, w)),
                 writes := s.writes + [Write(false, Verifying)]), w)
  }

  /** The row was read before the envelope was bound, and has not changed otherwise. */
  predicate Read(s: State, seen: Row) { seen == s.row.(envelope := seen.envelope) }

  lemma AdvancesOwn(world: World, s: State, id: nat, w: Worker, seen: Row, plan: Plan)
    requires Owns(s, w) && Read(s, seen)
    ensures Leads(world, id, plan, At(s, id, w, Advancing(seen)),
                  At(Taken(s, w), id, w, if s.row.status == Running then Advanced(true) else Checking))
    ensures Owns(Taken(s, w), w) && Taken(s, w).row.status == Verifying
  {
    LegalMoves();
    CasIsFenced(s.row, Expect(Running, seen.version, w.generation, Some(w.token)), Verifying, false,
                Update(None, Some(BilledFrom(w, seen))), false);
    hide Legal, BillingLedger.Deliver, Terminal;
  }

  lemma ChecksOwn(world: World, s: State, id: nat, w: Worker, plan: Plan)
    ensures Leads(world, id, plan, At(s, id, w, Advanced(true)), At(s, id, w, Checking))
    ensures Leads(world, id, plan, At(s, id, w, Checking), At(s, id, w, Reloading(plan.passes)))
  {
    hide Continue;
  }

  lemma ReloadsOwn(world: World, s: State, id: nat, w: Worker, plan: Plan)
    requires Owns(s, w)
    ensures Leads(world, id, plan, At(s, id, w, Reloading(plan.passes)), At(s, id, w, Committing(s.row, plan.passes)))
  {
    hide Continue;
  }

  lemma Judges(world: World, s: State, id: nat, w: Worker, seen: Row, plan: Plan, n: nat)
    requires Owns(s, w) && Read(s, seen) && n >= 4
    ensures var t := Taken(s, w);
            && Owns(t, w) && t.row.status == Verifying
            && Alone(world, At(s, id, w, Advancing(seen)), id, plan, n)
               == Alone(world, At(t, id, w, Committing(t.row, plan.passes)), id, plan,
                        if s.row.status == Running then n - 4 else n - 3)
  {
    hide *;
    var t := Taken(s, w);
    AdvancesOwn(world, s, id, w, seen, plan);
    ChecksOwn(world, t, id, w, plan);
    ReloadsOwn(world, t, id, w, plan);
    var m := if s.row.status == Running then n - 1 else n;
    if s.row.status == Running {
      LeadsOn(world, id, plan, At(s, id, w, Advancing(seen)), At(t, id, w, Advanced(true)), n);
      LeadsOn(world, id, plan, At(t, id, w, Advanced(true)), At(t, id, w, Checking), n - 1);
    } else {
      LeadsOn(world, id, plan, At(s, id, w, Advancing(seen)), At(t, id, w, Checking), n);
    }
    LeadsOn(world, id, plan, At(t, id, w, Checking), At(t, id, w, Reloading(plan.passes)), m - 1);
    LeadsOn(world, id, plan, At(t, id, w, Reloading(plan.passes)), At(t, id, w, Committing(t.row, plan.passes)), m - 2);
  }

  // ---------- The end ----------

  function Ends(plan: Plan): Status { if plan.passes then Complete else if plan.givesUp then Failed else WaitingEvent }

  function WordFor(plan: Plan): Word {
    if plan.passes then SaysComplete else if plan.givesUp then SaysError else SaysContinue
  }

  /** What an undisturbed call tells its caller. */
  function Reply(world: World, w: Worker, plan: Plan): Payload {
    Payload(WordFor(plan), world.jobId, world.acceptanceHash, Some(Ends(plan)), if plan.passes then w.text else "")
  }

  /** The closing write of an undisturbed call. */
  function Closed(world: World, s: State, id: nat, w: Worker, plan: Plan): State {
    var row := s.row.(status := Ends(plan), version := s.row.version + 1, generation := s.row.generation + 1, token := "",
                      expires := None, verifyFailures := s.row.verifyFailures + (if plan.passes then 0 else 1),
                      checkpoint := Delivered(s.row.checkpoint, w).(candidateHash := world.candidateHash(w.text),
                                                                    projectionHash := world.digest(world.project(w.text))));
    Land(s.(row := row, winner := if plan.passes then Some(Winner(id, w.text)) else s.winner,
            terminals := s.terminals + (if Ends(plan) == WaitingEvent then 0 else 1),
            writes := s.writes + [Write(plan.passes, Ends(plan))]), w)
  }

  function Saved(world: World, s: State, w: Worker, plan: Plan): State {
    if Ends(plan) == WaitingEvent || plan.jobLost then s
    else s.(job := Some(Job(WordFor(plan), Some(Reply(world, w, plan).(text := world.jobText(Reply(world, w, plan).text))))))
  }

  lemma CompletesOwn(world: World, s: State, id: nat, w: Worker, plan: Plan)
    requires Owns(s, w) && s.row.status == Verifying && plan.passes
    ensures Leads(world, id, plan, At(s, id, w, Committing(s.row, true)),
                  At(Closed(world, s, id, w, plan), id, w, SavingJob(Reply(world, w, plan))))
  {
    LegalMoves();
    CasIsFenced(s.row, Owner(w, Verifying, s.row), Complete, true, Sealed(world, w, s.row), false);
    hide Legal, BillingLedger.Deliver, Continue;
  }

  lemma CommitsOwn(world: World, s: State, id: nat, w: Worker, plan: Plan)
    requires Owns(s, w) && s.row.status == Verifying
    ensures Leads(world, id, plan, At(s, id, w, Committing(s.row, plan.passes)),
                  if plan.passes then At(Closed(world, s, id, w, plan), id, w, SavingJob(Reply(world, w, plan)))
                  else At(s, id, w, if plan.givesUp then Failing(s.row, false) else Waiting(s.row, false)))
  {
    hide Closed, Reply, CompareAndSet, Sealed, Outcome;
    if plan.passes { CompletesOwn(world, s, id, w, plan); }
  }

  lemma FailsOwn(world: World, s: State, id: nat, w: Worker, plan: Plan)
    requires Owns(s, w) && s.row.status == Verifying && !plan.passes && plan.givesUp
    ensures Leads(world, id, plan, At(s, id, w, Failing(s.row, false)),
                  At(Closed(world, s, id, w, plan), id, w, SavingJob(Reply(world, w, plan))))
  {
    LegalMoves();
    CasIsFenced(s.row, Owner(w, Verifying, s.row), Failed, true, Sealed(world, w, s.row), true);
    hide Legal, BillingLedger.Deliver;
  }

  lemma WaitsOwn(world: World, s: State, id: nat, w: Worker, plan: Plan)
    requires Owns(s, w) && s.row.status == Verifying && !plan.passes && !plan.givesUp
    ensures Leads(world, id, plan, At(s, id, w, Waiting(s.row, false)),
                  At(Closed(world, s, id, w, plan), id, w, Rested(true)))
  {
    LegalMoves();
    CasIsFenced(s.row, Owner(w, Verifying, s.row), WaitingEvent, true, Sealed(world, w, s.row), true);
    hide Legal, BillingLedger.Deliver;
  }

  lemma SavesOwn(world: World, s: State, id: nat, w: Worker, plan: Plan)
    requires Ends(plan) != WaitingEvent
    ensures Leads(world, id, plan, At(s, id, w, SavingJob(Reply(world, w, plan))),
                  At(Saved(world, s, w, plan), id, w, Done(Reply(world, w, plan))))
  {
  }

  lemma RestsOwn(world: World, s: State, id: nat, w: Worker, plan: Plan)
    requires Ends(plan) == WaitingEvent == s.row.status
    ensures Leads(world, id, plan, At(s, id, w, Rested(true)),
                  At(Saved(world, s, w, plan), id, w, Done(Reply(world, w, plan))))
  {
  }

  lemma EndsAsPlanned(world: World, s: State, id: nat, w: Worker, plan: Plan)
    ensures Closed(world, s, id, w, plan).row.status == Ends(plan)
    ensures plan.passes ==> Ends(plan) == Complete
    ensures !plan.passes && plan.givesUp ==> Ends(plan) == Failed
    ensures !plan.passes && !plan.givesUp ==> Ends(plan) == WaitingEvent
  {
    hide BillingLedger.Deliver;
  }

  /** From the commit to the reply in two steps or three. */
  lemma Finishes(world: World, s: State, id: nat, w: Worker, plan: Plan, n: nat)
    requires Owns(s, w) && s.row.status == Verifying && n >= 3
    ensures Alone(world, At(s, id, w, Committing(s.row, plan.passes)), id, plan, n)
         == At(Saved(world, Closed(world, s, id, w, plan), w, plan), id, w, Done(Reply(world, w, plan)))
  {
    hide *;
    var t := Closed(world, s, id, w, plan);
    var commits, told := At(s, id, w, Committing(s.row, plan.passes)), At(t, id, w, SavingJob(Reply(world, w, plan)));
    var failing, waiting := At(s, id, w, Failing(s.row, false)), At(s, id, w, Waiting(s.row, false));
    var rested, done := At(t, id, w, Rested(true)), At(Saved(world, t, w, plan), id, w, Done(Reply(world, w, plan)));
    EndsAsPlanned(world, s, id, w, plan);
    CommitsOwn(world, s, id, w, plan);
    if plan.passes {
      SavesOwn(world, t, id, w, plan);
      LeadsOn(world, id, plan, commits, told, n);
      LeadsOn(world, id, plan, told, done, n - 1);
      EndsHere(world, Saved(world, t, w, plan), id, w, Reply(world, w, plan), plan, n - 2);
    } else if plan.givesUp {
      FailsOwn(world, s, id, w, plan);
      SavesOwn(world, t, id, w, plan);
      LeadsOn(world, id, plan, commits, failing, n);
      LeadsOn(world, id, plan, failing, told, n - 1);
      LeadsOn(world, id, plan, told, done, n - 2);
      EndsHere(world, Saved(world, t, w, plan), id, w, Reply(world, w, plan), plan, n - 3);
    } else {
      WaitsOwn(world, s, id, w, plan);
      RestsOwn(world, t, id, w, plan);
      LeadsOn(world, id, plan, commits, waiting, n);
      LeadsOn(world, id, plan, waiting, rested, n - 1);
      LeadsOn(world, id, plan, rested, done, n - 2);
      EndsHere(world, Saved(world, t, w, plan), id, w, Reply(world, w, plan), plan, n - 3);
    }
  }

  /** The whole call as one transition. */
  function Whole(world: World, s: State, id: nat, w: Worker, plan: Plan): State {
    var taken := Taken(Bound(Opened(world, s, w, plan.now), w), w);
    At(Saved(world, Closed(world, taken, id, w, plan), w, plan), id, w, Done(Reply(world, w, plan)))
  }

  lemma TwelveSteps(world: World, s: State, id: nat, w: Worker, plan: Plan)
    requires MayBegin(s, id, w)
    ensures Alone(world, s, id, plan, 12) == Whole(world, s, id, w.(token := s.row.token), plan)
  {
    hide Alone, Opened, Bound, Taken, Closed, Saved, Reply, At, MayBegin, Owns, Read;
    var own := w.(token := s.row.token);
    var ready := Opened(world, s, own, plan.now);
    var bound := Bound(ready, own);
    Opens(world, s, id, w, plan, 12);
    ReadBefore(ready, own);
    Judges(world, bound, id, own, ready.row, plan, 7);
    Finishes(world, Taken(bound, own), id, own, plan, if bound.row.status == Running then 3 else 4);
  }

  lemma ReadBefore(s: State, w: Worker)
    ensures Read(Bound(s, w), s.row)
  {
  }

  /** The row that an undisturbed call leaves. */
  function Left(world: World, r: Row, w: Worker, plan: Plan): Row {
    var d := BillingLedger.Delivery(w.usage, w.generation);
    var billed := BillingLedger.Deliver(r.checkpoint.billing, d);
    Row(if plan.passes then Complete else if plan.givesUp then Failed else WaitingEvent,
        r.version + (if r.status == Running then 2 else 1), r.generation + 1, "", None,
        Checkpoint(world.candidateHash(w.text), world.digest(world.project(w.text)),
                   if r.status == Running then BillingLedger.Deliver(billed, d) else billed),
        r.verifyFailures + (if plan.passes then 0 else 1), MaxInt(r.envelope, w.envelope))
  }

  lemma WholeRow(world: World, s: State, id: nat, w: Worker, plan: Plan)
    requires s.row.status in {Running, Verifying}
    ensures Whole(world, s, id, w, plan).row == Left(world, s.row, w, plan)
  {
    hide BillingLedger.Deliver, Reply;
  }

  /** Up to the advance only expiry, envelope and artifacts move; the advance leaves all but row, bill and writes. */
  lemma BeforeTheEnd(world: World, s: State, w: Worker, now: int)
    requires s.row.status in {Running, Verifying}
    ensures var t, digest := Taken(Bound(Opened(world, s, w, now), w), w), world.digest(world.project(w.text));
            var d := BillingLedger.Delivery(w.usage, w.generation);
            && t.workers == s.workers && t.winner == s.winner && t.job == s.job
            && t.landed == (if s.row.status == Running then s.landed + [d] else s.landed)
            && t.artifacts == (if digest in s.artifacts then s.artifacts
                               else s.artifacts[digest := world.redact(world.project(w.text))])
  {
    hide BillingLedger.Deliver, Delivered;
  }

  lemma WholeRest(world: World, s: State, id: nat, w: Worker, plan: Plan)
    requires s.row.status in {Running, Verifying}
    ensures var t, digest := Whole(world, s, id, w, plan), world.digest(world.project(w.text));
            var d, reply := BillingLedger.Delivery(w.usage, w.generation), Reply(world, w, plan);
            && t.workers == s.workers[id := w.(pc := Done(reply))]
            && t.artifacts == (if digest in s.artifacts then s.artifacts
                               else s.artifacts[digest := world.redact(world.project(w.text))])
            && t.winner == (if plan.passes then Some(Winner(id, w.text)) else s.winner)
            && t.job == (if Ends(plan) == WaitingEvent || plan.jobLost then s.job
                         else Some(Job(WordFor(plan), Some(reply.(text := world.jobText(reply.text))))))
            && t.landed == s.landed + if s.row.status == Running then [d, d] else [d]
  {
    hide BillingLedger.Deliver, Delivered, Reply, Ends, WordFor, Opened, Bound, Taken;
    BeforeTheEnd(world, s, w, plan.now);
    var d := BillingLedger.Delivery(w.usage, w.generation);
    assert s.landed + [d] + [d] == s.landed + [d, d];
  }

  /**
   * An undisturbed call, whole. A candidate that passes completes the mission and is the reply and the stored job; one
   * that fails for good fails the mission; any other sends it back waiting. In each case the lease is given up under the
   * next generation, the candidate is stored and named, the envelope is not lowered, and the usage is folded in, once
   * more when the call had to take the mission to verification itself. Nobody else's call is touched.
   */
  lemma SealAlone(world: World, s: State, id: nat, w: Worker, plan: Plan)
    requires MayBegin(s, id, w)
    ensures var t, digest := Alone(world, s, id, plan, 12), world.digest(world.project(w.text));
            var status := if plan.passes then Complete else if plan.givesUp then Failed else WaitingEvent;
            var word := if plan.passes then SaysComplete else if plan.givesUp then SaysError else SaysContinue;
            var reply := Payload(word, world.jobId, world.acceptanceHash, Some(status), if plan.passes then w.text else "");
            var d := BillingLedger.Delivery(w.usage, w.generation);
            && id in t.workers && t.workers == s.workers[id := t.workers[id]] && t.workers[id].pc == Done(reply)
            && t.row == Left(world, s.row, w, plan)
            && t.artifacts == (if digest in s.artifacts then s.artifacts
                               else s.artifacts[digest := world.redact(world.project(w.text))])
            && t.winner == (if plan.passes then Some(Winner(id, w.text)) else s.winner)
            && t.job == (if (plan.passes || plan.givesUp) && !plan.jobLost
                         then Some(Job(word, Some(reply.(text := world.jobText(reply.text))))) else s.job)
            && t.landed == s.landed + if s.row.status == Running then [d, d] else [d]
  {
    hide Alone, Whole, Left;
    var own := w.(token := s.row.token);
    TwelveSteps(world, s, id, w, plan);
    WholeRow(world, s, id, own, plan);
    WholeRest(world, s, id, own, plan);
    LeftIgnoresToken(world, s.row, w, s.row.token, plan);
  }

  lemma LeftIgnoresToken(world: World, r: Row, w: Worker, token: string, plan: Plan)
    ensures Left(world, r, w.(token := token), plan) == Left(world, r, w, plan)
  {
    hide BillingLedger.Deliver;
  }

  // ---------- Calls that may not begin, and calls that find the mission ended ----------

  /** A call without the lease, for another generation, or on a row nobody works on, changes nothing and says so. */
  lemma StaleAlone(world: World, s: State, id: nat, w: Worker, plan: Plan)
    requires id in s.workers && s.workers[id] == w && w.pc == Loading
    requires s.row.status !in {Complete, Failed, BudgetExhausted, Cancelled}
    requires w.generation != s.row.generation || s.row.token == "" || (w.token != "" && w.token != s.row.token)
    ensures var t := Alone(world, s, id, plan, 12);
            && t == s.(workers := t.workers) && id in t.workers
            && t.workers[id].pc == Done(Payload(SaysContinue, world.jobId, world.acceptanceHash, Some(s.row.status), ""))
  {
    var reply := Payload(SaysContinue, world.jobId, world.acceptanceHash, Some(s.row.status), "");
    hide Alone;
    assert Leads(world, id, plan, s, At(s, id, w, Done(reply)));
    hide Leads;
    LeadsOn(world, id, plan, s, At(s, id, w, Done(reply)), 12);
    EndsHere(world, s, id, w, reply, plan, 11);
  }

  /** What a call makes of a mission that has ended: the stored job if that speaks for it, else the stored artifact. */
  function Found(world: World, s: State): Payload {
    var status := s.row.status;
    var hash := if s.row.checkpoint.projectionHash != "" then s.row.checkpoint.projectionHash
                else s.row.checkpoint.candidateHash;
    var word := if status == Complete then SaysComplete else SaysError;
    if s.job.Some? && s.job.value.status == word && s.job.value.payload.Some?
       && s.job.value.payload.value.(text := "") == Payload(word, world.jobId, world.acceptanceHash, Some(status), "")
    then s.job.value.payload.value
    else Payload(word, world.jobId, world.acceptanceHash, Some(status),
                 if status != Complete then ""
                 else if hash != "" && hash in s.artifacts then s.artifacts[hash] else world.unavailable)
  }

  lemma FoundInJob(world: World, s: State)
    ensures Speaks(world, s.job, s.row) ==> Found(world, s) == s.job.value.payload.value
    ensures !Speaks(world, s.job, s.row) ==> Found(world, s) == Rebuilt(world, s.artifacts, s.row)
  {
  }

  lemma ProjectsFound(world: World, s: State, id: nat, w: Worker, plan: Plan)
    ensures Leads(world, id, plan, At(s, id, w, Projecting(s.row)),
                  At(s, id, w, if Speaks(world, s.job, s.row) then Done(Found(world, s)) else Fetching(s.row)))
  {
    hide Found, Rebuilt, Speaks;
    FoundInJob(world, s);
  }

  lemma FetchesFound(world: World, s: State, id: nat, w: Worker, plan: Plan)
    requires !Speaks(world, s.job, s.row)
    ensures Leads(world, id, plan, At(s, id, w, Fetching(s.row)), At(s, id, w, Done(Found(world, s))))
  {
    hide Found, Rebuilt, Speaks;
    FoundInJob(world, s);
  }

  /** A call that finds the mission ended reports that end, from the stored job or from the row, and changes nothing. */
  lemma EndedAlone(world: World, s: State, id: nat, w: Worker, plan: Plan)
    requires id in s.workers && s.workers[id] == w && w.pc == Loading
    requires s.row.status in {Complete, Failed, BudgetExhausted, Cancelled}
    ensures Alone(world, s, id, plan, 12) == At(s, id, w, Done(Found(world, s)))
  {
    hide Alone;
    var s1, s2, t := At(s, id, w, Projecting(s.row)), At(s, id, w, Fetching(s.row)), At(s, id, w, Done(Found(world, s)));
    assert Leads(world, id, plan, s, s1) by { hide Speaks, Rebuilt, Found; }
    hide *;
    ProjectsFound(world, s, id, w, plan);
    LeadsOn(world, id, plan, s, s1, 12);
    if Speaks(world, s.job, s.row) {
      LeadsOn(world, id, plan, s1, t, 11);
      EndsHere(world, s, id, w, Found(world, s), plan, 10);
    } else {
      FetchesFound(world, s, id, w, plan);
      LeadsOn(world, id, plan, s1, s2, 11);
      LeadsOn(world, id, plan, s2, t, 10);
      EndsHere(world, s, id, w, Found(world, s), plan, 9);
    }
  }

  /** The state after a lease is given back with what its quantum had spent. */
  function Released(s: State, w: Worker, reported: Option<Value>): State {
    var d := BillingLedger.Delivery(reported.GetOr(Null), w.generation);
    s.(row := s.row.(status := WaitingEvent, version := s.row.version + 1, generation := s.row.generation + 1, token := "",
                     expires := None,
                     checkpoint := if reported.Some? then Delivered(s.row.checkpoint, w.(usage := reported.value))
                                   else s.row.checkpoint),
       landed := if reported.Some? then s.landed + [d] else s.landed)
  }

  lemma ReleasesOwn(world: World, s: State, id: nat, w: Worker, reported: Option<Value>, plan: Plan)
    requires Owns(s, w)
    ensures Leads(world, id, plan, At(s, id, w, Releasing(s.row, reported)),
                  At(Released(s, w, reported), id, w, Done(Continue(world, WaitingEvent))))
  {
    OnlyActiveRest(s.row.status);
    var d := BillingLedger.Delivery(reported.GetOr(Null), w.generation);
    var u := Update(None, if reported.Some? then Some(BillingLedger.Deliver(s.row.checkpoint.billing, d)) else None);
    CasIsFenced(s.row, Owner(w, s.row.status, s.row), WaitingEvent, true, u, false);
    hide Legal, BillingLedger.Deliver, Continue, Reread;
  }

  /** A quantum that ends in an error gives its own lease back, under the next generation, with what it had spent. */
  lemma AbandonAlone(world: World, s: State, id: nat, w: Worker, reported: Option<Value>, plan: Plan)
    requires id in s.workers && s.workers[id] == w && w.pc == Abandoning(reported) && w.token != ""
    requires s.row.status in {Running, Verifying}
    ensures Alone(world, s, id, plan, 12)
         == if w.token == s.row.token && w.generation == s.row.generation
            then At(Released(s, w, reported), id, w, Done(Continue(world, WaitingEvent)))
            else At(s, id, w, Done(Continue(world, s.row.status)))
  {
    hide Alone, BillingLedger.Deliver, Released, Continue;
    var releasing, refused := At(s, id, w, Releasing(s.row, reported)), At(s, id, w, Done(Continue(world, s.row.status)));
    if w.token == s.row.token && w.generation == s.row.generation {
      assert Leads(world, id, plan, s, releasing) && Owns(s, w);
      hide *;
      var t := At(Released(s, w, reported), id, w, Done(Continue(world, WaitingEvent)));
      LeadsOn(world, id, plan, s, releasing, 12);
      ReleasesOwn(world, s, id, w, reported, plan);
      LeadsOn(world, id, plan, releasing, t, 11);
      EndsHere(world, Released(s, w, reported), id, w, Continue(world, WaitingEvent), plan, 10);
    } else {
      assert Leads(world, id, plan, s, refused);
      hide *;
      LeadsOn(world, id, plan, s, refused, 12);
      EndsHere(world, s, id, w, Continue(world, s.row.status), plan, 11);
    }
  }
}
