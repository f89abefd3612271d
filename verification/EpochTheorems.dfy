/** The promises of the sealing protocol, for every run of any number of calls against one mission. */
module EpochTheorems {
  import opened Wrappers
  import opened Values
  import opened MissionStore
  import opened Epoch
  import opened EpochSafety
  import opened BillingLedger
  import Billing

  /** A run with all its states: it starts with a created mission, and each action leads to the next state. */
  predicate IsHistory(world: World, row: Row, states: seq<State>, actions: seq<Action>) {
    && Created(row) && |states| == |actions| + 1 && states[0] == Start(row)
    && forall i {:trigger states[i], actions[i]} :: 0 <= i < |actions| ==>
         states[i + 1] == Next(world, states[i], actions[i])
  }

  lemma {:induction false} HistoryIsRun(world: World, row: Row, states: seq<State>, actions: seq<Action>, i: nat)
    requires IsHistory(world, row, states, actions) && i < |states|
    ensures Created(row) && states[i] == Run(world, Start(row), actions[..i])
  {
    hide Next, Start;
    if i > 0 {
      HistoryIsRun(world, row, states, actions, i - 1);
      assert states[i] == Next(world, states[i - 1], actions[i - 1]);
      assert actions[..i - 1] + [actions[i - 1]] == actions[..i];
      RunAppend(world, Start(row), actions[..i - 1], actions[i - 1]);
    }
  }

  ghost predicate RepliesTell(world: World, s: State) {
    forall id :: id in s.workers && s.workers[id].pc.Done? && s.workers[id].pc.reply.status == SaysComplete ==>
      Tells(world, s.winner, s.workers[id].pc.reply.text)
  }

  ghost predicate JobTells(world: World, s: State) {
    Speaks(world, s.job, s.row) && s.row.status == Complete ==>
      Tells(world, s.winner, s.job.value.payload.value.text)
  }

  /**
   * Agreement. At most one terminal status is ever written, a candidate wins exactly when the mission
   * is complete, and every reply or stored job that says so carries the winner's candidate.
   */
  lemma Agreement(world: World, row: Row, states: seq<State>, actions: seq<Action>, i: nat)
    requires Hashing(world) && IsHistory(world, row, states, actions) && i < |states|
    ensures var s := states[i];
            && s.terminals <= 1 && (s.terminals == 1 <==> Terminal(s.row.status))
            && (s.winner.Some? <==> s.row.status == Complete)
            && RepliesTell(world, s) && JobTells(world, s)
  {
    HistoryIsRun(world, row, states, actions, i);
    hide IsHistory, Run;
    RunOk(world, row, actions[..i]);
    InvTells(world, states[i]);
    hide RepliesTell, JobTells, WorkerOk, Durable, ArtifactsOk, JobOk, Billed;
  }

  lemma InvTells(world: World, s: State)
    requires Inv(world, s)
    ensures RepliesTell(world, s) && JobTells(world, s)
  {
    hide Stored, Durable, ArtifactsOk, Tells;
    forall id | id in s.workers && s.workers[id].pc.Done? && s.workers[id].pc.reply.status == SaysComplete
      ensures Tells(world, s.winner, s.workers[id].pc.reply.text)
    {
      assert WorkerOk(world, s, s.workers[id]);
    }
  }

  /** Nothing that happens later touches a terminal mission or changes who won. */
  lemma TerminalForGood(world: World, row: Row, states: seq<State>, actions: seq<Action>, i: nat, j: nat)
    requires Hashing(world) && IsHistory(world, row, states, actions) && i <= j < |states|
    requires Terminal(states[i].row.status)
    ensures var s, s' := states[i], states[j];
            && s'.row.status == s.row.status && s'.row.checkpoint == s.row.checkpoint
            && s'.row.generation == s.row.generation && s'.row.version == s.row.version
            && s'.winner == s.winner && s'.terminals == s.terminals == 1
  {
    assert actions[..j] == actions[..i] + actions[i..j];
    HistoryIsRun(world, row, states, actions, i);
    HistoryIsRun(world, row, states, actions, j);
    assert Terminal(states[i].row.status);
    hide *;
    RunOk(world, row, actions[..i]);
    RunOk(world, row, actions[..j]);
    LaterAlways(world, row, actions[..i], actions[i..j]);
    TerminalStays(world, states[i], states[j]);
  }

  lemma TerminalStays(world: World, s: State, s': State)
    requires Inv(world, s) && Inv(world, s') && Progress(s, s') && Terminal(s.row.status)
    ensures s'.row.status == s.row.status && s'.row.checkpoint == s.row.checkpoint
    ensures s'.row.generation == s.row.generation && s'.row.version == s.row.version
    ensures s'.winner == s.winner && s'.terminals == s.terminals == 1
  {
    assert WritesOk(s) && WritesOk(s');
    hide Inv, Terminal;
  }

  /**
   * A call whose verification passed writes no status afterwards but COMPLETE: once its commit misses,
   * its attempts to fail the mission or to send it back waiting miss as well.
   */
  lemma PassedOnlyCommits(world: World, row: Row, states: seq<State>, actions: seq<Action>, i: nat)
    requires Hashing(world) && IsHistory(world, row, states, actions) && i < |states|
    ensures forall k :: 0 <= k < |states[i].writes| && states[i].writes[k].passed ==>
              states[i].writes[k].status == Complete
  {
    HistoryIsRun(world, row, states, actions, i);
    hide IsHistory, Run;
    RunOk(world, row, actions[..i]);
    hide Stored;
  }

  /** A complete mission's projection is stored, under the hash its checkpoint names, with its text. */
  lemma DurableBeforeVisible(world: World, row: Row, states: seq<State>, actions: seq<Action>, i: nat)
    requires Hashing(world) && IsHistory(world, row, states, actions) && i < |states|
    ensures var s := states[i];
            s.row.status == Complete ==>
              && s.winner.Some? && ProjectionOf(s.row) in s.artifacts
              && s.artifacts[ProjectionOf(s.row)] == world.redact(world.project(s.winner.value.text))
              && Rebuilt(world, s.artifacts, s.row).text == s.artifacts[ProjectionOf(s.row)]
  {
    HistoryIsRun(world, row, states, actions, i);
    hide IsHistory, Run;
    RunOk(world, row, actions[..i]);
    hide Stored;
  }

  // ---------- Billing ----------

  /** The calls that may still land their own usage. */
  predicate Reporting(pc: Pc) {
    !pc.Abandoning? && !pc.Releasing? && !pc.Projecting? && !pc.Fetching? && !pc.Done?
  }

  function ReportedBy(pc: Pc): Option<Value> {
    match pc
    case Abandoning(reported) => reported
    case Releasing(_, reported) => reported
    case _ => None
  }

  predicate OneReport(a: Action, usageOf: int -> Value) {
    match a
    case Seal(_, generation, _, _, usage, _, _) => usage == usageOf(generation)
    case Abandon(_, generation, _, reported) => reported.Some? ==> reported.value == usageOf(generation)
    case _ => true
  }

  /** Every call for a generation reports that generation's one result. */
  predicate OneResult(actions: seq<Action>, usageOf: int -> Value) {
    forall i :: 0 <= i < |actions| ==> OneReport(actions[i], usageOf)
  }

  predicate ReportsOne(w: Worker, usageOf: int -> Value) {
    && (Reporting(w.pc) ==> w.usage == usageOf(w.generation))
    && (ReportedBy(w.pc).Some? ==> ReportedBy(w.pc).value == usageOf(w.generation))
  }

  predicate LandedOne(landed: seq<Delivery>, usageOf: int -> Value) {
    forall i :: 0 <= i < |landed| ==> landed[i].usage == usageOf(landed[i].generation)
  }

  predicate UsageInv(s: State, usageOf: int -> Value) {
    && LandedOne(s.landed, usageOf)
    && forall id :: id in s.workers ==> ReportsOne(s.workers[id], usageOf)
  }

  /** From s to s' call id lands at most one delivery, which is what that call reports. */
  predicate LandsOwn(s: State, s': State, id: nat, usageOf: int -> Value) {
    && id in s'.workers && s'.workers == s.workers[id := s'.workers[id]]
    && ReportsOne(s'.workers[id], usageOf) && LandedOne(s'.landed, usageOf)
  }

  lemma LandsOne(landed: seq<Delivery>, d: Delivery, usageOf: int -> Value)
    requires LandedOne(landed, usageOf) && d.usage == usageOf(d.generation)
    ensures LandedOne(landed + [d], usageOf)
  {
  }

  lemma WriteLands(world: World, s: State, id: nat, w: Worker, choice: bool, now: int, usageOf: int -> Value)
    requires id in s.workers && s.workers[id] == w && ReportsOne(w, usageOf) && LandedOne(s.landed, usageOf)
    requires w.pc.Advancing? || w.pc.Committing? || w.pc.Failing? || w.pc.Waiting?
    ensures LandsOwn(s, StepWorker(world, s, id, w, choice, now), id, usageOf)
  {
    hide CompareAndSet, Deliver, Sealed, BilledFrom, Owner, LandedOne, Outcome;
    LandsOne(s.landed, Delivery(w.usage, w.generation), usageOf);
  }

  lemma ReleasingLands(world: World, s: State, id: nat, w: Worker, choice: bool, now: int, usageOf: int -> Value)
    requires id in s.workers && s.workers[id] == w && ReportsOne(w, usageOf) && LandedOne(s.landed, usageOf)
    requires w.pc.Releasing?
    ensures LandsOwn(s, StepWorker(world, s, id, w, choice, now), id, usageOf)
  {
    hide CompareAndSet, Deliver, Owner, LandedOne, Continue;
    if w.pc.reported.Some? {
      LandsOne(s.landed, Delivery(w.pc.reported.value, w.generation), usageOf);
    }
  }

  /** A step without a billing write leaves what landed alone, and its call reports no more than before. */
  lemma OpeningLands(world: World, s: State, id: nat, w: Worker, choice: bool, now: int, usageOf: int -> Value)
    requires id in s.workers && s.workers[id] == w && ReportsOne(w, usageOf) && LandedOne(s.landed, usageOf)
    requires w.pc.Loading? || w.pc.Heartbeating? || w.pc.Freezing? || w.pc.Refreshing?
    ensures LandsOwn(s, StepWorker(world, s, id, w, choice, now), id, usageOf)
  {
    hide Renew, Touch, PutArtifact, Continue, LandedOne;
  }

  lemma MiddleLands(world: World, s: State, id: nat, w: Worker, choice: bool, now: int, usageOf: int -> Value)
    requires id in s.workers && s.workers[id] == w && ReportsOne(w, usageOf) && LandedOne(s.landed, usageOf)
    requires w.pc.Binding? || w.pc.Unbound? || w.pc.Advanced? || w.pc.Checking? || w.pc.Reloading?
    ensures LandsOwn(s, StepWorker(world, s, id, w, choice, now), id, usageOf)
  {
    hide Renew, Touch, PutArtifact, Continue, LandedOne;
  }

  lemma ClosingLands(world: World, s: State, id: nat, w: Worker, choice: bool, now: int, usageOf: int -> Value)
    requires id in s.workers && s.workers[id] == w && ReportsOne(w, usageOf) && LandedOne(s.landed, usageOf)
    requires w.pc.Conflicted? || w.pc.Rested? || w.pc.SavingJob? || w.pc.Abandoning?
    ensures LandsOwn(s, StepWorker(world, s, id, w, choice, now), id, usageOf)
  {
    hide Continue, LandedOne;
  }

  lemma ReplyLands(world: World, s: State, id: nat, w: Worker, choice: bool, now: int, usageOf: int -> Value)
    requires id in s.workers && s.workers[id] == w && ReportsOne(w, usageOf) && LandedOne(s.landed, usageOf)
    requires w.pc.Projecting? || w.pc.Fetching? || w.pc.Done?
    ensures LandsOwn(s, StepWorker(world, s, id, w, choice, now), id, usageOf)
  {
    hide Speaks, Rebuilt, LandedOne;
  }

  lemma StepLands(world: World, s: State, id: nat, w: Worker, choice: bool, now: int, usageOf: int -> Value)
    requires id in s.workers && s.workers[id] == w && ReportsOne(w, usageOf) && LandedOne(s.landed, usageOf)
    ensures LandsOwn(s, StepWorker(world, s, id, w, choice, now), id, usageOf)
  {
    hide LandsOwn, ReportsOne, LandedOne, StepWorker;
    if w.pc.Releasing? {
      ReleasingLands(world, s, id, w, choice, now, usageOf);
    } else if w.pc.Advancing? || w.pc.Committing? || w.pc.Failing? || w.pc.Waiting? {
      WriteLands(world, s, id, w, choice, now, usageOf);
    } else if w.pc.Loading? || w.pc.Heartbeating? || w.pc.Freezing? || w.pc.Refreshing? {
      OpeningLands(world, s, id, w, choice, now, usageOf);
    } else if w.pc.Binding? || w.pc.Unbound? || w.pc.Advanced? || w.pc.Checking? || w.pc.Reloading? {
      MiddleLands(world, s, id, w, choice, now, usageOf);
    } else if w.pc.Conflicted? || w.pc.Rested? || w.pc.SavingJob? || w.pc.Abandoning? {
      ClosingLands(world, s, id, w, choice, now, usageOf);
    } else {
      ReplyLands(world, s, id, w, choice, now, usageOf);
    }
  }

  lemma {:induction false} RunReportsOne(world: World, row: Row, actions: seq<Action>, usageOf: int -> Value)
    requires OneResult(actions, usageOf)
    ensures UsageInv(Run(world, Start(row), actions), usageOf)
  {
    if actions != [] {
      var n := |actions| - 1;
      RunReportsOne(world, row, actions[..n], usageOf);
      assert OneResult(actions[..n], usageOf) && OneReport(actions[n], usageOf);
      hide Next, UsageInv, OneReport, Start;
      NextReportsOne(world, Run(world, Start(row), actions[..n]), actions[n], usageOf);
    }
  }

  lemma NextReportsOne(world: World, s: State, a: Action, usageOf: int -> Value)
    requires UsageInv(s, usageOf) && OneReport(a, usageOf)
    ensures UsageInv(Next(world, s, a), usageOf)
  {
    hide StepWorker, Claim, Renew, Requeue, LandedOne;
    if a.Step? && a.id in s.workers {
      StepLands(world, s, a.id, s.workers[a.id], a.choice, a.now, usageOf);
    }
  }

  /** The durable billing is the fold of what landed; with one result each, of one result each. */
  lemma RunLanded(world: World, row: Row, actions: seq<Action>)
    requires Hashing(world) && Created(row)
    ensures var s := Run(world, Start(row), actions);
            && s.row.checkpoint.billing == Stored(s.landed) && NonDecreasing(s.landed)
            && forall i :: 0 <= i < |s.landed| ==> 1 <= s.landed[i].generation <= s.row.generation
  {
    RunOk(world, row, actions);
    hide Run, Stored, Durable, ArtifactsOk, JobOk, WorkerOk, WritesOk;
  }

  lemma LandedOnce(world: World, row: Row, states: seq<State>, actions: seq<Action>, i: nat, usageOf: int -> Value)
    requires Hashing(world) && IsHistory(world, row, states, actions) && i < |states|
    requires OneResult(actions, usageOf) && states[i].row.generation <= Billing.INT_LIMIT
    ensures var s := states[i];
            s.row.checkpoint.billing == Stored(s.landed) && NonDecreasing(s.landed) && OneResultEach(s.landed, usageOf)
  {
    HistoryIsRun(world, row, states, actions, i);
    hide IsHistory, Run, Stored, NonDecreasing;
    RunLanded(world, row, actions[..i]);
    RunReportsOne(world, row, actions[..i], usageOf);
  }

  /**
   * Exactly-once billing. However claims, retries, losing writes and releases interleave, and although
   * each call folds its usage in up to three times, the durable cost and token counts are the sums, over
   * the generations that landed a billing write, of that generation's one reported usage.
   */
  lemma BilledExactlyOnce(world: World, row: Row, states: seq<State>, actions: seq<Action>, i: nat, usageOf: int -> Value)
    requires Hashing(world) && IsHistory(world, row, states, actions) && i < |states|
    requires OneResult(actions, usageOf) && states[i].row.generation <= Billing.INT_LIMIT
    ensures var s := states[i];
            var durable, gs := Billing.Normalize(s.row.checkpoint.billing), Generations(s.landed);
            && durable.cost == Billing.ClampCost(CostOfEach(gs, usageOf))
            && (forall f: Billing.Field ::
                  durable.tokens.Of(f).GetOr(0) == Billing.ClampInt(TokensOfEach(gs, usageOf, f)))
  {
    LandedOnce(world, row, states, actions, i, usageOf);
    hide *;
    BilledOnce(states[i].landed, usageOf);
  }

  /** The generations that landed a write are distinct: each of them counts once in that sum. */
  lemma GenerationsAreDistinct(world: World, row: Row, states: seq<State>, actions: seq<Action>, i: nat)
    requires Hashing(world) && IsHistory(world, row, states, actions) && i < |states|
    requires states[i].row.generation <= Billing.INT_LIMIT
    ensures var landed, gs := states[i].landed, Generations(states[i].landed);
            && (forall j, k :: 0 <= j < k < |gs| ==> gs[j] < gs[k])
            && (forall k :: 0 <= k < |landed| ==> landed[k].generation in gs)
  {
    HistoryIsRun(world, row, states, actions, i);
    hide IsHistory, Run, Stored, NonDecreasing, Generations;
    RunLanded(world, row, actions[..i]);
    GenerationsIncrease(states[i].landed);
    GenerationsCover(states[i].landed);
  }

  /** Without assuming one result each: the checkpoint is the bounded view of the landed deliveries' book. */
  lemma BilledAsLanded(world: World, row: Row, states: seq<State>, actions: seq<Action>, i: nat)
    requires Hashing(world) && IsHistory(world, row, states, actions) && i < |states|
    ensures var s := states[i];
            && Views(Billing.Normalize(s.row.checkpoint.billing), BookOf(s.landed))
            && (forall j, k :: 0 <= j < k < |s.landed| ==> s.landed[j].generation <= s.landed[k].generation)
  {
    HistoryIsRun(world, row, states, actions, i);
    hide IsHistory, Run, Stored, Billing.Normalize, Views;
    RunLanded(world, row, actions[..i]);
    SnapshotViewsBook(states[i].landed);
  }
}
