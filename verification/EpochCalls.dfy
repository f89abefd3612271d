/**
 * What one seal call does, step by step: whose verdict a mission was completed on, what each step may write, and what
 * a call tells its caller.
 */
module EpochCalls {
  import opened Wrappers
  import opened Values
  import opened MissionStore
  import opened Epoch
  import opened EpochSafety
  import opened EpochTheorems
  import BillingLedger

  // ---------- Steps ----------

  /** A step changes nobody else's call, and carries the verdict given after checking unchanged to the commit. */
  predicate Moves(s: State, s': State, id: nat, w: Worker, choice: bool) {
    && id in s'.workers && s'.workers == s.workers[id := s'.workers[id]]
    && var w' := s'.workers[id];
       && w'.text == w.text && w'.usage == w.usage && w'.generation == w.generation
       && (w'.pc.Reloading? ==> w.pc == Checking && w'.pc.passed == choice)
       && (w'.pc.Committing? ==> w.pc == Reloading(w'.pc.passed))
  }

  /** Nothing that a status write would touch is touched. */
  predicate Keeps(s: State, s': State) {
    && s'.row.status == s.row.status && s'.row.version == s.row.version && s'.row.generation == s.row.generation
    && s'.row.token == s.row.token && s'.row.checkpoint == s.row.checkpoint
    && s'.row.verifyFailures == s.row.verifyFailures
    && s'.landed == s.landed && s'.winner == s.winner && s'.terminals == s.terminals && s'.writes == s.writes
  }

  predicate Writing(pc: Pc) { pc.Advancing? || pc.Committing? || pc.Failing? || pc.Waiting? || pc.Releasing? }

  lemma RenewKeeps(r: Row, token: string, generation: nat, expires: int, envelope: int)
    ensures Renew(r, token, generation, expires).Some? ==>
              Renew(r, token, generation, expires).value == r.(expires := Some(expires))
    ensures Touch(r, token, generation, envelope).Some? ==>
              Touch(r, token, generation, envelope).value == r.(envelope := MaxInt(r.envelope, envelope))
  {
  }

  lemma OpeningKeeps(world: World, s: State, id: nat, w: Worker, choice: bool, now: int)
    requires id in s.workers && s.workers[id] == w
    requires w.pc.Loading? || w.pc.Heartbeating? || w.pc.Freezing? || w.pc.Refreshing?
    ensures Moves(s, StepWorker(world, s, id, w, choice, now), id, w, choice)
    ensures Keeps(s, StepWorker(world, s, id, w, choice, now))
  {
    RenewKeeps(s.row, w.token, w.generation, now + w.ttl, w.envelope);
    hide Renew, Touch, PutArtifact, Continue;
  }

  lemma MiddleKeeps(world: World, s: State, id: nat, w: Worker, choice: bool, now: int)
    requires id in s.workers && s.workers[id] == w
    requires w.pc.Binding? || w.pc.Unbound? || w.pc.Advanced? || w.pc.Checking? || w.pc.Reloading?
    ensures Moves(s, StepWorker(world, s, id, w, choice, now), id, w, choice)
    ensures Keeps(s, StepWorker(world, s, id, w, choice, now))
  {
    RenewKeeps(s.row, w.token, w.generation, now + w.ttl, w.envelope);
    hide Renew, Touch, PutArtifact, Continue;
  }

  lemma ClosingKeeps(world: World, s: State, id: nat, w: Worker, choice: bool, now: int)
    requires id in s.workers && s.workers[id] == w
    requires w.pc.Conflicted? || w.pc.Rested? || w.pc.SavingJob? || w.pc.Abandoning?
    ensures Moves(s, StepWorker(world, s, id, w, choice, now), id, w, choice)
    ensures Keeps(s, StepWorker(world, s, id, w, choice, now))
  {
    hide Continue;
  }

  lemma ReplyKeeps(world: World, s: State, id: nat, w: Worker, choice: bool, now: int)
    requires id in s.workers && s.workers[id] == w
    requires w.pc.Projecting? || w.pc.Fetching? || w.pc.Done?
    ensures Moves(s, StepWorker(world, s, id, w, choice, now), id, w, choice)
    ensures Keeps(s, StepWorker(world, s, id, w, choice, now))
  {
    hide Speaks, Rebuilt;
  }

  /** Steps other than the five status writes move nothing but their own call, expiry, envelope, artifacts and job. */
  lemma QuietStep(world: World, s: State, id: nat, w: Worker, choice: bool, now: int)
    requires id in s.workers && s.workers[id] == w && !Writing(w.pc)
    ensures Moves(s, StepWorker(world, s, id, w, choice, now), id, w, choice)
    ensures Keeps(s, StepWorker(world, s, id, w, choice, now))
  {
    hide StepWorker, Moves, Keeps;
    if w.pc.Loading? || w.pc.Heartbeating? || w.pc.Freezing? || w.pc.Refreshing? {
      OpeningKeeps(world, s, id, w, choice, now);
    } else if w.pc.Binding? || w.pc.Unbound? || w.pc.Advanced? || w.pc.Checking? || w.pc.Reloading? {
      MiddleKeeps(world, s, id, w, choice, now);
    } else if w.pc.Conflicted? || w.pc.Rested? || w.pc.SavingJob? || w.pc.Abandoning? {
      ClosingKeeps(world, s, id, w, choice, now);
    } else {
      ReplyKeeps(world, s, id, w, choice, now);
    }
  }

  // ---------- Status writes ----------

  /** The call owns the current lease, and one status write has happened. */
  predicate Wrote(s: State, s': State, w: Worker, from: Status, to: Status, cleared: bool) {
    && s.row.generation == w.generation && s.row.token == w.token != ""
    && s.row.status == from && s'.row.status == to && s'.row.version == s.row.version + 1
    && (if cleared then s'.row.token == "" && s'.row.expires == None && s'.row.generation == s.row.generation + 1
        else s'.row.token == s.row.token && s'.row.expires == s.row.expires && s'.row.generation == s.row.generation)
  }

  /** The usage is folded once into the billing that stood there just before. */
  predicate Bills(s: State, s': State, usage: Value, generation: nat) {
    var d := BillingLedger.Delivery(usage, generation);
    s'.row.checkpoint.billing == BillingLedger.Deliver(s.row.checkpoint.billing, d) && s'.landed == s.landed + [d]
  }

  predicate NamesCandidate(world: World, s': State, w: Worker) {
    && s'.row.checkpoint.candidateHash == world.candidateHash(w.text)
    && s'.row.checkpoint.projectionHash == world.digest(world.project(w.text))
  }

  predicate Told(pc: Pc, world: World, word: Word, status: Status, text: string) {
    pc == SavingJob(Payload(word, world.jobId, world.acceptanceHash, Some(status), text))
  }

  /** The write of the lease's owner, seen as the row it leaves. */
  lemma OwnerWrites(world: World, s: State, w: Worker, pre: Row, next: Status, u: Update, bump: bool)
    requires Saw(s, w, pre) && u.billing.Some?
    ensures var written := CompareAndSet(s.row, Owner(w, Verifying, pre), next, true, u, bump);
            && (written.Some? <==> s.row.status == Verifying && s.row.version == pre.version
                                   && s.row.generation == pre.generation && s.row.token == w.token != ""
                                   && Legal(Verifying, next))
            && (written.Some? ==>
                  && s.row.checkpoint == pre.checkpoint
                  && written.value.status == next && written.value.version == s.row.version + 1
                  && written.value.token == "" && written.value.expires == None
                  && written.value.generation == s.row.generation + 1 && s.row.generation == w.generation
                  && written.value.verifyFailures - s.row.verifyFailures == (if bump then 1 else 0)
                  && written.value.checkpoint.billing == u.billing.value
                  && (u.hashes.Some? ==>
                        (written.value.checkpoint.candidateHash, written.value.checkpoint.projectionHash)
                        == u.hashes.value))
  {
    CasIsFenced(s.row, Owner(w, Verifying, pre), next, true, u, bump);
    hide Legal, CompareAndSet, Terminal;
  }

  lemma CommitWrites(world: World, s: State, id: nat, w: Worker, pre: Row, passed: bool, choice: bool)
    requires id in s.workers && s.workers[id] == w && w.pc == Committing(pre, passed) && Saw(s, w, pre)
    ensures var s' := Commit(world, s, id, w, pre, passed, choice);
            && Moves(s, s', id, w, choice)
            && if passed && s.row.status == Verifying && s.row.version == pre.version
                  && s.row.generation == pre.generation && s.row.token == w.token != ""
               then && Wrote(s, s', w, Verifying, Complete, true) && Bills(s, s', w.usage, w.generation)
                    && NamesCandidate(world, s', w) && s'.row.verifyFailures == s.row.verifyFailures
                    && s'.winner == Some(Winner(id, w.text))
                    && Told(s'.workers[id].pc, world, SaysComplete, Complete, w.text)
               else && Keeps(s, s')
                    && s'.workers[id].pc == if choice then Failing(pre, passed) else Waiting(pre, passed)
  {
    LegalMoves();
    OwnerWrites(world, s, w, pre, Complete, Sealed(world, w, pre), false);
    hide Legal, CompareAndSet, Saw, BillingLedger.Deliver, Terminal;
  }

  lemma FailWrites(world: World, s: State, id: nat, w: Worker, pre: Row, passed: bool)
    requires id in s.workers && s.workers[id] == w && w.pc == Failing(pre, passed) && Saw(s, w, pre)
    ensures var s' := Fail(world, s, id, w, pre, passed);
            && Moves(s, s', id, w, false)
            && if s.row.status == Verifying && s.row.version == pre.version
                  && s.row.generation == pre.generation && s.row.token == w.token != ""
               then && Wrote(s, s', w, Verifying, Failed, true) && Bills(s, s', w.usage, w.generation)
                    && NamesCandidate(world, s', w) && s'.row.verifyFailures == s.row.verifyFailures + 1
                    && s'.winner == s.winner && Told(s'.workers[id].pc, world, SaysError, Failed, "")
               else Keeps(s, s') && s'.workers[id].pc == Conflicted
  {
    LegalMoves();
    OwnerWrites(world, s, w, pre, Failed, Sealed(world, w, pre), true);
    hide Legal, CompareAndSet, Saw, BillingLedger.Deliver, Terminal;
  }

  lemma WaitWrites(world: World, s: State, id: nat, w: Worker, pre: Row, passed: bool)
    requires id in s.workers && s.workers[id] == w && w.pc == Waiting(pre, passed) && Saw(s, w, pre)
    ensures var s' := Wait(world, s, id, w, pre, passed);
            && Moves(s, s', id, w, false)
            && if s.row.status == Verifying && s.row.version == pre.version
                  && s.row.generation == pre.generation && s.row.token == w.token != ""
               then && Wrote(s, s', w, Verifying, WaitingEvent, true) && Bills(s, s', w.usage, w.generation)
                    && NamesCandidate(world, s', w) && s'.row.verifyFailures == s.row.verifyFailures + 1
                    && s'.winner == s.winner && s'.workers[id].pc == Rested(true)
               else Keeps(s, s') && s'.workers[id].pc == Rested(false)
  {
    LegalMoves();
    OwnerWrites(world, s, w, pre, WaitingEvent, Sealed(world, w, pre), true);
    hide Legal, CompareAndSet, Saw, BillingLedger.Deliver, Terminal;
  }

  lemma AdvanceWrites(world: World, s: State, id: nat, w: Worker, seen: Row)
    requires id in s.workers && s.workers[id] == w && w.pc == Advancing(seen) && Saw(s, w, seen)
    ensures var s' := Advance(s, id, w, seen);
            && Moves(s, s', id, w, false)
            && if seen.status == Running && s.row.status == Running && s.row.version == seen.version
                  && s.row.generation == seen.generation && s.row.token == w.token != ""
               then && Wrote(s, s', w, Running, Verifying, false) && Bills(s, s', w.usage, w.generation)
                    && s'.row.checkpoint == s.row.checkpoint.(billing := s'.row.checkpoint.billing)
                    && s'.row.verifyFailures == s.row.verifyFailures && s'.winner == s.winner
                    && s'.workers[id].pc == Advanced(true)
               else && Keeps(s, s')
                    && s'.workers[id].pc == if seen.status == Verifying then Checking else Advanced(false)
  {
    LegalMoves();
    var e := Expect(Running, seen.version, w.generation, Some(w.token));
    var u := Update(None, Some(BilledFrom(w, seen)));
    CasIsFenced(s.row, e, Verifying, false, u, false);
    if Meets(s.row, e) { SeenIsCurrent(s, w, seen, e); }
    hide Legal, CompareAndSet, BillingLedger.Deliver, Later, Terminal;
  }

  lemma RereadKeeps(world: World, s: State, id: nat, w: Worker)
    requires id in s.workers && s.workers[id] == w
    ensures Keeps(s, Reread(world, s, id, w)) && Moves(s, Reread(world, s, id, w), id, w, false)
  {
    hide Continue, Terminal;
  }

  lemma ReleaseWrites(world: World, s: State, id: nat, w: Worker, read: Row, reported: Option<Value>)
    requires id in s.workers && s.workers[id] == w && w.pc == Releasing(read, reported) && Saw(s, w, read)
    ensures var s' := Release(world, s, id, w, read, reported);
            && Moves(s, s', id, w, false)
            && if read.status in {Running, Verifying} && s.row.status == read.status && s.row.version == read.version
                  && s.row.generation == read.generation && s.row.token == w.token != ""
               then && Wrote(s, s', w, read.status, WaitingEvent, true) && s'.winner == s.winner
                    && (if reported.Some? then Bills(s, s', reported.value, w.generation)
                        else s'.landed == s.landed && s'.row.checkpoint == s.row.checkpoint)
                    && s'.row.verifyFailures == s.row.verifyFailures
                    && s'.workers[id].pc == Done(Continue(world, WaitingEvent))
               else Keeps(s, s')
  {
    OnlyActiveRest(read.status);
    var e := Owner(w, read.status, read);
    var d := BillingLedger.Delivery(reported.GetOr(Null), w.generation);
    var u := Update(None, if reported.Some? then Some(BillingLedger.Deliver(read.checkpoint.billing, d)) else None);
    CasIsFenced(s.row, e, WaitingEvent, true, u, false);
    hide Legal, CompareAndSet, BillingLedger.Deliver, Later, Terminal, Continue, Reread;
    if Legal(read.status, WaitingEvent) && Meets(s.row, e) {
      SeenIsCurrent(s, w, read, e);
    } else {
      hide Keeps, Moves;
      RereadKeeps(world, s, id, w);
    }
  }

  lemma OnlyActiveRest(status: Status)
    ensures Legal(status, WaitingEvent) <==> status in {Running, Verifying}
  {
  }

  /** A delivery in one of the five writing steps. */
  lemma MovesAnyway(s: State, s': State, id: nat, w: Worker, choice: bool)
    requires Moves(s, s', id, w, false) && Writing(w.pc)
    ensures Moves(s, s', id, w, choice)
  {
  }

  lemma WritingStep(world: World, s: State, id: nat, w: Worker, choice: bool, now: int)
    requires Writing(w.pc)
    ensures StepWorker(world, s, id, w, choice, now)
         == match w.pc
            case Advancing(seen) => Advance(s, id, w, seen)
            case Committing(pre, passed) => Commit(world, s, id, w, pre, passed, choice)
            case Failing(pre, passed) => Fail(world, s, id, w, pre, passed)
            case Waiting(pre, passed) => Wait(world, s, id, w, pre, passed)
            case Releasing(read, reported) => Release(world, s, id, w, read, reported)
            case _ => s
  {
    hide Advance, Commit, Fail, Wait, Release;
  }

  /** The status that a step leaves, and whether the usage of its call was billed with it. */
  predicate WritesOnce(world: World, s: State, s': State, id: nat, w: Worker) {
    match w.pc
    case Advancing(_) =>
      && Wrote(s, s', w, Running, Verifying, false) && Bills(s, s', w.usage, w.generation)
      && s'.row.checkpoint == s.row.checkpoint.(billing := s'.row.checkpoint.billing) && s'.winner == s.winner
    case Committing(_, passed) =>
      && passed && Wrote(s, s', w, Verifying, Complete, true) && Bills(s, s', w.usage, w.generation)
      && NamesCandidate(world, s', w) && s'.winner == Some(Winner(id, w.text))
    case Failing(_, _) =>
      && Wrote(s, s', w, Verifying, Failed, true) && Bills(s, s', w.usage, w.generation)
      && NamesCandidate(world, s', w) && s'.winner == s.winner
    case Waiting(_, _) =>
      && Wrote(s, s', w, Verifying, WaitingEvent, true) && Bills(s, s', w.usage, w.generation)
      && NamesCandidate(world, s', w) && s'.winner == s.winner
    case Releasing(_, reported) =>
      && s.row.status in {Running, Verifying} && Wrote(s, s', w, s.row.status, WaitingEvent, true)
      && s'.winner == s.winner
      && (if reported.Some? then Bills(s, s', reported.value, w.generation)
          else s'.landed == s.landed && s'.row.checkpoint == s.row.checkpoint)
    case _ => false
  }

  /**
   * A step of a call writes the row's status at most once, as the owner of the lease and only from its own stage to the
   * next; with it goes the call's usage, once. Every other step leaves status, fence, checkpoint, bill and winner alone.
   */
  lemma StepWritesOnce(world: World, s: State, id: nat, w: Worker, choice: bool, now: int)
    requires Inv(world, s) && id in s.workers && s.workers[id] == w
    ensures var s' := StepWorker(world, s, id, w, choice, now);
            Moves(s, s', id, w, choice) && (Keeps(s, s') || WritesOnce(world, s, s', id, w))
  {
    hide StepWorker, Inv, Moves, Keeps, WritesOnce;
    if Writing(w.pc) {
      WritingStepWritesOnce(world, s, id, w, choice, now);
    } else {
      QuietStep(world, s, id, w, choice, now);
    }
  }

  lemma WritingStepWritesOnce(world: World, s: State, id: nat, w: Worker, choice: bool, now: int)
    requires Inv(world, s) && id in s.workers && s.workers[id] == w && Writing(w.pc)
    ensures var s' := StepWorker(world, s, id, w, choice, now);
            Moves(s, s', id, w, choice) && (Keeps(s, s') || WritesOnce(world, s, s', id, w))
  {
    hide StepWorker, Inv, Moves, Keeps, Wrote, Bills, NamesCandidate, Told, Saw, Continue;
    var s' := StepWorker(world, s, id, w, choice, now);
    WorkerIsOk(world, s, id);
    WritingStep(world, s, id, w, choice, now);
    match w.pc
    case Advancing(seen) => AdvanceWrites(world, s, id, w, seen); MovesAnyway(s, s', id, w, choice);
    case Committing(pre, passed) => CommitWrites(world, s, id, w, pre, passed, choice);
    case Failing(pre, passed) => FailWrites(world, s, id, w, pre, passed); MovesAnyway(s, s', id, w, choice);
    case Waiting(pre, passed) => WaitWrites(world, s, id, w, pre, passed); MovesAnyway(s, s', id, w, choice);
    case Releasing(read, reported) =>
      ReleaseWrites(world, s, id, w, read, reported); MovesAnyway(s, s', id, w, choice);
  }

  /** What the invariant says of a call that is about to write. */
  lemma WorkerIsOk(world: World, s: State, id: nat)
    requires Inv(world, s) && id in s.workers
    ensures var w := s.workers[id];
            match w.pc
            case Advancing(seen) => Saw(s, w, seen)
            case Committing(pre, _) => Saw(s, w, pre)
            case Failing(pre, _) => Saw(s, w, pre)
            case Waiting(pre, _) => Saw(s, w, pre)
            case Releasing(read, _) => Saw(s, w, read)
            case _ => true
  {
    assert WorkerOk(world, s, s.workers[id]);
    hide Inv, Fenced, Frozen, Saw, Missed, Honest;
  }

  // ---------- Histories ----------

  lemma InvAt(world: World, row: Row, states: seq<State>, actions: seq<Action>, i: nat)
    requires Hashing(world) && IsHistory(world, row, states, actions) && i < |states|
    ensures Inv(world, states[i])
    ensures i < |actions| ==> states[i + 1] == Next(world, states[i], actions[i])
  {
    HistoryIsRun(world, row, states, actions, i);
    hide Inv, Run, Next, Start;
    RunOk(world, row, actions[..i]);
  }

  /** At step j of a history the verification of call id ended with this verdict. */
  predicate Verified(states: seq<State>, actions: seq<Action>, j: nat, id: nat, passed: bool) {
    && j < |actions| && j < |states| && actions[j].Step? && actions[j].id == id && actions[j].choice == passed
    && id in states[j].workers && states[j].workers[id].pc == Checking
  }

  /** What any action may do to the verdict that call id carries. */
  lemma VerdictIsCarried(world: World, s: State, a: Action, id: nat)
    requires Inv(world, s) && id in Next(world, s, a).workers
    ensures var pc := Next(world, s, a).workers[id].pc;
            pc.Reloading? || pc.Committing? ==>
              && id in s.workers
              && (s.workers[id] == Next(world, s, a).workers[id]
                  || (a.Step? && a.id == id
                      && (pc.Reloading? ==> s.workers[id].pc == Checking && pc.passed == a.choice)
                      && (pc.Committing? ==> s.workers[id].pc == Reloading(pc.passed))))
  {
    hide StepWorker, Inv, Claim, Renew, Requeue, ForeignJob, MayMirror, Keeps, WritesOnce;
    if a.Step? && a.id in s.workers { StepWritesOnce(world, s, a.id, s.workers[a.id], a.choice, a.now); }
  }

  ghost predicate VerifiedBefore(states: seq<State>, actions: seq<Action>, i: nat, id: nat, passed: bool) {
    exists j :: 0 <= j < i && Verified(states, actions, j, id, passed)
  }

  lemma VerifiedLater(states: seq<State>, actions: seq<Action>, i: nat, id: nat, passed: bool)
    requires i < |actions| && i < |states|
    ensures VerifiedBefore(states, actions, i, id, passed) ==> VerifiedBefore(states, actions, i + 1, id, passed)
    ensures Verified(states, actions, i, id, passed) ==> VerifiedBefore(states, actions, i + 1, id, passed)
  {
  }

  predicate Carries(s: State, id: nat, passed: bool) {
    && id in s.workers && (s.workers[id].pc.Reloading? || s.workers[id].pc.Committing?)
    && s.workers[id].pc.passed == passed
  }

  /** A carried verdict was given by the last action, or carried before it. */
  lemma CarriedFrom(world: World, s: State, a: Action, id: nat, passed: bool)
    requires Inv(world, s) && Carries(Next(world, s, a), id, passed)
    ensures Carries(s, id, passed)
         || (a.Step? && a.id == id && a.choice == passed && id in s.workers && s.workers[id].pc == Checking)
  {
    VerdictIsCarried(world, s, a, id);
    hide Next, Inv;
  }

  /** A call commits on exactly the verdict that its own verification gave earlier. */
  lemma {:induction false} VerdictWasGiven(world: World, row: Row, states: seq<State>, actions: seq<Action>, i: nat,
                                           id: nat, passed: bool)
    requires Hashing(world) && IsHistory(world, row, states, actions) && i < |states| && Carries(states[i], id, passed)
    ensures VerifiedBefore(states, actions, i, id, passed)
  {
    hide *;
    HistoryLength(world, row, states, actions);
    if i == 0 {
      NothingCarriedAtStart(world, row, states, actions, id, passed);
    } else {
      InvAt(world, row, states, actions, i - 1);
      CarriedFrom(world, states[i - 1], actions[i - 1], id, passed);
      VerifiedLater(states, actions, i - 1, id, passed);
      if Carries(states[i - 1], id, passed) {
        VerdictWasGiven(world, row, states, actions, i - 1, id, passed);
      } else {
        GivenHere(states, actions, i - 1, id, passed);
      }
    }
  }

  lemma HistoryLength(world: World, row: Row, states: seq<State>, actions: seq<Action>)
    requires IsHistory(world, row, states, actions)
    ensures |states| == |actions| + 1
  {
    hide Next;
  }

  lemma NothingCarriedAtStart(world: World, row: Row, states: seq<State>, actions: seq<Action>, id: nat, passed: bool)
    requires IsHistory(world, row, states, actions)
    ensures !Carries(states[0], id, passed)
  {
    hide Next;
  }

  lemma GivenHere(states: seq<State>, actions: seq<Action>, j: nat, id: nat, passed: bool)
    requires j < |actions| && j < |states| && actions[j].Step? && actions[j].id == id && actions[j].choice == passed
    requires id in states[j].workers && states[j].workers[id].pc == Checking
    ensures Verified(states, actions, j, id, passed)
  {
  }

  lemma StepIs(world: World, s: State, id: nat, choice: bool, now: int)
    requires id in s.workers
    ensures Next(world, s, Step(id, choice, now)) == StepWorker(world, s, id, s.workers[id], choice, now)
  {
    hide StepWorker;
  }

  /** Claims, renewals, sweeps and job writes end no mission. */
  lemma EnvironmentEndsNothing(world: World, s: State, a: Action)
    requires Unowned(s.row) && !(a.Step? && a.id in s.workers)
    ensures Next(world, s, a).winner == s.winner
    ensures Next(world, s, a).row.status == Complete ==> s.row.status == Complete
    ensures Next(world, s, a).row.checkpoint == s.row.checkpoint && Next(world, s, a).landed == s.landed
  {
    hide Claim, Renew, Requeue, ForeignJob, MayMirror, Later;
    match a
    case ClaimLease(token, expectGeneration, expires, now) =>
      ClaimIsLater(s.row, token, expectGeneration, expires, now);
      assert Terminal(Complete);
    case RenewLease(token, generation, expires) => RenewIsLater(s.row, token, generation, expires);
    case Sweep(status, version, generation, expires, now) =>
      RequeueIsLater(s.row, Expect(status, version, generation, None), expires, now);
      SweepsOnlyTheExpired(s.row, Expect(status, version, generation, None), expires, now);
    case _ =>
  }

  /**
   * A mission is completed, and a winner named, only by the commit of a call whose own verification passed before;
   * the winner is that call with its candidate.
   */
  lemma CompletedOnAVerdict(world: World, row: Row, states: seq<State>, actions: seq<Action>, i: nat)
    requires Hashing(world) && IsHistory(world, row, states, actions) && i < |actions|
    requires Completes(states[i], states[i + 1])
    ensures actions[i].Step? && actions[i].id in states[i].workers
    ensures states[i].row.status == Verifying && states[i + 1].row.status == Complete
    ensures states[i + 1].winner == Some(Winner(actions[i].id, states[i].workers[actions[i].id].text))
    ensures VerifiedBefore(states, actions, i, actions[i].id, true)
  {
    var s, a := states[i], actions[i];
    InvAt(world, row, states, actions, i);
    hide Inv, IsHistory, VerifiedBefore, Hashing, Next;
    CompletingStep(world, s, a);
    VerdictWasGiven(world, row, states, actions, i, a.id, true);
  }

  predicate Completes(s: State, s': State) {
    s'.winner != s.winner || (s'.row.status == Complete && s.row.status != Complete)
  }

  lemma OnlyPassedCommitsComplete(world: World, s: State, s': State, id: nat, w: Worker)
    requires (Keeps(s, s') || WritesOnce(world, s, s', id, w)) && Completes(s, s')
    ensures w.pc.Committing? && w.pc.passed && s.row.status == Verifying && s'.row.status == Complete
    ensures s'.winner == Some(Winner(id, w.text))
  {
    hide Bills, NamesCandidate;
  }

  lemma CompletingStep(world: World, s: State, a: Action)
    requires Inv(world, s) && Completes(s, Next(world, s, a))
    ensures a.Step? && Carries(s, a.id, true) && s.row.status == Verifying && Next(world, s, a).row.status == Complete
    ensures Next(world, s, a).winner == Some(Winner(a.id, s.workers[a.id].text))
  {
    assert Unowned(s.row);
    hide Inv, StepWorker, Moves, Keeps, WritesOnce, Next;
    if a.Step? && a.id in s.workers {
      StepWritesOnce(world, s, a.id, s.workers[a.id], a.choice, a.now);
      StepIs(world, s, a.id, a.choice, a.now);
      OnlyPassedCommitsComplete(world, s, Next(world, s, a), a.id, s.workers[a.id]);
    } else {
      EnvironmentEndsNothing(world, s, a);
    }
  }

  /**
   * The commit of a call in every history: a passed candidate whose call still meets the row it read completes the
   * mission, wins it and is the text of the reply; in any other case status, fence, checkpoint, bill and winner stay.
   */
  lemma CommitDecides(world: World, row: Row, states: seq<State>, actions: seq<Action>, i: nat, pre: Row, passed: bool)
    requires Hashing(world) && IsHistory(world, row, states, actions) && i < |actions|
    requires actions[i].Step? && actions[i].id in states[i].workers
    requires states[i].workers[actions[i].id].pc == Committing(pre, passed)
    ensures var s, s', id := states[i], states[i + 1], actions[i].id;
            var w := s.workers[id];
            && id in s'.workers
            && if passed && s.row.status == Verifying && s.row.version == pre.version
                  && s.row.generation == pre.generation && s.row.token == w.token != ""
               then && s'.row.status == Complete && s'.row.token == "" && s'.row.generation == s.row.generation + 1
                    && NamesCandidate(world, s', w) && Bills(s, s', w.usage, w.generation)
                    && s'.winner == Some(Winner(id, w.text))
                    && Told(s'.workers[id].pc, world, SaysComplete, Complete, w.text)
               else Keeps(s, s')
  {
    var s, id := states[i], actions[i].id;
    InvAt(world, row, states, actions, i);
    WorkerIsOk(world, s, id);
    hide Inv, IsHistory, Commit, Keeps, Bills, NamesCandidate, Told, Saw;
    assert states[i + 1] == StepWorker(world, s, id, s.workers[id], actions[i].choice, actions[i].now);
    WritingStep(world, s, id, s.workers[id], actions[i].choice, actions[i].now);
    hide StepWorker, Next;
    CommitWrites(world, s, id, s.workers[id], pre, passed, actions[i].choice);
  }

  /**
   * A call that finds its lease gone, its envelope unbound, its advance refused or its closing write fenced out stops: it
   * reports the status it finds and asks to continue, or reads out how the mission ended. Nothing else changes.
   */
  lemma LostCallsStop(world: World, s: State, id: nat, w: Worker, choice: bool, now: int)
    requires id in s.workers && s.workers[id] == w && w.token != ""
    requires w.pc.Heartbeating? || w.pc.Refreshing? || w.pc.Reloading? ==>
               w.token != s.row.token || w.generation != s.row.generation
    requires || w.pc.Heartbeating? || w.pc.Refreshing? || w.pc.Reloading? || w.pc == Advanced(false)
             || w.pc.Unbound? || w.pc.Conflicted? || w.pc == Rested(false)
    ensures var ended := s.row.status in {Complete, Failed, BudgetExhausted, Cancelled};
            var readsOut := if w.pc.Reloading? then s.row.status == Complete
                            else ended && (w.pc.Unbound? || w.pc.Conflicted? || w.pc.Rested?);
            StepWorker(world, s, id, w, choice, now)
            == At(s, id, w, if readsOut then Projecting(s.row)
                            else Done(Payload(SaysContinue, world.jobId, world.acceptanceHash, Some(s.row.status), "")))
  {
  }

  /**
   * What is not a step of a call: a new call begins at its start, everything else leaves all calls alone. Claims,
   * renewals and sweeps are the transactions of the store on the row, and only a reply that its own generation released
   * is mirrored into the job.
   */
  lemma OthersAct(world: World, s: State, a: Action, id: nat)
    requires !a.Step?
    ensures var s' := Next(world, s, a);
            && s' == s.(row := s'.row, workers := s'.workers, job := s'.job)
            && (id in s.workers ==> id in s'.workers && s'.workers[id] == s.workers[id])
            && (id !in s.workers && id in s'.workers ==> (a.Seal? || a.Abandon?) && a.id == id)
            && (a.Seal? || a.Abandon? ==> s'.row == s.row && s'.job == s.job && a.id in s'.workers)
            && (a.Seal? && a.id !in s.workers ==>
                  s'.workers[a.id] == Worker(a.generation, a.token, a.text, a.usage, a.envelope, a.ttl, Loading))
            && (a.Abandon? && a.id !in s.workers ==>
                  s'.workers[a.id] == Worker(a.generation, a.token, "", Null, 0, 0, Abandoning(a.reported)))
            && (a.ClaimLease? ==> s'.row == Claim(s.row, a.token, a.expectGeneration, a.expires, a.now).GetOr(s.row))
            && (a.RenewLease? ==> s'.row == Renew(s.row, a.token, a.generation, a.expires).GetOr(s.row))
            && (a.WriteJob? || a.MirrorReply? ==> s'.row == s.row)
            && (a.WriteJob? && s'.job != s.job ==>
                  && s'.job == Some(a.job)
                  && (a.job.payload.Some? ==> a.job.payload.value.mission != Some(Complete)))
            && (a.MirrorReply? && s'.job != s.job ==>
                  && a.id in s.workers && s.workers[a.id].pc.Done?
                  && var reply := s.workers[a.id].pc.reply;
                     && reply.mission == Some(s.row.status) && s.row.generation == s.workers[a.id].generation + 1
                     && s.row.status in {Complete, Failed, BudgetExhausted, Cancelled, WaitingEvent}
                     && s'.job.Some? && s'.job.value.payload == Some(reply.(text := world.jobText(reply.text)))
                     && s'.job.value.status
                        == if reply.status == SaysError then SaysError
                           else if reply.status == SaysComplete || reply.status == SaysOther("") then SaysComplete
                           else SaysOther("needs_continuation"))
  {
    hide Claim, Renew, Requeue;
  }
}
