/** What every step of the sealing protocol keeps, and so what holds in every reachable state. */
module EpochSafety {
  import opened Wrappers
  import opened Values
  import opened MissionStore
  import opened Epoch
  import opened BillingLedger

  // ---------- The winner's text ----------

  function Restored(world: World, text: string, times: nat): string {
    if times == 0 then text else world.jobText(Restored(world, text, times - 1))
  }

  /** The winner's candidate or its stored projection, passed through the job table any number of times. */
  ghost predicate Tells(world: World, winner: Option<Winner>, text: string) {
    winner.Some? && exists n: nat ::
      || text == Restored(world, winner.value.text, n)
      || text == Restored(world, world.redact(world.project(winner.value.text)), n)
  }

  ghost predicate Honest(world: World, winner: Option<Winner>, p: Payload) {
    p.status == SaysComplete ==> Tells(world, winner, p.text)
  }

  lemma RestoredTells(world: World, winner: Option<Winner>, text: string)
    requires Tells(world, winner, text)
    ensures Tells(world, winner, world.jobText(text))
  {
    var n: nat :| text == Restored(world, winner.value.text, n)
               || text == Restored(world, world.redact(world.project(winner.value.text)), n);
    assert world.jobText(text) == Restored(world, winner.value.text, n + 1)
        || world.jobText(text) == Restored(world, world.redact(world.project(winner.value.text)), n + 1);
  }

  lemma WinnerTells(world: World, winner: Winner)
    ensures Tells(world, Some(winner), winner.text)
    ensures Tells(world, Some(winner), world.redact(world.project(winner.text)))
  {
    assert winner.text == Restored(world, winner.text, 0);
    assert world.redact(world.project(winner.text))
        == Restored(world, world.redact(world.project(winner.text)), 0);
  }

  // ---------- The invariant ----------

  /** The call owned the lease when it froze its candidate, and owns it as long as the generation lasts. */
  predicate Fenced(s: State, w: Worker) {
    && w.token != "" && w.generation <= s.row.generation
    && (w.generation == s.row.generation ==> s.row.token == w.token)
  }

  predicate Frozen(world: World, s: State, w: Worker) {
    w.generation == s.row.generation ==> world.digest(world.project(w.text)) in s.artifacts
  }

  predicate Saw(s: State, w: Worker, r: Row) {
    Later(r, s.row) && r.generation == w.generation && r.token == w.token
  }

  predicate Missed(s: State, w: Worker, pre: Row) { !Meets(s.row, Owner(w, Verifying, pre)) }

  ghost predicate WorkerOk(world: World, s: State, w: Worker) {
    match w.pc
    case Freezing => Fenced(s, w)
    case Refreshing => Fenced(s, w) && Frozen(world, s, w)
    case Binding(r) => Fenced(s, w) && Frozen(world, s, w) && Saw(s, w, r)
    case Advancing(r) => Fenced(s, w) && Frozen(world, s, w) && Saw(s, w, r)
    case Advanced(_) => Fenced(s, w) && Frozen(world, s, w)
    case Checking => Fenced(s, w) && Frozen(world, s, w)
    case Reloading(_) => Fenced(s, w) && Frozen(world, s, w)
    case Committing(pre, _) => Fenced(s, w) && Frozen(world, s, w) && Saw(s, w, pre)
    case Failing(pre, passed) => Saw(s, w, pre) && (passed ==> Missed(s, w, pre))
    case Waiting(pre, passed) => Saw(s, w, pre) && (passed ==> Missed(s, w, pre))
    case SavingJob(reply) => Honest(world, s.winner, reply)
    case Projecting(r) => Terminal(r.status) && Later(r, s.row)
    case Fetching(r) => Terminal(r.status) && Later(r, s.row)
    case Releasing(r, _) => Saw(s, w, r)
    case Done(reply) => Honest(world, s.winner, reply)
    case _ => true
  }

  /** Durability before visibility: a complete row names an artifact that is already stored. */
  ghost predicate Durable(world: World, s: State) {
    s.row.status == Complete ==>
      && s.winner.Some?
      && s.row.checkpoint.projectionHash == world.digest(world.project(s.winner.value.text))
      && s.row.checkpoint.projectionHash in s.artifacts
      && s.artifacts[s.row.checkpoint.projectionHash] == world.redact(world.project(s.winner.value.text))
  }

  ghost predicate ArtifactsOk(world: World, s: State) {
    forall p :: world.digest(p) in s.artifacts ==> s.artifacts[world.digest(p)] == world.redact(p)
  }

  ghost predicate JobOk(world: World, s: State) {
    s.job.Some? && s.job.value.payload.Some? && s.job.value.payload.value.mission == Some(Complete) ==>
      Honest(world, s.winner, s.job.value.payload.value)
  }

  predicate Billed(s: State) {
    && s.row.checkpoint.billing == Stored(s.landed)
    && NonDecreasing(s.landed) && s.row.generation >= 1
    && forall i :: 0 <= i < |s.landed| ==> 1 <= s.landed[i].generation <= s.row.generation
  }

  predicate WritesOk(s: State) {
    && s.terminals == (if Terminal(s.row.status) then 1 else 0)
    && (s.winner.Some? <==> s.row.status == Complete)
    && forall i :: 0 <= i < |s.writes| && s.writes[i].passed ==> s.writes[i].status == Complete
  }

  ghost predicate SharedOk(world: World, s: State) {
    && Unowned(s.row) && Durable(world, s) && ArtifactsOk(world, s) && JobOk(world, s)
    && Billed(s) && WritesOk(s)
  }

  ghost predicate Inv(world: World, s: State) {
    SharedOk(world, s) && forall id :: id in s.workers ==> WorkerOk(world, s, s.workers[id])
  }

  // ---------- Interference ----------

  /** What any step may do to the state the other calls rely on. */
  predicate Progress(s: State, s': State) {
    && Later(s.row, s'.row) && s.artifacts.Keys <= s'.artifacts.Keys
    && (s.winner.Some? ==> s'.winner == s.winner)
  }

  lemma MissedStaysMissed(s: State, s': State, w: Worker, pre: Row)
    requires Later(s.row, s'.row) && Saw(s, w, pre) && Missed(s, w, pre)
    ensures Missed(s', w, pre)
  {
  }

  lemma OwnershipFrame(world: World, s: State, s': State, w: Worker)
    requires Progress(s, s')
    ensures Fenced(s, w) ==> Fenced(s', w)
    ensures Fenced(s, w) && Frozen(world, s, w) ==> Frozen(world, s', w)
  {
  }

  lemma SeenFrame(s: State, s': State, w: Worker, r: Row)
    requires Progress(s, s')
    ensures Later(r, s.row) ==> Later(r, s'.row)
    ensures Saw(s, w, r) ==> Saw(s', w, r)
    ensures Saw(s, w, r) && Missed(s, w, r) ==> Missed(s', w, r)
  {
    if Later(r, s.row) { LaterTransitive(r, s.row, s'.row); }
    if Saw(s, w, r) && Missed(s, w, r) { MissedStaysMissed(s, s', w, r); }
  }

  lemma HonestFrame(world: World, s: State, s': State, p: Payload)
    requires Progress(s, s')
    ensures Honest(world, s.winner, p) ==> Honest(world, s'.winner, p)
  {
  }

  lemma WorkerFrame(world: World, s: State, s': State, w: Worker)
    requires Progress(s, s') && WorkerOk(world, s, w)
    ensures WorkerOk(world, s', w)
  {
    hide Progress, Fenced, Frozen, Saw, Missed, Honest, Later;
    OwnershipFrame(world, s, s', w);
    match w.pc
    case Binding(r) => SeenFrame(s, s', w, r);
    case Advancing(r) => SeenFrame(s, s', w, r);
    case Committing(pre, _) => SeenFrame(s, s', w, pre);
    case Failing(pre, _) => SeenFrame(s, s', w, pre);
    case Waiting(pre, _) => SeenFrame(s, s', w, pre);
    case Projecting(r) => SeenFrame(s, s', w, r);
    case Fetching(r) => SeenFrame(s, s', w, r);
    case Releasing(r, _) => SeenFrame(s, s', w, r);
    case SavingJob(reply) => HonestFrame(world, s, s', reply);
    case Done(reply) => HonestFrame(world, s, s', reply);
    case _ =>
  }

  /** A step of one call: the shared state stays good and so does the call. */
  ghost predicate StepOk(world: World, s: State, s': State, id: nat) {
    && id in s'.workers && s'.workers == s.workers[id := s'.workers[id]]
    && Progress(s, s') && SharedOk(world, s') && WorkerOk(world, s', s'.workers[id])
  }

  // ---------- Each step ----------

  /** A write that meets remembered expectations meets the row they were read from. */
  lemma SeenIsCurrent(s: State, w: Worker, seen: Row, e: Expect)
    requires Saw(s, w, seen) && e.version == seen.version && e.generation == seen.generation
    requires Meets(s.row, e)
    ensures s.row.checkpoint == seen.checkpoint && s.row.status == seen.status
  {
  }

  /** One more delivery, by the current generation, onto the checkpoint it was computed from. */
  lemma LandsBilled(landed: seq<Delivery>, raw: Value, d: Delivery, generation: nat, generation': nat)
    requires raw == Stored(landed) && NonDecreasing(landed)
    requires forall i :: 0 <= i < |landed| ==> 1 <= landed[i].generation <= generation
    requires 1 <= d.generation == generation <= generation'
    ensures Deliver(raw, d) == Stored(landed + [d]) && NonDecreasing(landed + [d])
    ensures forall i :: 0 <= i < |landed + [d]| ==> 1 <= (landed + [d])[i].generation <= generation'
  {
    hide Deliver;
    assert (landed + [d])[..|landed|] == landed;
  }

  /** A write by the call that owns the lease bills onto the checkpoint it was computed from. */
  lemma WriteBills(world: World, s: State, w: Worker, pre: Row, next: Status, bump: bool)
    requires Billed(s) && Unowned(s.row) && Saw(s, w, pre) && Meets(s.row, Owner(w, Verifying, pre))
    requires Legal(Verifying, next)
    ensures var row := CompareAndSet(s.row, Owner(w, Verifying, pre), next, true, Sealed(world, w, pre), bump);
            && row.Some? && Billed(Land(s.(row := row.value), w))
            && Later(s.row, row.value) && Unowned(row.value)
            && row.value.status == next && s.row.status == Verifying && s.row.checkpoint == pre.checkpoint
            && row.value.generation == s.row.generation + 1
            && (row.value.checkpoint.candidateHash, row.value.checkpoint.projectionHash) == Hashes(world, w)
  {
    hide Stored, Deliver, Legal, NonDecreasing;
    var e := Owner(w, Verifying, pre);
    SeenIsCurrent(s, w, pre, e);
    CasIsLater(s.row, e, next, true, Sealed(world, w, pre), bump);
    LandsBilled(s.landed, s.row.checkpoint.billing, Delivery(w.usage, w.generation),
                s.row.generation, s.row.generation + 1);
  }

  /** Billing does not depend on calls, jobs, winners or the record of writes. */
  lemma BilledFrame(s: State, s': State)
    requires Billed(s) && s'.row == s.row && s'.landed == s.landed
    ensures Billed(s')
  {
    hide Stored, NonDecreasing;
  }

  lemma FreezeOk(world: World, s: State, id: nat, w: Worker)
    requires Hashing(world) && SharedOk(world, s) && id in s.workers && s.workers[id] == w
    requires w.pc == Freezing && WorkerOk(world, s, w)
    ensures StepOk(world, s, Freeze(world, s, id, w), id)
  {
    hide Stored;
    var s' := Freeze(world, s, id, w);
    var p := world.project(w.text);
    forall q | world.digest(q) in s'.artifacts ensures s'.artifacts[world.digest(q)] == world.redact(q) {
      if world.digest(q) !in s.artifacts {
        assert world.digest(q) == world.digest(p);
      }
    }
  }

  lemma AdvanceOk(world: World, s: State, id: nat, w: Worker, seen: Row)
    requires SharedOk(world, s) && id in s.workers && s.workers[id] == w
    requires w.pc == Advancing(seen) && WorkerOk(world, s, w)
    ensures StepOk(world, s, Advance(s, id, w, seen), id)
  {
    LegalMoves();
    hide Stored, Deliver, Legal, NonDecreasing;
    var e := Expect(Running, seen.version, w.generation, Some(w.token));
    if seen.status == Running && Meets(s.row, e) {
      SeenIsCurrent(s, w, seen, e);
      CasIsLater(s.row, e, Verifying, false, Update(None, Some(BilledFrom(w, seen))), false);
      LandsBilled(s.landed, s.row.checkpoint.billing, Delivery(w.usage, w.generation),
                  s.row.generation, s.row.generation);
    }
  }

  lemma MissMeansNone(world: World, s: State, w: Worker, pre: Row, next: Status, bump: bool)
    requires !Meets(s.row, Owner(w, Verifying, pre))
    ensures CompareAndSet(s.row, Owner(w, Verifying, pre), next, true, Sealed(world, w, pre), bump) == None
  {
  }

  lemma StaysLater(r: Row)
    ensures Later(r, r)
  {
  }

  lemma CommitOk(world: World, s: State, id: nat, w: Worker, pre: Row, passed: bool, terminal: bool)
    requires SharedOk(world, s) && id in s.workers && s.workers[id] == w
    requires w.pc == Committing(pre, passed) && WorkerOk(world, s, w)
    ensures StepOk(world, s, Commit(world, s, id, w, pre, passed, terminal), id)
  {
    LegalMoves();
    hide Legal, Restored, Billed, CompareAndSet, Sealed, Later, Unowned;
    if passed && Meets(s.row, Owner(w, Verifying, pre)) {
      WriteBills(world, s, w, pre, Complete, false);
      var row := CompareAndSet(s.row, Owner(w, Verifying, pre), Complete, true, Sealed(world, w, pre), false).value;
      BilledFrame(Land(s.(row := row), w), Commit(world, s, id, w, pre, passed, terminal));
      WinnerTells(world, Winner(id, w.text));
    } else {
      if passed { MissMeansNone(world, s, w, pre, Complete, false); }
      BilledFrame(s, Commit(world, s, id, w, pre, passed, terminal));
      StaysLater(s.row);
    }
  }

  lemma FailOk(world: World, s: State, id: nat, w: Worker, pre: Row, passed: bool)
    requires SharedOk(world, s) && id in s.workers && s.workers[id] == w
    requires w.pc == Failing(pre, passed) && WorkerOk(world, s, w)
    ensures StepOk(world, s, Fail(world, s, id, w, pre, passed), id)
  {
    LegalMoves();
    hide Legal, Tells, Billed, CompareAndSet, Sealed, Later, Unowned;
    if Meets(s.row, Owner(w, Verifying, pre)) {
      WriteBills(world, s, w, pre, Failed, true);
      var row := CompareAndSet(s.row, Owner(w, Verifying, pre), Failed, true, Sealed(world, w, pre), true).value;
      BilledFrame(Land(s.(row := row), w), Fail(world, s, id, w, pre, passed));
    } else {
      MissMeansNone(world, s, w, pre, Failed, true);
      BilledFrame(s, Fail(world, s, id, w, pre, passed));
      StaysLater(s.row);
    }
  }

  lemma WaitOk(world: World, s: State, id: nat, w: Worker, pre: Row, passed: bool)
    requires SharedOk(world, s) && id in s.workers && s.workers[id] == w
    requires w.pc == Waiting(pre, passed) && WorkerOk(world, s, w)
    ensures StepOk(world, s, Wait(world, s, id, w, pre, passed), id)
  {
    LegalMoves();
    hide Legal, Tells, Billed, CompareAndSet, Sealed, Later, Unowned;
    if Meets(s.row, Owner(w, Verifying, pre)) {
      WriteBills(world, s, w, pre, WaitingEvent, true);
      var row := CompareAndSet(s.row, Owner(w, Verifying, pre), WaitingEvent, true, Sealed(world, w, pre), true).value;
      BilledFrame(Land(s.(row := row), w), Wait(world, s, id, w, pre, passed));
    } else {
      MissMeansNone(world, s, w, pre, WaitingEvent, true);
      BilledFrame(s, Wait(world, s, id, w, pre, passed));
      StaysLater(s.row);
    }
  }

  lemma ReleaseOk(world: World, s: State, id: nat, w: Worker, r: Row, reported: Option<Value>)
    requires SharedOk(world, s) && id in s.workers && s.workers[id] == w
    requires w.pc == Releasing(r, reported) && WorkerOk(world, s, w)
    ensures StepOk(world, s, Release(world, s, id, w, r, reported), id)
  {
    LegalMoves();
    ContinueIsHonest(world, s, w);
    hide Stored, Deliver, Legal, Tells, Reread, Continue, NonDecreasing;
    var e := Owner(w, r.status, r);
    var d := Delivery(reported.GetOr(Null), w.generation);
    if Legal(r.status, WaitingEvent) && Meets(s.row, e) {
      SeenIsCurrent(s, w, r, e);
      var billing := if reported.Some? then Some(Deliver(r.checkpoint.billing, d)) else None;
      CasIsLater(s.row, e, WaitingEvent, true, Update(None, billing), false);
      LandsBilled(s.landed, s.row.checkpoint.billing, d, s.row.generation, s.row.generation + 1);
      SaysContinueIsHonest(world, WaitingEvent, s.winner);
    } else {
      RereadOk(world, s, id, w);
    }
  }

  lemma SaveJobOk(world: World, s: State, id: nat, w: Worker, reply: Payload, lost: bool)
    requires SharedOk(world, s) && id in s.workers && s.workers[id] == w
    requires w.pc == SavingJob(reply) && WorkerOk(world, s, w)
    ensures StepOk(world, s, SaveJob(world, s, id, w, reply, lost), id)
  {
    hide Stored;
    if reply.status == SaysComplete { RestoredTells(world, s.winner, reply.text); }
  }

  lemma FetchOk(world: World, s: State, id: nat, w: Worker, r: Row)
    requires Hashing(world) && SharedOk(world, s) && id in s.workers && s.workers[id] == w
    requires w.pc == Fetching(r) && WorkerOk(world, s, w)
    ensures StepOk(world, s, At(s, id, w, Done(Rebuilt(world, s.artifacts, r))), id)
    ensures r.status == Complete ==> ProjectionOf(r) != "" && ProjectionOf(r) in s.artifacts
  {
    hide Stored, NonDecreasing, Tells;
    if r.status == Complete { WinnerTells(world, s.winner.value); }
  }

  lemma BeatOk(world: World, s: State, id: nat, w: Worker, now: int)
    requires SharedOk(world, s) && id in s.workers && s.workers[id] == w
    ensures StepOk(world, s, Beat(world, s, id, w, now), id)
  {
    hide Stored, NonDecreasing, Tells;
    RenewIsLater(s.row, w.token, w.generation, now + w.ttl);
  }

  lemma BindOk(world: World, s: State, id: nat, w: Worker, seen: Row)
    requires SharedOk(world, s) && id in s.workers && s.workers[id] == w
    requires w.pc == Binding(seen) && WorkerOk(world, s, w)
    ensures StepOk(world, s, Bind(s, id, w, seen), id)
  {
    hide Stored;
    TouchIsLater(s.row, w.token, w.generation, w.envelope);
  }

  /** A step that only moves its own call on. */
  lemma QuietOk(world: World, s: State, id: nat, w: Worker)
    requires SharedOk(world, s) && WorkerOk(world, s, w)
    ensures StepOk(world, s, s.(workers := s.workers[id := w]), id)
  {
    hide Stored;
    var s' := s.(workers := s.workers[id := w]);
    assert Progress(s, s') && SharedOk(world, s');
    hide *;
    WorkerFrame(world, s, s', w);
  }

  lemma ProjectOk(world: World, s: State, id: nat, w: Worker, r: Row)
    requires SharedOk(world, s) && w.pc == Projecting(r) && WorkerOk(world, s, w)
    ensures StepOk(world, s, Project(world, s, id, w, r), id)
  {
    hide Stored, Durable, ArtifactsOk, Billed;
    QuietOk(world, s, id, w.(pc := if Speaks(world, s.job, r) then Done(s.job.value.payload.value)
                                   else Fetching(r)));
  }

  lemma RereadOk(world: World, s: State, id: nat, w: Worker)
    requires SharedOk(world, s)
    ensures StepOk(world, s, Reread(world, s, id, w), id)
  {
    hide SharedOk, StepOk, Terminal, WorkerOk, Continue;
    if Terminal(s.row.status) {
      ProjectingOk(world, s, w);
      QuietOk(world, s, id, w.(pc := Projecting(s.row)));
    } else {
      ContinueIsHonest(world, s, w);
      QuietOk(world, s, id, w.(pc := Done(Continue(world, s.row.status))));
    }
  }

  lemma SaysContinueIsHonest(world: World, status: Status, winner: Option<Winner>)
    ensures Honest(world, winner, Continue(world, status))
  {
  }

  lemma ContinueIsHonest(world: World, s: State, w: Worker)
    ensures WorkerOk(world, s, w.(pc := Done(Continue(world, s.row.status))))
  {
  }

  lemma ProjectingOk(world: World, s: State, w: Worker)
    requires Terminal(s.row.status)
    ensures WorkerOk(world, s, w.(pc := Projecting(s.row)))
  {
  }

  /** A call that owns the lease, and finds so in the row it reads, remembers that row. */
  lemma OwnerOk(world: World, s: State, w: Worker, passed: bool)
    requires Fenced(s, w) && Frozen(world, s, w) && s.row.generation == w.generation && s.row.token == w.token
    ensures WorkerOk(world, s, w.(pc := Binding(s.row)))
    ensures WorkerOk(world, s, w.(pc := Committing(s.row, passed)))
  {
  }

  lemma ReleasingOk(world: World, s: State, w: Worker, reported: Option<Value>)
    requires s.row.generation == w.generation && s.row.token == w.token
    ensures WorkerOk(world, s, w.(pc := Releasing(s.row, reported)))
  {
  }

  lemma LoadOk(world: World, s: State, id: nat, w: Worker)
    requires SharedOk(world, s)
    ensures StepOk(world, s, Load(world, s, id, w), id)
  {
    hide SharedOk, StepOk, Terminal, WorkerOk, Continue;
    if Terminal(s.row.status) {
      ProjectingOk(world, s, w);
      QuietOk(world, s, id, w.(pc := Projecting(s.row)));
    } else {
      ContinueIsHonest(world, s, w);
      QuietOk(world, s, id, w.(pc := Done(Continue(world, s.row.status))));
      var w' := w.(token := if w.token != "" then w.token else s.row.token, pc := Heartbeating);
      AnyBeatOk(world, s, w');
      QuietOk(world, s, id, w');
    }
  }

  lemma AnyBeatOk(world: World, s: State, w: Worker)
    requires w.pc == Heartbeating
    ensures WorkerOk(world, s, w)
  {
  }

  lemma RefreshOk(world: World, s: State, id: nat, w: Worker)
    requires SharedOk(world, s) && w.pc.Refreshing? && WorkerOk(world, s, w)
    ensures StepOk(world, s, Refresh(world, s, id, w), id)
  {
    assert Fenced(s, w) && Frozen(world, s, w);
    hide SharedOk, StepOk, Fenced, Frozen, WorkerOk, Continue;
    if w.generation != s.row.generation || w.token != s.row.token {
      ContinueIsHonest(world, s, w);
      QuietOk(world, s, id, w.(pc := Done(Continue(world, s.row.status))));
    } else {
      OwnerOk(world, s, w, false);
      QuietOk(world, s, id, w.(pc := Binding(s.row)));
    }
  }

  lemma ReloadOk(world: World, s: State, id: nat, w: Worker, passed: bool)
    requires SharedOk(world, s) && w.pc == Reloading(passed) && WorkerOk(world, s, w)
    ensures StepOk(world, s, Reload(world, s, id, w, passed), id)
  {
    assert Fenced(s, w) && Frozen(world, s, w) && Terminal(Complete);
    hide SharedOk, StepOk, Terminal, Fenced, Frozen, WorkerOk, Continue;
    if s.row.status == Complete {
      ProjectingOk(world, s, w);
      QuietOk(world, s, id, w.(pc := Projecting(s.row)));
    } else if s.row.generation != w.generation || w.token != s.row.token {
      ContinueIsHonest(world, s, w);
      QuietOk(world, s, id, w.(pc := Done(Continue(world, s.row.status))));
    } else {
      OwnerOk(world, s, w, passed);
      QuietOk(world, s, id, w.(pc := Committing(s.row, passed)));
    }
  }

  lemma ReadForReleaseOk(world: World, s: State, id: nat, w: Worker, reported: Option<Value>)
    requires SharedOk(world, s)
    ensures StepOk(world, s, ReadForRelease(world, s, id, w, reported), id)
  {
    hide SharedOk, StepOk, Terminal, WorkerOk, Continue;
    if Terminal(s.row.status) {
      ProjectingOk(world, s, w);
      QuietOk(world, s, id, w.(pc := Projecting(s.row)));
    } else if s.row.token != w.token || s.row.generation != w.generation {
      ContinueIsHonest(world, s, w);
      QuietOk(world, s, id, w.(pc := Done(Continue(world, s.row.status))));
    } else {
      ReleasingOk(world, s, w, reported);
      QuietOk(world, s, id, w.(pc := Releasing(s.row, reported)));
    }
  }

  /** The steps that neither read nor write the store, and the plain replies. */
  lemma QuietCases(world: World, s: State, id: nat, w: Worker, choice: bool)
    requires SharedOk(world, s) && WorkerOk(world, s, w) && id in s.workers && s.workers[id] == w
    ensures StepOk(world, s, At(s, id, w, Done(Continue(world, s.row.status))), id)
    ensures w.pc.Advanced? ==> StepOk(world, s, At(s, id, w, Checking), id)
    ensures w.pc.Checking? ==> StepOk(world, s, At(s, id, w, Reloading(choice)), id)
    ensures StepOk(world, s, s, id)
  {
    hide SharedOk, StepOk;
    QuietOk(world, s, id, w.(pc := Done(Continue(world, s.row.status))));
    if w.pc.Advanced? { QuietOk(world, s, id, w.(pc := Checking)); }
    if w.pc.Checking? { QuietOk(world, s, id, w.(pc := Reloading(choice))); }
    assert s == s.(workers := s.workers[id := w]);
    QuietOk(world, s, id, w);
  }

  lemma StepWorkerOk(world: World, s: State, id: nat, choice: bool, now: int)
    requires Hashing(world) && Inv(world, s) && id in s.workers
    ensures StepOk(world, s, StepWorker(world, s, id, s.workers[id], choice, now), id)
  {
    OneCallOk(world, s, id, s.workers[id], choice, now);
  }

  lemma OneCallOk(world: World, s: State, id: nat, w: Worker, choice: bool, now: int)
    requires Hashing(world) && SharedOk(world, s) && WorkerOk(world, s, w)
    requires id in s.workers && s.workers[id] == w
    ensures StepOk(world, s, StepWorker(world, s, id, w, choice, now), id)
  {
    hide SharedOk, StepOk, WorkerOk, Hashing, Beat, Freeze, Bind, Advance, Commit, Fail, Wait, Release,
      SaveJob, Project, Rebuilt, Reread, Load, Refresh, Reload, ReadForRelease, At, Continue;
    QuietCases(world, s, id, w, choice);
    match w.pc
    case Heartbeating => BeatOk(world, s, id, w, now);
    case Freezing => FreezeOk(world, s, id, w);
    case Binding(seen) => BindOk(world, s, id, w, seen);
    case Advancing(seen) => AdvanceOk(world, s, id, w, seen);
    case Committing(pre, passed) => CommitOk(world, s, id, w, pre, passed, choice);
    case Failing(pre, passed) => FailOk(world, s, id, w, pre, passed);
    case Waiting(pre, passed) => WaitOk(world, s, id, w, pre, passed);
    case Releasing(r, reported) => ReleaseOk(world, s, id, w, r, reported);
    case SavingJob(reply) => SaveJobOk(world, s, id, w, reply, choice);
    case Fetching(r) => FetchOk(world, s, id, w, r);
    case Projecting(r) => ProjectOk(world, s, id, w, r);
    case Unbound => RereadOk(world, s, id, w);
    case Conflicted => RereadOk(world, s, id, w);
    case Rested(ok) => if !ok { RereadOk(world, s, id, w); }
    case Advanced(ok) =>
    case Checking =>
    case Done(_) =>
    case Loading => LoadOk(world, s, id, w);
    case Refreshing => RefreshOk(world, s, id, w);
    case Reloading(passed) => ReloadOk(world, s, id, w, passed);
    case Abandoning(reported) => ReadForReleaseOk(world, s, id, w, reported);
  }

  // ---------- Runs ----------

  /** A write to the row that is neither terminal nor a checkpoint update. */
  lemma RowOk(world: World, s: State, row: Row)
    requires SharedOk(world, s) && Later(s.row, row) && Unowned(row) && row.checkpoint == s.row.checkpoint
    requires !(Terminal(row.status) && !Terminal(s.row.status))
    ensures SharedOk(world, s.(row := row)) && Progress(s, s.(row := row))
  {
    hide Stored;
  }

  lemma JobWriteOk(world: World, s: State, job: Job)
    requires SharedOk(world, s) && JobOk(world, s.(job := Some(job)))
    ensures SharedOk(world, s.(job := Some(job))) && Progress(s, s.(job := Some(job)))
  {
    hide Stored, JobOk;
  }

  lemma SpawnOk(world: World, s: State, id: nat, w: Worker)
    requires SharedOk(world, s)
    ensures var s' := s.(workers := s.workers[id := w]); SharedOk(world, s') && Progress(s, s')
  {
    hide Stored;
  }

  lemma ClaimOk(world: World, s: State, token: string, expectGeneration: Option<nat>, expires: int, now: int)
    requires SharedOk(world, s)
    ensures var s' := s.(row := Claim(s.row, token, expectGeneration, expires, now).GetOr(s.row));
            SharedOk(world, s') && Progress(s, s')
  {
    assert Unowned(s.row);
    hide *;
    ClaimIsLater(s.row, token, expectGeneration, expires, now);
    RowOk(world, s, Claim(s.row, token, expectGeneration, expires, now).GetOr(s.row));
  }

  lemma RenewOk(world: World, s: State, token: string, generation: nat, expires: int)
    requires SharedOk(world, s)
    ensures var s' := s.(row := Renew(s.row, token, generation, expires).GetOr(s.row));
            SharedOk(world, s') && Progress(s, s')
  {
    assert Unowned(s.row);
    hide *;
    RenewIsLater(s.row, token, generation, expires);
    RowOk(world, s, Renew(s.row, token, generation, expires).GetOr(s.row));
  }

  lemma SweepOk(world: World, s: State, e: Expect, expires: int, now: int)
    requires SharedOk(world, s)
    ensures var s' := s.(row := Requeue(s.row, e, expires, now).GetOr(s.row));
            SharedOk(world, s') && Progress(s, s')
  {
    assert Unowned(s.row);
    hide *;
    RequeueIsLater(s.row, e, expires, now);
    RowOk(world, s, Requeue(s.row, e, expires, now).GetOr(s.row));
  }

  lemma WriteJobOk(world: World, s: State, job: Job)
    requires SharedOk(world, s) && ForeignJob(job)
    ensures var s' := s.(job := Some(job)); SharedOk(world, s') && Progress(s, s')
  {
    assert JobOk(world, s.(job := Some(job)));
    hide *;
    JobWriteOk(world, s, job);
  }

  lemma EnvironmentShared(world: World, s: State, a: Action)
    requires SharedOk(world, s) && !a.Step? && !a.MirrorReply?
    ensures SharedOk(world, Next(world, s, a)) && Progress(s, Next(world, s, a))
  {
    hide SharedOk, Progress, Claim, Renew, Requeue, ForeignJob;
    Reflexive(s);
    match a
    case ClaimLease(token, expectGeneration, expires, now) => ClaimOk(world, s, token, expectGeneration, expires, now);
    case RenewLease(token, generation, expires) => RenewOk(world, s, token, generation, expires);
    case Sweep(status, version, generation, expires, now) =>
      SweepOk(world, s, Expect(status, version, generation, None), expires, now);
    case WriteJob(job) => if ForeignJob(job) { WriteJobOk(world, s, job); }
    case Seal(id, generation, token, text, usage, envelope, ttl) =>
      SpawnOk(world, s, id, Worker(generation, token, text, usage, envelope, ttl, Loading));
    case Abandon(id, generation, token, reported) =>
      SpawnOk(world, s, id, Worker(generation, token, "", Null, 0, 0, Abandoning(reported)));
  }

  lemma MirrorOk(world: World, s: State, w: Worker)
    requires SharedOk(world, s) && WorkerOk(world, s, w) && MayMirror(s, w)
    ensures var reply := w.pc.reply;
            var s' := s.(job := Some(Job(JobStatusOf(reply), Some(reply.(text := world.jobText(reply.text))))));
            SharedOk(world, s') && Progress(s, s')
  {
    hide Stored;
    var reply := w.pc.reply;
    if reply.status == SaysComplete { RestoredTells(world, s.winner, reply.text); }
    JobWriteOk(world, s, Job(JobStatusOf(reply), Some(reply.(text := world.jobText(reply.text)))));
  }

  /** Everybody else's standing survives a step of one call. */
  lemma StepKeepsInv(world: World, s: State, s': State, id: nat)
    requires Inv(world, s) && StepOk(world, s, s', id)
    ensures Inv(world, s') && Progress(s, s')
  {
    hide SharedOk, Progress, WorkerOk;
    forall other | other in s'.workers ensures WorkerOk(world, s', s'.workers[other]) {
      if other != id { WorkerFrame(world, s, s', s.workers[other]); }
    }
  }

  /** The same for a step of the environment, which may at most add a call at its beginning. */
  lemma EnvironmentKeepsInv(world: World, s: State, s': State)
    requires Inv(world, s) && SharedOk(world, s') && Progress(s, s')
    requires forall id :: id in s'.workers ==>
               (id in s.workers && s'.workers[id] == s.workers[id])
               || s'.workers[id].pc.Loading? || s'.workers[id].pc.Abandoning?
    ensures Inv(world, s')
  {
    hide SharedOk, Progress;
    forall id | id in s'.workers ensures WorkerOk(world, s', s'.workers[id]) {
      if id in s.workers && s'.workers[id] == s.workers[id] { WorkerFrame(world, s, s', s.workers[id]); }
    }
  }

  lemma StepKeeps(world: World, s: State, id: nat, choice: bool, now: int)
    requires Hashing(world) && Inv(world, s)
    ensures var s' := Next(world, s, Step(id, choice, now)); Inv(world, s') && Progress(s, s')
  {
    hide Inv, Progress, Hashing, StepOk, StepWorker;
    if id in s.workers {
      StepWorkerOk(world, s, id, choice, now);
      StepKeepsInv(world, s, Next(world, s, Step(id, choice, now)), id);
    } else {
      Reflexive(s);
    }
  }

  lemma MirrorKeeps(world: World, s: State, id: nat)
    requires Inv(world, s)
    ensures var s' := Next(world, s, MirrorReply(id)); Inv(world, s') && Progress(s, s')
  {
    hide SharedOk, WorkerOk, Progress, MayMirror, JobStatusOf;
    Reflexive(s);
    if id in s.workers && MayMirror(s, s.workers[id]) {
      MirrorOk(world, s, s.workers[id]);
      EnvironmentKeepsInv(world, s, Next(world, s, MirrorReply(id)));
    }
  }

  lemma EnvironmentKeeps(world: World, s: State, a: Action)
    requires Inv(world, s) && !a.Step? && !a.MirrorReply?
    ensures Inv(world, Next(world, s, a)) && Progress(s, Next(world, s, a))
  {
    hide SharedOk, WorkerOk, Progress, Claim, Renew, Requeue, ForeignJob;
    EnvironmentShared(world, s, a);
    EnvironmentKeepsInv(world, s, Next(world, s, a));
  }

  lemma NextOk(world: World, s: State, a: Action)
    requires Hashing(world) && Inv(world, s)
    ensures Inv(world, Next(world, s, a)) && Progress(s, Next(world, s, a))
  {
    hide *;
    match a
    case Step(id, choice, now) => StepKeeps(world, s, id, choice, now);
    case MirrorReply(id) => MirrorKeeps(world, s, id);
    case _ => EnvironmentKeeps(world, s, a);
  }

  /** Every state that can be reached from a created mission satisfies the invariant. */
  lemma {:induction false} RunOk(world: World, row: Row, actions: seq<Action>)
    requires Hashing(world) && Created(row)
    ensures Inv(world, Run(world, Start(row), actions))
  {
    if actions != [] {
      RunOk(world, row, actions[..|actions| - 1]);
      NextOk(world, Run(world, Start(row), actions[..|actions| - 1]), actions[|actions| - 1]);
    }
  }

  lemma RunAppend(world: World, s: State, actions: seq<Action>, a: Action)
    ensures Run(world, s, actions + [a]) == Next(world, Run(world, s, actions), a)
  {
    hide Next;
    assert (actions + [a])[..|actions|] == actions;
  }

  /** A reachable state bears on everything reachable from it. */
  lemma {:induction false} LaterAlways(world: World, row: Row, actions: seq<Action>, more: seq<Action>)
    requires Hashing(world) && Created(row)
    ensures Progress(Run(world, Start(row), actions), Run(world, Start(row), actions + more))
  {
    var s := Run(world, Start(row), actions);
    if more == [] {
      assert actions + more == actions;
      hide *;
      Reflexive(s);
    } else {
      var n := |more| - 1;
      assert actions + more == actions + more[..n] + [more[n]];
      hide *;
      var before := Run(world, Start(row), actions + more[..n]);
      RunAppend(world, Start(row), actions + more[..n], more[n]);
      LaterAlways(world, row, actions, more[..n]);
      RunOk(world, row, actions + more[..n]);
      NextOk(world, before, more[n]);
      ProgressTransitive(s, before, Next(world, before, more[n]));
    }
  }

  lemma Reflexive(s: State)
    ensures Progress(s, s)
  {
  }

  lemma ProgressTransitive(a: State, b: State, c: State)
    requires Progress(a, b) && Progress(b, c)
    ensures Progress(a, c)
  {
    LaterTransitive(a.row, b.row, c.row);
  }
}
