/**
 * Sealing one mission epoch, as a step system. Any number of seal calls and abandoned quanta run
 * against one mission row; every store call is one atomic step, and steps of different calls, claims,
 * renewals, sweeps and job writes interleave freely. Clock readings, verifier verdicts and the
 * decision to fail permanently are arbitrary.
 */
module Epoch {
  import opened Wrappers
  import opened Values
  import opened MissionStore
  import Billing
  import BillingLedger

  /** The mission's identity, and the text transformations whose bodies this model does not follow. */
  datatype World = World(
    jobId: string, acceptanceHash: string,
    candidateHash: string -> string,   // hash of the raw candidate
    project: string -> string,         // redacted, size-capped projection of a candidate
    digest: string -> string,          // hash of a projection
    redact: string -> string,          // redaction applied when an artifact is stored
    jobText: string -> string,         // redaction applied when a job payload is stored
    unavailable: string)               // the text of a completed mission whose projection is missing

  ghost predicate Hashing(world: World) {
    && (forall x, y :: world.digest(x) == world.digest(y) ==> x == y)
    && (forall x :: world.digest(x) != "")
  }

  /** The status word of an envelope or of a job row. */
  datatype Word = SaysComplete | SaysError | SaysContinue | SaysOther(word: string)

  /** The part of a public envelope this model follows; the wording of notices is left empty. */
  datatype Payload = Payload(
    status: Word, jobId: string, acceptanceHash: string, mission: Option<Status>, text: string)

  datatype Job = Job(status: Word, payload: Option<Payload>)

  /** Where a call stands, with what it remembers of the rows it read. */
  datatype Pc =
    | Loading
    | Heartbeating
    | Freezing
    | Refreshing
    | Binding(seen: Row)
    | Unbound
    | Advancing(seen: Row)
    | Advanced(ok: bool)
    | Checking
    | Reloading(passed: bool)
    | Committing(pre: Row, passed: bool)
    | Failing(pre: Row, passed: bool)
    | Conflicted
    | Waiting(pre: Row, passed: bool)
    | Rested(ok: bool)
    | SavingJob(reply: Payload)
    | Projecting(row: Row)
    | Fetching(row: Row)
    | Abandoning(reported: Option<Value>)
    | Releasing(row: Row, reported: Option<Value>)
    | Done(reply: Payload)

  datatype Worker = Worker(
    generation: nat, token: string, text: string, usage: Value, envelope: int, ttl: int, pc: Pc)

  datatype Winner = Winner(worker: nat, text: string)

  /** One successful status write by a seal call, and whether its candidate had passed verification. */
  datatype Write = Write(passed: bool, status: Status)

  datatype State = State(
    row: Row, artifacts: map<string, string>, job: Option<Job>, workers: map<nat, Worker>,
    // What has happened so far; no step reads these.
    landed: seq<BillingLedger.Delivery>, winner: Option<Winner>, terminals: nat, writes: seq<Write>)

  datatype Action =
    | Seal(id: nat, generation: nat, token: string, text: string, usage: Value, envelope: int, ttl: int)
    | Abandon(id: nat, generation: nat, token: string, reported: Option<Value>)
    | Step(id: nat, choice: bool, now: int)
    | ClaimLease(token: string, expectGeneration: Option<nat>, expires: int, now: int)
    | RenewLease(token: string, generation: nat, expires: int)
    | Sweep(status: Status, version: nat, generation: nat, expires: int, now: int)
    | WriteJob(job: Job)
    | MirrorReply(id: nat)

  // ---------- Replies ----------

  function Continue(world: World, status: Status): Payload {
    Payload(SaysContinue, world.jobId, world.acceptanceHash, Some(status), "")
  }

  function ExpectedJobStatus(s: Status): Word { if s == Complete then SaysComplete else SaysError }

  /** The stored job speaks for this terminal row. */
  predicate Speaks(world: World, job: Option<Job>, row: Row) {
    && job.Some? && job.value.payload.Some? && job.value.status == ExpectedJobStatus(row.status)
    && var p := job.value.payload.value;
       && p.status == ExpectedJobStatus(row.status) && p.jobId == world.jobId
       && p.acceptanceHash == world.acceptanceHash && p.mission == Some(row.status)
  }

  function ProjectionOf(row: Row): string {
    if row.checkpoint.projectionHash != "" then row.checkpoint.projectionHash
    else row.checkpoint.candidateHash
  }

  function Rebuilt(world: World, artifacts: map<string, string>, row: Row): Payload {
    var hash := ProjectionOf(row);
    Payload(ExpectedJobStatus(row.status), world.jobId, world.acceptanceHash, Some(row.status),
            if row.status != Complete then ""
            else if hash != "" && hash in artifacts then artifacts[hash]
            else world.unavailable)
  }

  // ---------- Steps of one call ----------

  function At(s: State, id: nat, w: Worker, pc: Pc): State { s.(workers := s.workers[id := w.(pc := pc)]) }

  function Owner(w: Worker, status: Status, pre: Row): Expect {
    Expect(status, pre.version, pre.generation, Some(w.token))
  }

  function BilledFrom(w: Worker, seen: Row): Value {
    BillingLedger.Deliver(seen.checkpoint.billing, BillingLedger.Delivery(w.usage, w.generation))
  }

  function Hashes(world: World, w: Worker): (string, string) {
    (world.candidateHash(w.text), world.digest(world.project(w.text)))
  }

  function Sealed(world: World, w: Worker, pre: Row): Update {
    Update(Some(Hashes(world, w)), Some(BilledFrom(w, pre)))
  }

  function Load(world: World, s: State, id: nat, w: Worker): State {
    var token := if w.token != "" then w.token else s.row.token;
    if Terminal(s.row.status) then At(s, id, w, Projecting(s.row))
    else if w.generation != s.row.generation || token == "" || token != s.row.token
    then At(s, id, w, Done(Continue(world, s.row.status)))
    else At(s, id, w.(token := token), Heartbeating)
  }

  function Beat(world: World, s: State, id: nat, w: Worker, now: int): State {
    match Renew(s.row, w.token, w.generation, now + w.ttl)
    case Some(row) => At(s.(row := row), id, w, Freezing)
    case None => At(s, id, w, Done(Continue(world, s.row.status)))
  }

  /** The result of the artifact write is not looked at. */
  function Freeze(world: World, s: State, id: nat, w: Worker): State {
    var projection := world.project(w.text);
    At(s.(artifacts := PutArtifact(s.artifacts, s.row, world.digest(projection),
                                   world.redact(projection), w.token, w.generation)), id, w, Refreshing)
  }

  function Refresh(world: World, s: State, id: nat, w: Worker): State {
    if w.generation != s.row.generation || w.token != s.row.token
    then At(s, id, w, Done(Continue(world, s.row.status)))
    else At(s, id, w, Binding(s.row))
  }

  function Bind(s: State, id: nat, w: Worker, seen: Row): State {
    match Touch(s.row, w.token, w.generation, w.envelope)
    case Some(row) => At(s.(row := row), id, w, Advancing(seen))
    case None => At(s, id, w, Unbound)
  }

  /** Reread after a failed write: a terminal row is answered from durable state. */
  function Reread(world: World, s: State, id: nat, w: Worker): State {
    if Terminal(s.row.status) then At(s, id, w, Projecting(s.row))
    else At(s, id, w, Done(Continue(world, s.row.status)))
  }

  function Land(s: State, w: Worker): State {
    s.(landed := s.landed + [BillingLedger.Delivery(w.usage, w.generation)])
  }

  /** A row found verifying is taken over as it is; only a running one is advanced. */
  function Advance(s: State, id: nat, w: Worker, seen: Row): State {
    if seen.status == Verifying then At(s, id, w, Checking)
    else if seen.status == Running then
      match CompareAndSet(s.row, Expect(Running, seen.version, w.generation, Some(w.token)), Verifying,
                          false, Update(None, Some(BilledFrom(w, seen))), false)
      case Some(row) =>
        At(Land(s.(row := row, writes := s.writes + [Write(false, Verifying)]), w), id, w, Advanced(true))
      case None => At(s, id, w, Advanced(false))
    else At(s, id, w, Advanced(false))
  }

  function AfterAdvance(world: World, s: State, id: nat, w: Worker, ok: bool): State {
    if ok then At(s, id, w, Checking) else At(s, id, w, Done(Continue(world, s.row.status)))
  }

  function Reload(world: World, s: State, id: nat, w: Worker, passed: bool): State {
    if s.row.status == Complete then At(s, id, w, Projecting(s.row))
    else if s.row.generation != w.generation || w.token != s.row.token
    then At(s, id, w, Done(Continue(world, s.row.status)))
    else At(s, id, w, Committing(s.row, passed))
  }

  function Outcome(world: World, status: Status, text: string): Payload {
    Payload(ExpectedJobStatus(status), world.jobId, world.acceptanceHash, Some(status), text)
  }

  /** A candidate that passed is committed; if that fails the call goes on as if it had not passed. */
  function Commit(world: World, s: State, id: nat, w: Worker, pre: Row, passed: bool, terminal: bool): State {
    var committed := if passed
      then CompareAndSet(s.row, Owner(w, Verifying, pre), Complete, true, Sealed(world, w, pre), false)
      else None;
    match committed
    case Some(row) =>
      At(Land(s.(row := row, winner := Some(Winner(id, w.text)), terminals := s.terminals + 1,
                 writes := s.writes + [Write(passed, Complete)]), w),
         id, w, SavingJob(Outcome(world, Complete, w.text)))
    case None => At(s, id, w, if terminal then Failing(pre, passed) else Waiting(pre, passed))
  }

  function Fail(world: World, s: State, id: nat, w: Worker, pre: Row, passed: bool): State {
    match CompareAndSet(s.row, Owner(w, Verifying, pre), Failed, true, Sealed(world, w, pre), true)
    case Some(row) =>
      At(Land(s.(row := row, terminals := s.terminals + 1,
                 writes := s.writes + [Write(passed, Failed)]), w),
         id, w, SavingJob(Outcome(world, Failed, "")))
    case None => At(s, id, w, Conflicted)
  }

  function Wait(world: World, s: State, id: nat, w: Worker, pre: Row, passed: bool): State {
    match CompareAndSet(s.row, Owner(w, Verifying, pre), WaitingEvent, true, Sealed(world, w, pre), true)
    case Some(row) =>
      At(Land(s.(row := row, writes := s.writes + [Write(passed, WaitingEvent)]), w), id, w, Rested(true))
    case None => At(s, id, w, Rested(false))
  }

  function AfterWait(world: World, s: State, id: nat, w: Worker, ok: bool): State {
    if ok then At(s, id, w, Done(Continue(world, s.row.status))) else Reread(world, s, id, w)
  }

  /** Saving the job is suppressed on error: with `lost` the write does not happen. */
  function SaveJob(world: World, s: State, id: nat, w: Worker, reply: Payload, lost: bool): State {
    var job := Job(reply.status, Some(reply.(text := world.jobText(reply.text))));
    At(if lost then s else s.(job := Some(job)), id, w, Done(reply))
  }

  function Project(world: World, s: State, id: nat, w: Worker, row: Row): State {
    if Speaks(world, s.job, row) then At(s, id, w, Done(s.job.value.payload.value))
    else At(s, id, w, Fetching(row))
  }

  function ReadForRelease(world: World, s: State, id: nat, w: Worker, reported: Option<Value>): State {
    if Terminal(s.row.status) then At(s, id, w, Projecting(s.row))
    else if s.row.token != w.token || s.row.generation != w.generation
    then At(s, id, w, Done(Continue(world, s.row.status)))
    else At(s, id, w, Releasing(s.row, reported))
  }

  /** A quantum that ended without a candidate gives its lease back, with what it had spent. */
  function Release(world: World, s: State, id: nat, w: Worker, row: Row, reported: Option<Value>): State {
    var d := BillingLedger.Delivery(reported.GetOr(Null), w.generation);
    var billing := if reported.Some? then Some(BillingLedger.Deliver(row.checkpoint.billing, d)) else None;
    match CompareAndSet(s.row, Owner(w, row.status, row), WaitingEvent, true, Update(None, billing), false)
    case Some(next) =>
      At(s.(row := next, landed := if reported.Some? then s.landed + [d] else s.landed),
         id, w, Done(Continue(world, WaitingEvent)))
    case None => Reread(world, s, id, w)
  }

  function StepWorker(world: World, s: State, id: nat, w: Worker, choice: bool, now: int): State {
    match w.pc
    case Loading => Load(world, s, id, w)
    case Heartbeating => Beat(world, s, id, w, now)
    case Freezing => Freeze(world, s, id, w)
    case Refreshing => Refresh(world, s, id, w)
    case Binding(seen) => Bind(s, id, w, seen)
    case Unbound => Reread(world, s, id, w)
    case Advancing(seen) => Advance(s, id, w, seen)
    case Advanced(ok) => AfterAdvance(world, s, id, w, ok)
    case Checking => At(s, id, w, Reloading(choice))
    case Reloading(passed) => Reload(world, s, id, w, passed)
    case Committing(pre, passed) => Commit(world, s, id, w, pre, passed, choice)
    case Failing(pre, passed) => Fail(world, s, id, w, pre, passed)
    case Conflicted => Reread(world, s, id, w)
    case Waiting(pre, passed) => Wait(world, s, id, w, pre, passed)
    case Rested(ok) => AfterWait(world, s, id, w, ok)
    case SavingJob(reply) => SaveJob(world, s, id, w, reply, choice)
    case Projecting(row) => Project(world, s, id, w, row)
    case Fetching(row) => At(s, id, w, Done(Rebuilt(world, s.artifacts, row)))
    case Abandoning(reported) => ReadForRelease(world, s, id, w, reported)
    case Releasing(row, reported) => Release(world, s, id, w, row, reported)
    case Done(_) => s
  }

  // ---------- The system ----------

  function JobStatusOf(reply: Payload): Word {
    match reply.status
    case SaysError => SaysError
    case SaysComplete => SaysComplete
    case SaysContinue => SaysOther("needs_continuation")
    case SaysOther(word) => if word == "" then SaysComplete else SaysOther("needs_continuation")
  }

  /** The caller of a seal may mirror its reply only onto the row its own generation released. */
  predicate MayMirror(s: State, w: Worker) {
    && w.pc.Done? && w.pc.reply.mission == Some(s.row.status) && s.row.generation == w.generation + 1
    && (Terminal(s.row.status) || s.row.status == WaitingEvent)
  }

  /** Other writers of the job table announce running, lost or failed jobs, never a completed mission. */
  predicate ForeignJob(job: Job) { job.payload.Some? ==> job.payload.value.mission != Some(Complete) }

  function Next(world: World, s: State, a: Action): State {
    match a
    case Seal(id, generation, token, text, usage, envelope, ttl) =>
      if id in s.workers then s
      else s.(workers := s.workers[id := Worker(generation, token, text, usage, envelope, ttl, Loading)])
    case Abandon(id, generation, token, reported) =>
      if id in s.workers then s
      else s.(workers := s.workers[id := Worker(generation, token, "", Null, 0, 0, Abandoning(reported))])
    case Step(id, choice, now) =>
      if id in s.workers then StepWorker(world, s, id, s.workers[id], choice, now) else s
    case ClaimLease(token, expectGeneration, expires, now) =>
      s.(row := Claim(s.row, token, expectGeneration, expires, now).GetOr(s.row))
    case RenewLease(token, generation, expires) =>
      s.(row := Renew(s.row, token, generation, expires).GetOr(s.row))
    case Sweep(status, version, generation, expires, now) =>
      s.(row := Requeue(s.row, Expect(status, version, generation, None), expires, now).GetOr(s.row))
    case WriteJob(job) => if ForeignJob(job) then s.(job := Some(job)) else s
    case MirrorReply(id) =>
      if id in s.workers && MayMirror(s, s.workers[id]) then
        var reply := s.workers[id].pc.reply;
        s.(job := Some(Job(JobStatusOf(reply), Some(reply.(text := world.jobText(reply.text))))))
      else s
  }

  /** A mission as it is created: running, unversioned, leased, with no billing in its checkpoint. */
  predicate Created(row: Row) {
    && row.status == Running && row.version == 0 && row.generation >= 1
    && row.checkpoint == Checkpoint("", "", Null)
  }

  function Start(row: Row): State { State(row, map[], None, map[], [], None, 0, []) }

  function Run(world: World, s: State, actions: seq<Action>): State {
    if actions == [] then s
    else Next(world, Run(world, s, actions[..|actions| - 1]), actions[|actions| - 1])
  }
}
