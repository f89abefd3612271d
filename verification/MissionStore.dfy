/**
 * The durable mission row and the transactions on it: what each SQL statement requires of the row and
 * what it leaves behind. A transaction that does not apply leaves the row alone and reports failure.
 */
module MissionStore {
  import opened Wrappers
  import opened Values

  datatype Status =
    | Queued | Running | Verifying | Complete | Failed | WaitingEvent | WaitingTimer
    | Dormant | Escalated | BudgetExhausted | Cancelled

  predicate Terminal(s: Status) { s in {Complete, Failed, BudgetExhausted, Cancelled} }

  const ALLOWED: set<(Status, Status)> := {
    (Queued, Running), (Running, Verifying), (Running, WaitingEvent), (Running, WaitingTimer),
    (Running, Dormant), (Running, Escalated), (Running, Failed), (Running, BudgetExhausted),
    (Running, Cancelled), (Verifying, Complete), (Verifying, Running), (Verifying, Failed),
    (Verifying, Escalated), (Verifying, WaitingEvent), (WaitingEvent, Queued),
    (WaitingEvent, Running), (WaitingTimer, Queued), (Dormant, Queued), (Escalated, Queued),
    (Escalated, Cancelled), (Running, Queued), (Verifying, Queued)
  }

  predicate Legal(current: Status, next: Status) {
    !Terminal(current) && (current, next) in ALLOWED
  }

  /** The entries of checkpoint_json that this model follows; "" is an absent hash. */
  datatype Checkpoint = Checkpoint(candidateHash: string, projectionHash: string, billing: Value)

  /** token is "" when the column is NULL; an instant is any count of time units. */
  datatype Row = Row(
    status: Status, version: nat, generation: nat, token: string, expires: Option<int>,
    checkpoint: Checkpoint, verifyFailures: nat, envelope: int)

  datatype Update = Update(hashes: Option<(string, string)>, billing: Option<Value>)

  function Updated(c: Checkpoint, u: Update): Checkpoint {
    Checkpoint(if u.hashes.Some? then u.hashes.value.0 else c.candidateHash,
               if u.hashes.Some? then u.hashes.value.1 else c.projectionHash,
               u.billing.GetOr(c.billing))
  }

  /** The caller holds the lease: an absent token in the row matches nobody. */
  predicate Holds(r: Row, token: string, generation: nat) {
    token != "" && r.token == token && r.generation == generation
  }

  // ---------- The transactions as functions of the row ----------

  function Claim(r: Row, token: string, expectGeneration: Option<nat>, expires: int, now: int): Option<Row> {
    var own := r.token != "" && r.token == token && expectGeneration == Some(r.generation);
    var free := r.token == "" || r.expires.None? || r.expires.value <= now;
    if r.status in {Queued, WaitingEvent, Running, Verifying} && (own || free) then
      Some(r.(token := token,
              generation := if own then r.generation else r.generation + 1,
              expires := Some(expires),
              status := if r.status in {Queued, WaitingEvent} then Running else r.status))
    else None
  }

  function Renew(r: Row, token: string, generation: nat, expires: int): Option<Row> {
    if Holds(r, token, generation) then Some(r.(expires := Some(expires))) else None
  }

  datatype Expect = Expect(status: Status, version: nat, generation: nat, token: Option<string>)

  predicate Meets(r: Row, e: Expect) {
    && r.status == e.status && r.version == e.version && r.generation == e.generation
    && (e.token.None? || (e.token.value != "" && r.token == e.token.value))
  }

  function CompareAndSet(r: Row, e: Expect, next: Status, clearLease: bool, u: Update, bumpFailure: bool)
    : Option<Row>
  {
    if !Legal(e.status, next) || !Meets(r, e) then None
    else
      var changed := r.(status := next, checkpoint := Updated(r.checkpoint, u), version := e.version + 1,
                        verifyFailures := r.verifyFailures + if bumpFailure then 1 else 0);
      Some(if clearLease then changed.(token := "", expires := None, generation := e.generation + 1)
           else changed)
  }

  function Touch(r: Row, token: string, generation: nat, envelope: int): Option<Row> {
    if Holds(r, token, generation) && !Terminal(r.status)
    then Some(r.(envelope := MaxInt(r.envelope, envelope))) else None
  }

  function PutArtifact(artifacts: map<string, string>, r: Row, digest: string, text: string,
                       token: string, generation: nat): map<string, string> {
    if Holds(r, token, generation) && digest !in artifacts then artifacts[digest := text] else artifacts
  }

  /** The sweeper's requeue, with the sweeper's own refusal to touch a mission being verified. */
  function Requeue(r: Row, e: Expect, expires: int, now: int): Option<Row> {
    if e.status in {Verifying, Escalated} || !Legal(e.status, Queued) then None
    else if Meets(r, e.(token := None)) && r.expires == Some(expires) && expires < now then
      Some(r.(status := Queued, version := r.version + 1, token := "", expires := None,
              generation := r.generation + 1))
    else None
  }

  // ---------- The store ----------

  class Store {
    var row: Row
    var artifacts: map<string, string>

    constructor (row: Row)
      ensures this.row == row && artifacts == map[]
    {
      this.row, artifacts := row, map[];
    }

    method ClaimMission(token: string, expectGeneration: Option<nat>, expires: int, now: int)
      returns (claimed: bool, generation: nat)
      modifies `row
      ensures claimed == Claim(old(row), token, expectGeneration, expires, now).Some?
      ensures row == Claim(old(row), token, expectGeneration, expires, now).GetOr(old(row))
      ensures generation == row.generation
    {
      claimed := false;
      var mine := row.token != "" && row.token == token && expectGeneration.Some? && row.generation == expectGeneration.value;
      if row.status in {Queued, WaitingEvent, Running, Verifying} {
        if mine || row.token == "" || row.expires.None? || row.expires.value <= now {
          if !mine { row := row.(generation := row.generation + 1); }
          if row.status in {Queued, WaitingEvent} { row := row.(status := Running); }
          row := row.(token := token, expires := Some(expires));
          claimed := true;
        }
      }
      generation := row.generation;
    }

    method Heartbeat(token: string, generation: nat, expires: int) returns (renewed: bool)
      modifies `row
      ensures renewed == Renew(old(row), token, generation, expires).Some?
      ensures row == Renew(old(row), token, generation, expires).GetOr(old(row))
    {
      renewed := Holds(row, token, generation);
      if renewed { row := row.(expires := Some(expires)); }
    }

    method CasStatus(e: Expect, next: Status, clearLease: bool, u: Update, bumpFailure: bool)
      returns (changed: bool)
      modifies `row
      ensures changed == CompareAndSet(old(row), e, next, clearLease, u, bumpFailure).Some?
      ensures row == CompareAndSet(old(row), e, next, clearLease, u, bumpFailure).GetOr(old(row))
    {
      hide Legal;
      if !Legal(e.status, next) { return false; }
      if row.status != e.status || row.version != e.version || row.generation != e.generation {
        return false;
      }
      if e.token.Some? && (e.token.value == "" || row.token != e.token.value) { return false; }
      var checkpoint := row.checkpoint;
      if u.hashes.Some? {
        checkpoint := checkpoint.(candidateHash := u.hashes.value.0, projectionHash := u.hashes.value.1);
      }
      if u.billing.Some? { checkpoint := checkpoint.(billing := u.billing.value); }
      row := row.(status := next, checkpoint := checkpoint, version := e.version + 1);
      if bumpFailure { row := row.(verifyFailures := row.verifyFailures + 1); }
      if clearLease { row := row.(token := "", expires := None, generation := e.generation + 1); }
      return true;
    }

    method TouchEnvelope(token: string, generation: nat, envelope: int) returns (bound: bool)
      modifies `row
      ensures bound == Touch(old(row), token, generation, envelope).Some?
      ensures row == Touch(old(row), token, generation, envelope).GetOr(old(row))
    {
      bound := Holds(row, token, generation) && !Terminal(row.status);
      if bound { row := row.(envelope := MaxInt(row.envelope, envelope)); }
    }

    method PutMissionArtifact(digest: string, text: string, token: string, generation: nat)
      returns (owned: bool)
      modifies `artifacts
      ensures owned == Holds(row, token, generation)
      ensures artifacts == PutArtifact(old(artifacts), row, digest, text, token, generation)
    {
      owned := Holds(row, token, generation);
      if owned && digest !in artifacts { artifacts := artifacts[digest := text]; }
    }

    method RequeueExpired(e: Expect, expires: int, now: int) returns (moved: bool)
      modifies `row
      ensures moved == Requeue(old(row), e, expires, now).Some?
      ensures row == Requeue(old(row), e, expires, now).GetOr(old(row))
    {
      moved := false;
      if e.status in {Verifying, Escalated} || !Legal(e.status, Queued) { return; }
      if row.status == e.status && row.version == e.version && row.generation == e.generation
         && row.expires == Some(expires) && expires < now {
        row := row.(status := Queued, version := row.version + 1, token := "", expires := None,
                    generation := row.generation + 1);
        moved := true;
      }
    }
  }

  // ---------- When a transaction applies ----------

  /** Somebody else holds the lease and it has not expired. */
  predicate HeldByAnother(r: Row, token: string, expectGeneration: Option<nat>, now: int) {
    && r.token != "" && r.expires.Some? && r.expires.value > now
    && !(r.token == token && expectGeneration == Some(r.generation))
  }

  /**
   * A claim succeeds exactly on a claimable row whose lease is free, has expired, or is the caller's own. Only the
   * renewal of an own lease keeps the generation; a row that waited runs; nothing else of the row changes.
   */
  lemma ClaimByExpiry(r: Row, token: string, expectGeneration: Option<nat>, expires: int, now: int)
    ensures var claimed := Claim(r, token, expectGeneration, expires, now);
            && (claimed.Some? <==> r.status in {Queued, WaitingEvent, Running, Verifying}
                                   && !HeldByAnother(r, token, expectGeneration, now))
            && (claimed.Some? ==>
                  var r' := claimed.value;
                  && r'.token == token && r'.expires == Some(expires)
                  && (if r.token == token && token != "" && expectGeneration == Some(r.generation)
                      then r'.generation == r.generation else r'.generation == r.generation + 1)
                  && r'.status == (if r.status == Verifying then Verifying else Running)
                  && r'.(token := r.token, expires := r.expires, generation := r.generation, status := r.status) == r)
  {
  }

  /** The fence of a status write: each of the four expectations is needed, and together they suffice. */
  lemma CasIsFenced(r: Row, e: Expect, next: Status, clearLease: bool, u: Update, bumpFailure: bool)
    ensures var written := CompareAndSet(r, e, next, clearLease, u, bumpFailure);
            && (written.Some? <==>
                  && r.status == e.status && r.version == e.version && r.generation == e.generation
                  && (e.token.Some? ==> r.token == e.token.value != "")
                  && Legal(r.status, next))
            && (written.Some? ==>
                  var r' := written.value;
                  && r'.status == next && r'.version == r.version + 1 && r'.envelope == r.envelope
                  && r'.verifyFailures - r.verifyFailures == (if bumpFailure then 1 else 0)
                  && (if clearLease then r'.token == "" && r'.expires == None && r'.generation == r.generation + 1
                      else r'.token == r.token && r'.expires == r.expires && r'.generation == r.generation)
                  && r'.checkpoint.billing == u.billing.GetOr(r.checkpoint.billing)
                  && (r'.checkpoint.candidateHash, r'.checkpoint.projectionHash)
                     == u.hashes.GetOr((r.checkpoint.candidateHash, r.checkpoint.projectionHash)))
  {
    hide Legal;
  }

  /** A sweep takes away only what has expired, of a mission that is not being verified. */
  lemma SweepsOnlyTheExpired(r: Row, e: Expect, expires: int, now: int)
    ensures var swept := Requeue(r, e, expires, now);
            && (swept.Some? <==>
                  && r.status in {Running, WaitingEvent, WaitingTimer, Dormant}
                  && r.status == e.status && r.version == e.version && r.generation == e.generation
                  && r.expires == Some(expires) && expires < now)
            && (swept.Some? ==>
                  var r' := swept.value;
                  && r'.status == Queued && r'.token == "" && r'.expires == None
                  && r'.version == r.version + 1 && r'.generation == r.generation + 1
                  && r'.checkpoint == r.checkpoint && r'.envelope == r.envelope && r'.verifyFailures == r.verifyFailures)
  {
  }

  /** Renewing and touching need the current lease; a renewal moves the expiry alone, a touch the envelope alone. */
  lemma OwnersOnly(r: Row, token: string, generation: nat, expires: int, envelope: int)
    ensures var owner := token != "" && r.token == token && r.generation == generation;
            && Renew(r, token, generation, expires) == (if owner then Some(r.(expires := Some(expires))) else None)
            && (Touch(r, token, generation, envelope).Some? <==>
                  owner && r.status !in {Complete, Failed, BudgetExhausted, Cancelled})
            && (Touch(r, token, generation, envelope).Some? ==>
                  var r' := Touch(r, token, generation, envelope).value;
                  && r'.envelope >= r.envelope && r'.envelope >= envelope && r'.envelope in {r.envelope, envelope}
                  && r'.(envelope := r.envelope) == r)
  {
  }

  /** An artifact is written once under its digest, by the owner of the lease, and never overwritten. */
  lemma ArtifactsAreWriteOnce(artifacts: map<string, string>, r: Row, digest: string, text: string, token: string,
                              generation: nat, key: string)
    ensures var after := PutArtifact(artifacts, r, digest, text, token, generation);
            var owner := token != "" && r.token == token && r.generation == generation;
            && (key in artifacts ==> key in after && after[key] == artifacts[key])
            && (key !in artifacts ==> (key in after <==> owner && key == digest))
            && (key !in artifacts && key in after ==> after[key] == text)
  {
  }

  /** What the table of transitions says of the end of a mission: only a verified one completes, and no end is left. */
  lemma TheTableEndsMissions(s: Status, t: Status)
    ensures Legal(s, Complete) <==> s == Verifying
    ensures Legal(s, Verifying) <==> s == Running
    ensures s in {Complete, Failed, BudgetExhausted, Cancelled} ==> !Legal(s, t)
  {
  }

  lemma TheTableStopsMissions(s: Status)
    ensures Legal(s, Failed) <==> s == Verifying || s == Running
    ensures Legal(s, BudgetExhausted) <==> s == Running
    ensures Legal(s, Cancelled) <==> s == Running || s == Escalated
  {
  }

  // ---------- Monotonicity of the fence ----------

  /**
   * r' is r or a later state of the same row. A generation has one token; a (generation, version)
   * pair has one status and checkpoint; a terminal row stays as it is.
   */
  predicate Later(r: Row, r': Row) {
    && r.generation <= r'.generation && r.version <= r'.version
    && (r.generation == r'.generation ==> r.token == r'.token)
    && (r.generation == r'.generation && r.version == r'.version ==>
          r.status == r'.status && r.checkpoint == r'.checkpoint)
    && (Terminal(r.status) ==>
          r.status == r'.status && r.checkpoint == r'.checkpoint
          && r.generation == r'.generation && r.version == r'.version)
  }

  /** A row that waits for a worker belongs to nobody. */
  predicate Unowned(r: Row) { r.status in {Queued, WaitingEvent} ==> r.token == "" }

  /** The transitions that seal calls and sweeps ask for. */
  lemma LegalMoves()
    ensures Legal(Running, Verifying) && Legal(Verifying, Complete) && Legal(Verifying, Failed)
    ensures Legal(Verifying, WaitingEvent)
    ensures forall s: Status :: Terminal(s) ==> !Legal(s, WaitingEvent)
  {
  }

  lemma LaterTransitive(a: Row, b: Row, c: Row)
    requires Later(a, b) && Later(b, c)
    ensures Later(a, c)
  {
  }

  lemma ClaimIsLater(r: Row, token: string, expectGeneration: Option<nat>, expires: int, now: int)
    requires Unowned(r)
    ensures var r' := Claim(r, token, expectGeneration, expires, now).GetOr(r);
            Later(r, r') && Unowned(r') && !(Terminal(r'.status) && !Terminal(r.status))
            && r'.checkpoint == r.checkpoint
  {
  }

  /** Every status write moves the version, and leaves waiting states only with the lease cleared. */
  lemma CasIsLater(r: Row, e: Expect, next: Status, clearLease: bool, u: Update, bumpFailure: bool)
    requires Unowned(r) && (next in {Queued, WaitingEvent} ==> clearLease)
    ensures var r' := CompareAndSet(r, e, next, clearLease, u, bumpFailure).GetOr(r);
            Later(r, r') && Unowned(r')
  {
  }

  lemma RequeueIsLater(r: Row, e: Expect, expires: int, now: int)
    requires Unowned(r)
    ensures var r' := Requeue(r, e, expires, now).GetOr(r);
            Later(r, r') && Unowned(r') && !(Terminal(r'.status) && !Terminal(r.status))
            && r'.checkpoint == r.checkpoint
  {
  }

  lemma RenewIsLater(r: Row, token: string, generation: nat, expires: int)
    requires Unowned(r)
    ensures var r' := Renew(r, token, generation, expires).GetOr(r);
            Later(r, r') && Unowned(r') && r'.status == r.status && r'.checkpoint == r.checkpoint
  {
  }

  lemma TouchIsLater(r: Row, token: string, generation: nat, envelope: int)
    requires Unowned(r)
    ensures var r' := Touch(r, token, generation, envelope).GetOr(r);
            Later(r, r') && Unowned(r') && r'.status == r.status && r'.checkpoint == r.checkpoint
  {
  }
}
