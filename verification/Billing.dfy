/**
 * The mission billing snapshot: what is read from a checkpoint or a usage report, how one report is
 * folded in, and the method that does it step by step.
 */
module Billing {
  import opened Wrappers
  import opened Values

  const RECEIPT_LIMIT: nat := 32
  const ATTEMPT_LIMIT: nat := 64
  const INT_LIMIT: int := 1_000_000_000_000_000
  const COST_LIMIT: real := 1_000_000_000.0
  const STAGES: set<string> := {
    "agent_result", "agent_turn", "agent_work", "completion_initial", "completion_retry",
    "final_polish", "hive_draft", "hive_merge", "hive_vote", "mission_quantum", "route_vote",
    "router_vote", "routing", "semantic_router"
  }
  const OUTCOMES: set<string> := {
    "completed", "completed_before_projection_failure", "completed_before_state_failure",
    "failed_after_reported_usage", "rejected_cleanup", "rejected_nonanswer"
  }

  datatype Plane = Api | Cli | Mixed

  datatype Field = Input | Output | Total

  /** Token counts; a count that was not reported is None, which differs from zero. */
  datatype Tokens = Tokens(input: Option<int>, output: Option<int>, total: Option<int>) {
    function Of(f: Field): Option<int> {
      match f
      case Input => input
      case Output => output
      case Total => total
    }
  }

  const NO_TOKENS := Tokens(None, None, None)

  datatype Receipt = Receipt(
    generation: int, cost: real, attemptCount: int, tokens: Tokens, plane: Option<Plane>)

  datatype Attempt = Attempt(
    generation: int, cost: real, tokens: Tokens, plane: Option<Plane>,
    stage: Option<string>, outcome: Option<string>)

  datatype Snapshot = Snapshot(
    cost: real, tokens: Tokens, quanta: int, lastGeneration: int,
    receipts: seq<Receipt>, receiptsTruncated: int,
    attempts: seq<Attempt>, attemptsTruncated: int)

  /** What one usage report says, once its labels and numbers have been sanitised. */
  datatype Report = Report(receipt: Receipt, attempts: seq<Attempt>)

  const EMPTY := Snapshot(0.0, NO_TOKENS, 0, 0, [], 0, [], 0)

  // ---------- Reading ----------

  function ClampInt(n: int): int { MinInt(INT_LIMIT, MaxInt(0, n)) }

  function ClampCost(c: real): real { MinReal(COST_LIMIT, MaxReal(0.0, c)) }

  function BillingCost(v: Value): real {
    match v.AsFloat()
    case Some(c) => ClampCost(c)
    case None => 0.0
  }

  function BillingInt(v: Value): int {
    match v.AsInt()
    case Some(n) => ClampInt(n)
    case None => 0
  }

  function BillingPlane(v: Value): Option<Plane> {
    var word := v.Label();
    if word == "api" || word == "xai_api_key" then Some(Api)
    else if word == "cli" || word == "grok_build_oauth" then Some(Cli)
    else if word == "mixed" then Some(Mixed)
    else None
  }

  function ClosedLabel(v: Value, vocabulary: set<string>): Option<string> {
    if v.Label() in vocabulary then Some(v.Label()) else None
  }

  function FirstIn(source: map<string, Value>, keys: seq<string>): Option<int> {
    if keys == [] then None
    else if keys[0] in source then Some(BillingInt(source[keys[0]]))
    else FirstIn(source, keys[1..])
  }

  function FirstOf(value: map<string, Value>, keys: seq<string>): Option<int> {
    match FirstIn(value, keys)
    case Some(n) => Some(n)
    case None => FirstIn(Get(value, "usage").EntriesOrEmpty(), keys)
  }

  const INPUT_KEYS := ["input_tokens", "prompt_tokens", "inputTokens", "promptTokens"]
  const OUTPUT_KEYS := ["output_tokens", "completion_tokens", "outputTokens", "completionTokens"]
  const TOTAL_KEYS := ["total_tokens", "totalTokens"]

  function UsageNumbers(value: map<string, Value>): Tokens {
    var input := FirstOf(value, INPUT_KEYS);
    var output := FirstOf(value, OUTPUT_KEYS);
    var total := FirstOf(value, TOTAL_KEYS);
    Tokens(input, output,
           if total.None? && (input.Some? || output.Some?)
           then Some(ClampInt(input.GetOr(0) + output.GetOr(0))) else total)
  }

  function SafeReceipt(value: map<string, Value>): Receipt {
    Receipt(BillingInt(Get(value, "lease_generation")), BillingCost(Get(value, "cost_usd")),
            BillingInt(Get(value, "incurred_attempt_count")), UsageNumbers(value),
            BillingPlane(Get(value, "plane")))
  }

  function SafeAttempt(value: map<string, Value>, generation: int): Attempt {
    Attempt(ClampInt(generation), BillingCost(Get(value, "cost_usd")), UsageNumbers(value),
            BillingPlane(Get(value, "plane").Or(Get(value, "resolved_plane"))),
            ClosedLabel(Get(value, "stage"), STAGES), ClosedLabel(Get(value, "outcome"), OUTCOMES))
  }

  function ReadReceipts(items: seq<Value>): seq<Receipt> {
    if items == [] then []
    else (if items[0].Dict? then [SafeReceipt(items[0].entries)] else []) + ReadReceipts(items[1..])
  }

  function ReadAttempts(items: seq<Value>): seq<Attempt> {
    if items == [] then []
    else (if items[0].Dict?
          then [SafeAttempt(items[0].entries, BillingInt(Get(items[0].entries, "lease_generation")))]
          else []) + ReadAttempts(items[1..])
  }

  function DirectInt(raw: map<string, Value>, key: string): Option<int> {
    if key in raw then Some(BillingInt(raw[key])) else None
  }

  /** The bounded form of whatever the checkpoint holds under "billing". */
  function Normalize(raw: Value): Snapshot {
    if !raw.Dict? then EMPTY else
    var e := raw.entries;
    var rawReceipts := Get(e, "receipts").ItemsOrEmpty();
    var receipts := LastN(ReadReceipts(rawReceipts), RECEIPT_LIMIT);
    var rawAttempts := Get(e, "incurred_attempts").ItemsOrEmpty();
    var attempts := LastN(ReadAttempts(rawAttempts), ATTEMPT_LIMIT);
    Snapshot(
      BillingCost(Get(e, "cost_usd")),
      Tokens(DirectInt(e, "input_tokens"), DirectInt(e, "output_tokens"), DirectInt(e, "total_tokens")),
      BillingInt(Get(e, "quanta")), BillingInt(Get(e, "last_lease_generation")),
      receipts, BillingInt(Get(e, "receipts_truncated")) + MaxInt(0, |rawReceipts| - |receipts|),
      attempts, BillingInt(Get(e, "incurred_attempts_truncated")) + MaxInt(0, |rawAttempts| - |attempts|))
  }

  predicate Present(usage: Value) {
    && usage.Dict?
    && ("cost_usd" in usage.entries || "input_tokens" in usage.entries
        || "output_tokens" in usage.entries || "total_tokens" in usage.entries
        || "usage" in usage.entries || "incurred_attempts" in usage.entries)
  }

  /** The attempts of a report carry the generation that reported them, whatever they claim. */
  function StampAttempts(items: seq<Value>, generation: int): seq<Attempt> {
    if items == [] then []
    else (if items[0].Dict? then [SafeAttempt(items[0].entries, generation)] else [])
         + StampAttempts(items[1..], generation)
  }

  function ReadReport(usage: Value, leaseGeneration: int): Report {
    var generation := ClampInt(leaseGeneration);
    var e := usage.EntriesOrEmpty();
    var attempts := StampAttempts(Get(e, "incurred_attempts").ItemsOrEmpty(), generation);
    Report(
      Receipt(generation, BillingCost(Get(e, "cost_usd")), ClampInt(|attempts|), UsageNumbers(e),
              BillingPlane(Get(e, "resolved_plane").Or(Get(e, "plane")))),
      attempts)
  }

  // ---------- Writing ----------

  function WithInt(entries: map<string, Value>, key: string, n: Option<int>): map<string, Value> {
    match n
    case Some(v) => entries[key := Number(v as real)]
    case None => entries
  }

  function WithTokens(entries: map<string, Value>, t: Tokens): map<string, Value> {
    WithInt(WithInt(WithInt(entries, "input_tokens", t.input), "output_tokens", t.output),
            "total_tokens", t.total)
  }

  function WithWord(entries: map<string, Value>, key: string, w: Option<string>): map<string, Value> {
    match w
    case Some(word) => entries[key := Word(word)]
    case None => entries
  }

  function PlaneWord(p: Option<Plane>): Option<string> {
    match p
    case Some(Api) => Some("api")
    case Some(Cli) => Some("cli")
    case Some(Mixed) => Some("mixed")
    case None => None
  }

  function EncodeReceipt(r: Receipt): Value {
    Dict(WithWord(WithTokens(map[
      "lease_generation" := Number(r.generation as real), "cost_usd" := Number(r.cost),
      "incurred_attempt_count" := Number(r.attemptCount as real)], r.tokens),
      "plane", PlaneWord(r.plane)))
  }

  function EncodeAttempt(a: Attempt): Value {
    Dict(WithWord(WithWord(WithWord(WithTokens(map[
      "lease_generation" := Number(a.generation as real), "cost_usd" := Number(a.cost)], a.tokens),
      "plane", PlaneWord(a.plane)), "stage", a.stage), "outcome", a.outcome))
  }

  function EncodeReceipts(rs: seq<Receipt>): seq<Value> {
    if rs == [] then [] else [EncodeReceipt(rs[0])] + EncodeReceipts(rs[1..])
  }

  function EncodeAttempts(xs: seq<Attempt>): seq<Value> {
    if xs == [] then [] else [EncodeAttempt(xs[0])] + EncodeAttempts(xs[1..])
  }

  /** The snapshot as the checkpoint stores it. */
  function Encode(b: Snapshot): Value {
    Dict(WithTokens(map[
      "schema_version" := Number(1.0), "cost_usd" := Number(b.cost),
      "quanta" := Number(b.quanta as real),
      "last_lease_generation" := Number(b.lastGeneration as real),
      "receipts" := List(EncodeReceipts(b.receipts)),
      "receipts_truncated" := Number(b.receiptsTruncated as real),
      "incurred_attempts" := List(EncodeAttempts(b.attempts)),
      "incurred_attempts_truncated" := Number(b.attemptsTruncated as real)], b.tokens))
  }

  // ---------- Merging ----------

  /** Position of the first receipt of a generation, or the length if there is none. */
  function FindGeneration(rs: seq<Receipt>, generation: int): (i: nat)
    ensures i <= |rs|
    ensures i < |rs| ==> rs[i].generation == generation
    ensures forall j :: 0 <= j < i ==> rs[j].generation != generation
  {
    if rs == [] || rs[0].generation == generation then 0
    else 1 + FindGeneration(rs[1..], generation)
  }

  function MaxOpt(x: Option<int>, y: Option<int>): Option<int> {
    if x.None? then y else if y.None? then x else Some(MaxInt(x.value, y.value))
  }

  function MaxTokens(x: Tokens, y: Tokens): Tokens {
    Tokens(MaxOpt(x.input, y.input), MaxOpt(x.output, y.output), MaxOpt(x.total, y.total))
  }

  function MaxReceipt(prior: Receipt, current: Receipt): Receipt {
    Receipt(prior.generation, MaxReal(prior.cost, current.cost),
            MaxInt(prior.attemptCount, current.attemptCount), MaxTokens(prior.tokens, current.tokens),
            if current.plane.Some? then current.plane else prior.plane)
  }

  /** A running total after its contribution rises from `before` to `after`. */
  function RaiseInt(total: Option<int>, before: Option<int>, after: Option<int>): Option<int> {
    if before.None? && after.None? then total
    else Some(ClampInt(total.GetOr(0) + MaxInt(0, after.GetOr(0) - before.GetOr(0))))
  }

  function RaiseTokens(total: Tokens, before: Tokens, after: Tokens): Tokens {
    Tokens(RaiseInt(total.input, before.input, after.input),
           RaiseInt(total.output, before.output, after.output),
           RaiseInt(total.total, before.total, after.total))
  }

  function RaiseCost(total: real, before: real, after: real): real {
    ClampCost(total + MaxReal(0.0, after - before))
  }

  /** Everything but the attempts and the trimming of receipts. */
  function PostReceipt(b: Snapshot, r: Receipt): Snapshot {
    var i := FindGeneration(b.receipts, r.generation);
    if i < |b.receipts| then
      var prior := b.receipts[i];
      var merged := MaxReceipt(prior, r);
      b.(receipts := b.receipts[i := merged],
         cost := RaiseCost(b.cost, prior.cost, merged.cost),
         tokens := RaiseTokens(b.tokens, prior.tokens, merged.tokens),
         lastGeneration := MaxInt(b.lastGeneration, r.generation))
    else if r.generation > b.lastGeneration then
      b.(receipts := b.receipts + [r],
         cost := RaiseCost(b.cost, 0.0, r.cost),
         tokens := RaiseTokens(b.tokens, NO_TOKENS, r.tokens),
         quanta := ClampInt(b.quanta + 1),
         lastGeneration := r.generation)
    else b
  }

  function TrimReceipts(b: Snapshot): Snapshot {
    if |b.receipts| <= RECEIPT_LIMIT then b
    else b.(receipts := LastN(b.receipts, RECEIPT_LIMIT),
            receiptsTruncated := ClampInt(b.receiptsTruncated + |b.receipts| - RECEIPT_LIMIT))
  }

  /** Appends each new attempt that is not there yet. */
  function AppendUnseen(xs: seq<Attempt>, more: seq<Attempt>): seq<Attempt>
    decreases |more|
  {
    if more == [] then xs
    else AppendUnseen(if more[0] in xs then xs else xs + [more[0]], more[1..])
  }

  function PostAttempts(b: Snapshot, more: seq<Attempt>): Snapshot {
    var all := AppendUnseen(b.attempts, more);
    if |all| <= ATTEMPT_LIMIT then b.(attempts := all)
    else b.(attempts := LastN(all, ATTEMPT_LIMIT),
            attemptsTruncated := ClampInt(b.attemptsTruncated + |all| - ATTEMPT_LIMIT))
  }

  function Apply(b: Snapshot, rep: Report): Snapshot {
    PostAttempts(TrimReceipts(PostReceipt(b, rep.receipt)), rep.attempts)
  }

  /** One report folded into a checkpoint's billing entry; the result is normalised once more. */
  function Merge(raw: Value, usage: Value, leaseGeneration: int): Snapshot {
    var b := Normalize(raw);
    if !Present(usage) then b
    else Normalize(Encode(Apply(b, ReadReport(usage, leaseGeneration))))
  }

  /** The receipt half of the fold as the source performs it: a search, then updates one by one. */
  method PostInPlace(start: Snapshot, report: Receipt) returns (billing: Snapshot)
    ensures billing == TrimReceipts(PostReceipt(start, report))
  {
    billing := start;
    var current, receipts := report, start.receipts;
    var index := 0;
    while index < |receipts| && receipts[index].generation != current.generation
      invariant 0 <= index <= |receipts|
      invariant forall j :: 0 <= j < index ==> receipts[j].generation != current.generation
    {
      index := index + 1;
    }
    assert index == FindGeneration(receipts, current.generation);

    var isNew := index == |receipts| && current.generation > billing.lastGeneration;
    var billable := true;
    var priorCost, priorTokens := 0.0, NO_TOKENS;
    if index < |receipts| {
      priorCost, priorTokens := receipts[index].cost, receipts[index].tokens;
      current := MaxReceipt(receipts[index], current);
      receipts := receipts[index := current];
    } else if isNew {
      receipts := receipts + [current];
    } else {
      billable := false;
    }
    if billable {
      billing := billing.(cost := RaiseCost(billing.cost, priorCost, current.cost));
      billing := billing.(tokens := RaiseTokens(billing.tokens, priorTokens, current.tokens));
      if isNew {
        billing := billing.(quanta := ClampInt(billing.quanta + 1));
      }
      billing := billing.(lastGeneration := MaxInt(billing.lastGeneration, current.generation));
    }
    assert billing.(receipts := receipts) == PostReceipt(start, report);
    if |receipts| > RECEIPT_LIMIT {
      var dropped := |receipts| - RECEIPT_LIMIT;
      receipts := receipts[dropped..];
      billing := billing.(receiptsTruncated := ClampInt(billing.receiptsTruncated + dropped));
    }
    billing := billing.(receipts := receipts);
  }

  /** The attempt half: a scan that consults a set of what has been seen. */
  method AppendAttempts(start: Snapshot, more: seq<Attempt>) returns (billing: Snapshot)
    ensures billing == PostAttempts(start, more)
  {
    billing := start;
    var attempts, seen := start.attempts, set a | a in start.attempts;
    var k := 0;
    while k < |more|
      invariant 0 <= k <= |more|
      invariant seen == set a | a in attempts
      invariant AppendUnseen(attempts, more[k..]) == AppendUnseen(start.attempts, more)
    {
      var safe := more[k];
      assert more[k..][1..] == more[k + 1..];
      if safe !in seen {
        attempts := attempts + [safe];
        seen := seen + {safe};
      }
      k := k + 1;
    }
    if |attempts| > ATTEMPT_LIMIT {
      var dropped := |attempts| - ATTEMPT_LIMIT;
      attempts := attempts[dropped..];
      billing := billing.(attemptsTruncated := ClampInt(billing.attemptsTruncated + dropped));
    }
    billing := billing.(attempts := attempts);
  }

  method MergeMissionBilling(raw: Value, usage: Value, leaseGeneration: int) returns (billing: Snapshot)
    ensures billing == Merge(raw, usage, leaseGeneration)
  {
    billing := Normalize(raw);
    if Present(usage) {
      var report := ReadReport(usage, leaseGeneration);
      billing := PostInPlace(billing, report.receipt);
      billing := AppendAttempts(billing, report.attempts);
      billing := Normalize(Encode(billing));
    }
  }
}
