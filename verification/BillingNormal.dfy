/**
 * Normalisation: its result is bounded whatever the checkpoint holds, and reading back what was
 * written is the identity up to the two overflow counters.
 */
module BillingNormal {
  import opened Wrappers
  import opened Values
  import opened Billing

  predicate InRange(n: int) { 0 <= n <= INT_LIMIT }

  predicate OptInRange(n: Option<int>) { n.Some? ==> InRange(n.value) }

  predicate TokensInRange(t: Tokens) {
    OptInRange(t.input) && OptInRange(t.output) && OptInRange(t.total)
  }

  /** A total is present as soon as one of its parts is. */
  predicate TotalDerived(t: Tokens) { t.input.Some? || t.output.Some? ==> t.total.Some? }

  predicate CanonicalReceipt(r: Receipt) {
    && InRange(r.generation) && 0.0 <= r.cost <= COST_LIMIT && InRange(r.attemptCount)
    && TokensInRange(r.tokens) && TotalDerived(r.tokens)
  }

  predicate CanonicalAttempt(a: Attempt) {
    && InRange(a.generation) && 0.0 <= a.cost <= COST_LIMIT
    && TokensInRange(a.tokens) && TotalDerived(a.tokens)
    && (a.stage.Some? ==> a.stage.value in STAGES)
    && (a.outcome.Some? ==> a.outcome.value in OUTCOMES)
  }

  predicate AllReceiptsCanonical(rs: seq<Receipt>) { forall r :: r in rs ==> CanonicalReceipt(r) }

  predicate AllAttemptsCanonical(xs: seq<Attempt>) { forall a :: a in xs ==> CanonicalAttempt(a) }

  predicate Bounded(b: Snapshot) {
    && 0.0 <= b.cost <= COST_LIMIT && TokensInRange(b.tokens)
    && InRange(b.quanta) && InRange(b.lastGeneration)
    && |b.receipts| <= RECEIPT_LIMIT && AllReceiptsCanonical(b.receipts)
    && |b.attempts| <= ATTEMPT_LIMIT && AllAttemptsCanonical(b.attempts)
    && 0 <= b.receiptsTruncated && 0 <= b.attemptsTruncated
  }

  /** Normalisation adds to a clamped counter without clamping again, so a second pass may lower it. */
  function ClampCounters(b: Snapshot): Snapshot {
    b.(receiptsTruncated := ClampInt(b.receiptsTruncated),
       attemptsTruncated := ClampInt(b.attemptsTruncated))
  }

  predicate CountersInRange(b: Snapshot) { InRange(b.receiptsTruncated) && InRange(b.attemptsTruncated) }

  // ---------- Bounds ----------

  lemma {:induction false} FirstInRange(source: map<string, Value>, keys: seq<string>)
    ensures OptInRange(FirstIn(source, keys))
  {
    if keys != [] && keys[0] !in source {
      FirstInRange(source, keys[1..]);
    }
  }

  lemma UsageNumbersRange(value: map<string, Value>)
    ensures TokensInRange(UsageNumbers(value)) && TotalDerived(UsageNumbers(value))
  {
    var nested := Get(value, "usage").EntriesOrEmpty();
    FirstInRange(value, INPUT_KEYS);
    FirstInRange(nested, INPUT_KEYS);
    FirstInRange(value, OUTPUT_KEYS);
    FirstInRange(nested, OUTPUT_KEYS);
    FirstInRange(value, TOTAL_KEYS);
    FirstInRange(nested, TOTAL_KEYS);
  }

  lemma SafeReceiptCanonical(value: map<string, Value>)
    ensures CanonicalReceipt(SafeReceipt(value))
  {
    UsageNumbersRange(value);
  }

  lemma SafeAttemptCanonical(value: map<string, Value>, generation: int)
    ensures CanonicalAttempt(SafeAttempt(value, generation))
    ensures SafeAttempt(value, generation).generation == ClampInt(generation)
  {
    UsageNumbersRange(value);
  }

  lemma {:induction false} ReadReceiptsCanonical(items: seq<Value>)
    ensures |ReadReceipts(items)| <= |items|
    ensures AllReceiptsCanonical(ReadReceipts(items))
  {
    if items != [] {
      ReadReceiptsCanonical(items[1..]);
      if items[0].Dict? { SafeReceiptCanonical(items[0].entries); }
    }
  }

  lemma {:induction false} ReadAttemptsCanonical(items: seq<Value>)
    ensures |ReadAttempts(items)| <= |items|
    ensures AllAttemptsCanonical(ReadAttempts(items))
  {
    if items != [] {
      ReadAttemptsCanonical(items[1..]);
      if items[0].Dict? {
        SafeAttemptCanonical(items[0].entries, BillingInt(Get(items[0].entries, "lease_generation")));
      }
    }
  }

  lemma {:induction false} StampAttemptsCanonical(items: seq<Value>, generation: int)
    ensures forall a :: a in StampAttempts(items, generation)
              ==> CanonicalAttempt(a) && a.generation == ClampInt(generation)
  {
    if items != [] {
      StampAttemptsCanonical(items[1..], generation);
      if items[0].Dict? { SafeAttemptCanonical(items[0].entries, generation); }
    }
  }

  lemma NormalizeBounded(raw: Value)
    ensures Bounded(Normalize(raw))
  {
    if raw.Dict? {
      ReadReceiptsCanonical(Get(raw.entries, "receipts").ItemsOrEmpty());
      ReadAttemptsCanonical(Get(raw.entries, "incurred_attempts").ItemsOrEmpty());
    }
  }

  lemma ReadReportCanonical(usage: Value, leaseGeneration: int)
    ensures var rep := ReadReport(usage, leaseGeneration);
            && CanonicalReceipt(rep.receipt) && rep.receipt.generation == ClampInt(leaseGeneration)
            && AllAttemptsCanonical(rep.attempts)
  {
    var e := usage.EntriesOrEmpty();
    UsageNumbersRange(e);
    StampAttemptsCanonical(Get(e, "incurred_attempts").ItemsOrEmpty(), ClampInt(leaseGeneration));
  }

  // ---------- Reading back ----------

  const STORED_KEYS: set<string> := {
    "lease_generation", "cost_usd", "incurred_attempt_count", "input_tokens", "output_tokens",
    "total_tokens", "plane", "stage", "outcome"
  }

  lemma {:induction false} FirstInAbsent(source: map<string, Value>, keys: seq<string>)
    requires forall k :: k in keys ==> k !in source
    ensures FirstIn(source, keys) == None
  {
    if keys != [] {
      assert keys[0] in keys;
      FirstInAbsent(source, keys[1..]);
    }
  }

  /** A canonical token entry is found under its own name, and no alias is ever stored. */
  lemma FirstOfStored(e: map<string, Value>, keys: seq<string>)
    requires e.Keys <= STORED_KEYS
    requires keys == INPUT_KEYS || keys == OUTPUT_KEYS || keys == TOTAL_KEYS
    ensures FirstOf(e, keys) == DirectInt(e, keys[0])
  {
    assert "usage" !in STORED_KEYS;
    FirstInAbsent(map[], keys);
    if keys[0] !in e {
      forall k | k in keys ensures k !in e {
        assert k == keys[0] || k !in STORED_KEYS;
      }
      FirstInAbsent(e, keys);
    }
  }

  lemma NumberReadsBack(n: int)
    requires InRange(n)
    ensures BillingInt(Number(n as real)) == n
  {
  }

  lemma TokensReadBack(e: map<string, Value>, t: Tokens)
    requires e.Keys <= STORED_KEYS - {"input_tokens", "output_tokens", "total_tokens"}
    requires TokensInRange(t)
    ensures var f := WithTokens(e, t);
            && f.Keys <= STORED_KEYS
            && (forall k :: k in e ==> k in f && f[k] == e[k])
            && (forall k :: k in f ==> k in e || k in {"input_tokens", "output_tokens", "total_tokens"})
            && Tokens(DirectInt(f, "input_tokens"), DirectInt(f, "output_tokens"),
                      DirectInt(f, "total_tokens")) == t
  {
    if t.input.Some? { NumberReadsBack(t.input.value); }
    if t.output.Some? { NumberReadsBack(t.output.value); }
    if t.total.Some? { NumberReadsBack(t.total.value); }
  }

  /** Reading the numbers of an entry that holds tokens t and, beside them, only stored labels. */
  lemma StoredNumbers(e: map<string, Value>, t: Tokens)
    requires e.Keys <= STORED_KEYS
    requires Tokens(DirectInt(e, "input_tokens"), DirectInt(e, "output_tokens"),
                    DirectInt(e, "total_tokens")) == t
    requires TotalDerived(t)
    ensures UsageNumbers(e) == t
  {
    FirstOfStored(e, INPUT_KEYS);
    FirstOfStored(e, OUTPUT_KEYS);
    FirstOfStored(e, TOTAL_KEYS);
  }

  lemma PlaneReadsBack(p: Option<Plane>)
    ensures p.Some? ==> BillingPlane(Word(PlaneWord(p).value)) == p && Word(PlaneWord(p).value).Truthy()
    ensures BillingPlane(Null) == None
  {
  }

  function ReceiptNumbers(r: Receipt): map<string, Value> {
    WithTokens(map["lease_generation" := Number(r.generation as real), "cost_usd" := Number(r.cost),
                   "incurred_attempt_count" := Number(r.attemptCount as real)], r.tokens)
  }

  lemma ReceiptNumbersAre(r: Receipt)
    requires TokensInRange(r.tokens)
    ensures var e := ReceiptNumbers(r);
            && e.Keys <= STORED_KEYS - {"plane"}
            && Get(e, "lease_generation") == Number(r.generation as real)
            && Get(e, "cost_usd") == Number(r.cost)
            && Get(e, "incurred_attempt_count") == Number(r.attemptCount as real)
            && Tokens(DirectInt(e, "input_tokens"), DirectInt(e, "output_tokens"),
                      DirectInt(e, "total_tokens")) == r.tokens
  {
    var e0 := map["lease_generation" := Number(r.generation as real), "cost_usd" := Number(r.cost),
                  "incurred_attempt_count" := Number(r.attemptCount as real)];
    assert e0.Keys == {"lease_generation", "cost_usd", "incurred_attempt_count"};
    TokensReadBack(e0, r.tokens);
    hide WithTokens, DirectInt;
  }

  lemma ReceiptIsLabelled(r: Receipt)
    ensures EncodeReceipt(r) == Dict(WithWord(ReceiptNumbers(r), "plane", PlaneWord(r.plane)))
  {
    hide WithWord, WithTokens, PlaneWord;
  }

  lemma ReceiptReadsBack(r: Receipt)
    requires CanonicalReceipt(r)
    ensures SafeReceipt(EncodeReceipt(r).entries) == r
  {
    NumberReadsBack(r.generation);
    NumberReadsBack(r.attemptCount);
    assert BillingCost(Number(r.cost)) == r.cost;
    assert PlaneWord(r.plane).Some? == r.plane.Some?;
    ReceiptIsLabelled(r);
    var e1 := ReceiptNumbers(r);
    var e := EncodeReceipt(r).entries;
    hide WithWord, Get, DirectInt, EncodeReceipt, ReceiptNumbers, BillingInt, BillingCost, BillingPlane, PlaneWord;
    hide UsageNumbers, TokensInRange, Word;
    ReceiptNumbersAre(r);
    WordStored(e1, "plane", PlaneWord(r.plane));
    TokensSurvive(e1, e);
    StoredNumbers(e, r.tokens);
    PlaneReadsBack(r.plane);
  }

  lemma WordStored(e: map<string, Value>, key: string, w: Option<string>)
    requires e.Keys <= STORED_KEYS && key in STORED_KEYS && key !in e
    ensures var f := WithWord(e, key, w);
            && f.Keys <= STORED_KEYS
            && Get(f, key) == (if w.Some? then Word(w.value) else Null)
            && forall k :: k != key ==> Get(f, k) == Get(e, k) && (k in f <==> k in e)
  {
  }

  lemma ClosedLabelReadsBack(w: Option<string>, vocabulary: set<string>)
    requires vocabulary == STAGES || vocabulary == OUTCOMES
    requires w.Some? ==> w.value in vocabulary
    ensures ClosedLabel(if w.Some? then Word(w.value) else Null, vocabulary) == w
  {
    assert "" !in STAGES && "" !in OUTCOMES;
  }

  /** The labels of an attempt, written over entries that hold none of them yet. */
  lemma LabelsStored(e1: map<string, Value>, a: Attempt)
    requires e1.Keys <= STORED_KEYS - {"plane", "stage", "outcome"}
    ensures var e := WithWord(WithWord(WithWord(e1, "plane", PlaneWord(a.plane)), "stage", a.stage), "outcome", a.outcome);
            && e.Keys <= STORED_KEYS
            && Get(e, "plane") == (if a.plane.Some? then Word(PlaneWord(a.plane).value) else Null)
            && Get(e, "stage") == (if a.stage.Some? then Word(a.stage.value) else Null)
            && Get(e, "outcome") == (if a.outcome.Some? then Word(a.outcome.value) else Null)
            && forall k :: k !in {"plane", "stage", "outcome"} ==> Get(e, k) == Get(e1, k) && (k in e <==> k in e1)
  {
    var e2 := WithWord(e1, "plane", PlaneWord(a.plane));
    var e3 := WithWord(e2, "stage", a.stage);
    assert PlaneWord(a.plane).Some? == a.plane.Some?;
    hide WithWord, Get, PlaneWord, Word;
    WordStored(e1, "plane", PlaneWord(a.plane));
    WordStored(e2, "stage", a.stage);
    WordStored(e3, "outcome", a.outcome);
  }

  function AttemptNumbers(a: Attempt): map<string, Value> {
    WithTokens(map["lease_generation" := Number(a.generation as real), "cost_usd" := Number(a.cost)], a.tokens)
  }

  lemma AttemptNumbersAre(a: Attempt)
    requires TokensInRange(a.tokens)
    ensures var e := AttemptNumbers(a);
            && e.Keys <= STORED_KEYS - {"plane", "stage", "outcome"}
            && Get(e, "lease_generation") == Number(a.generation as real)
            && Get(e, "cost_usd") == Number(a.cost)
            && Tokens(DirectInt(e, "input_tokens"), DirectInt(e, "output_tokens"),
                      DirectInt(e, "total_tokens")) == a.tokens
  {
    var e0 := map["lease_generation" := Number(a.generation as real), "cost_usd" := Number(a.cost)];
    assert e0.Keys == {"lease_generation", "cost_usd"};
    TokensReadBack(e0, a.tokens);
    hide WithTokens, DirectInt;
  }

  lemma AttemptIsLabelled(a: Attempt)
    ensures EncodeAttempt(a) == Dict(
      WithWord(WithWord(WithWord(AttemptNumbers(a), "plane", PlaneWord(a.plane)), "stage", a.stage), "outcome", a.outcome))
  {
    hide WithWord, WithTokens, PlaneWord;
  }

  /** What the entries of a stored attempt hold under each key. */
  lemma AttemptEntries(a: Attempt)
    requires TokensInRange(a.tokens)
    ensures var e := EncodeAttempt(a).entries;
            && e.Keys <= STORED_KEYS && "resolved_plane" !in e
            && Get(e, "lease_generation") == Number(a.generation as real)
            && Get(e, "cost_usd") == Number(a.cost)
            && Get(e, "plane") == (if a.plane.Some? then Word(PlaneWord(a.plane).value) else Null)
            && Get(e, "stage") == (if a.stage.Some? then Word(a.stage.value) else Null)
            && Get(e, "outcome") == (if a.outcome.Some? then Word(a.outcome.value) else Null)
            && Tokens(DirectInt(e, "input_tokens"), DirectInt(e, "output_tokens"),
                      DirectInt(e, "total_tokens")) == a.tokens
  {
    AttemptIsLabelled(a);
    hide WithWord, Get, Word, DirectInt, EncodeAttempt, AttemptNumbers, TokensInRange;
    AttemptNumbersAre(a);
    LabelsStored(AttemptNumbers(a), a);
    TokensSurvive(AttemptNumbers(a), EncodeAttempt(a).entries);
  }

  lemma TokensSurvive(e: map<string, Value>, f: map<string, Value>)
    requires forall k :: k in {"input_tokens", "output_tokens", "total_tokens"}
               ==> Get(f, k) == Get(e, k) && (k in f <==> k in e)
    ensures Tokens(DirectInt(e, "input_tokens"), DirectInt(e, "output_tokens"), DirectInt(e, "total_tokens"))
         == Tokens(DirectInt(f, "input_tokens"), DirectInt(f, "output_tokens"), DirectInt(f, "total_tokens"))
  {
    assert Get(f, "input_tokens") == Get(e, "input_tokens");
    assert Get(f, "output_tokens") == Get(e, "output_tokens");
    assert Get(f, "total_tokens") == Get(e, "total_tokens");
  }

  lemma AttemptReadsBack(a: Attempt)
    requires CanonicalAttempt(a)
    ensures var e := EncodeAttempt(a).entries;
            SafeAttempt(e, BillingInt(Get(e, "lease_generation"))) == a
  {
    var e := EncodeAttempt(a).entries;
    AttemptEntries(a);
    NumberReadsBack(a.generation);
    assert BillingCost(Number(a.cost)) == a.cost && ClampInt(a.generation) == a.generation;
    PlaneReadsBack(a.plane);
    assert Get(e, "plane").Or(Get(e, "resolved_plane")) == Get(e, "plane");
    hide Get, DirectInt, EncodeAttempt, BillingInt, BillingCost, BillingPlane, PlaneWord, UsageNumbers, ClosedLabel, Word;
    StoredNumbers(e, a.tokens);
    ClosedLabelReadsBack(a.stage, STAGES);
    ClosedLabelReadsBack(a.outcome, OUTCOMES);
  }

  lemma {:induction false} ReceiptsReadBack(rs: seq<Receipt>)
    requires AllReceiptsCanonical(rs)
    ensures |EncodeReceipts(rs)| == |rs| && ReadReceipts(EncodeReceipts(rs)) == rs
  {
    if rs != [] {
      ReceiptReadsBack(rs[0]);
      ReceiptsReadBack(rs[1..]);
      assert EncodeReceipts(rs)[1..] == EncodeReceipts(rs[1..]);
    }
  }

  lemma {:induction false} AttemptsReadBack(xs: seq<Attempt>)
    requires AllAttemptsCanonical(xs)
    ensures |EncodeAttempts(xs)| == |xs| && ReadAttempts(EncodeAttempts(xs)) == xs
  {
    if xs != [] {
      AttemptReadsBack(xs[0]);
      AttemptsReadBack(xs[1..]);
      assert EncodeAttempts(xs)[1..] == EncodeAttempts(xs[1..]);
    }
  }

  predicate StoredAs(e: map<string, Value>, b: Snapshot) {
    && Get(e, "cost_usd") == Number(b.cost)
    && Get(e, "quanta") == Number(b.quanta as real)
    && Get(e, "last_lease_generation") == Number(b.lastGeneration as real)
    && Get(e, "receipts") == List(EncodeReceipts(b.receipts))
    && Get(e, "receipts_truncated") == Number(b.receiptsTruncated as real)
    && Get(e, "incurred_attempts") == List(EncodeAttempts(b.attempts))
    && Get(e, "incurred_attempts_truncated") == Number(b.attemptsTruncated as real)
    && Tokens(DirectInt(e, "input_tokens"), DirectInt(e, "output_tokens"),
              DirectInt(e, "total_tokens")) == b.tokens
  }

  lemma NumbersReadBack(e: map<string, Value>, b: Snapshot)
    requires Bounded(b) && StoredAs(e, b)
    ensures BillingCost(Get(e, "cost_usd")) == b.cost
    ensures BillingInt(Get(e, "quanta")) == b.quanta
    ensures BillingInt(Get(e, "last_lease_generation")) == b.lastGeneration
    ensures BillingInt(Get(e, "receipts_truncated")) == ClampInt(b.receiptsTruncated)
    ensures BillingInt(Get(e, "incurred_attempts_truncated")) == ClampInt(b.attemptsTruncated)
  {
    NumberReadsBack(b.quanta);
    NumberReadsBack(b.lastGeneration);
    CounterReadsBack(b.receiptsTruncated);
    CounterReadsBack(b.attemptsTruncated);
    hide BillingInt, AllReceiptsCanonical, AllAttemptsCanonical, EncodeReceipts, EncodeAttempts;
  }

  lemma ListsReadBack(e: map<string, Value>, b: Snapshot)
    requires Bounded(b) && StoredAs(e, b)
    ensures var rs := Get(e, "receipts").ItemsOrEmpty();
            |rs| == |b.receipts| && LastN(ReadReceipts(rs), RECEIPT_LIMIT) == b.receipts
    ensures var xs := Get(e, "incurred_attempts").ItemsOrEmpty();
            |xs| == |b.attempts| && LastN(ReadAttempts(xs), ATTEMPT_LIMIT) == b.attempts
  {
    ReceiptsReadBack(b.receipts);
    AttemptsReadBack(b.attempts);
    hide BillingInt, BillingCost, ReadReceipts, ReadAttempts, EncodeReceipts, EncodeAttempts;
  }

  lemma StoredReadsBack(e: map<string, Value>, b: Snapshot)
    requires Bounded(b) && StoredAs(e, b)
    ensures Normalize(Dict(e)) == ClampCounters(b)
  {
    hide BillingInt, BillingCost, ReadReceipts, ReadAttempts, EncodeReceipts, EncodeAttempts, DirectInt, Get, LastN;
    hide AllReceiptsCanonical, AllAttemptsCanonical, ClampInt;
    NumbersReadBack(e, b);
    ListsReadBack(e, b);
  }

  /** Round trip: a bounded snapshot read back from the checkpoint is itself, counters clamped. */
  lemma SnapshotReadsBack(b: Snapshot)
    requires Bounded(b)
    ensures Normalize(Encode(b)) == ClampCounters(b)
  {
    SnapshotFields(b);
    EncodeIsPlain(b);
    hide *;
    StoredReadsBack(Encode(b).entries, b);
  }

  lemma CounterReadsBack(n: int)
    requires 0 <= n
    ensures BillingInt(Number(n as real)) == ClampInt(n)
  {
  }

  lemma TokensFrame(e: map<string, Value>, t: Tokens, key: string)
    requires key !in {"input_tokens", "output_tokens", "total_tokens"}
    ensures Get(WithTokens(e, t), key) == Get(e, key)
  {
  }

  function PlainFields(b: Snapshot): map<string, Value> {
    map[
      "schema_version" := Number(1.0), "cost_usd" := Number(b.cost),
      "quanta" := Number(b.quanta as real),
      "last_lease_generation" := Number(b.lastGeneration as real),
      "receipts" := List(EncodeReceipts(b.receipts)),
      "receipts_truncated" := Number(b.receiptsTruncated as real),
      "incurred_attempts" := List(EncodeAttempts(b.attempts)),
      "incurred_attempts_truncated" := Number(b.attemptsTruncated as real)]
  }

  lemma PlainFieldsAre(b: Snapshot)
    ensures var e := PlainFields(b);
            && Get(e, "cost_usd") == Number(b.cost)
            && Get(e, "quanta") == Number(b.quanta as real)
            && Get(e, "last_lease_generation") == Number(b.lastGeneration as real)
            && Get(e, "receipts") == List(EncodeReceipts(b.receipts))
            && Get(e, "receipts_truncated") == Number(b.receiptsTruncated as real)
            && Get(e, "incurred_attempts") == List(EncodeAttempts(b.attempts))
            && Get(e, "incurred_attempts_truncated") == Number(b.attemptsTruncated as real)
            && "input_tokens" !in e && "output_tokens" !in e && "total_tokens" !in e
  {
    hide EncodeReceipts, EncodeAttempts;
  }

  lemma EncodeIsPlain(b: Snapshot)
    ensures Encode(b) == Dict(WithTokens(PlainFields(b), b.tokens))
  {
    hide EncodeReceipts, EncodeAttempts, WithTokens;
  }

  /** Where each field of a snapshot is stored. */
  lemma SnapshotFields(b: Snapshot)
    requires TokensInRange(b.tokens)
    ensures StoredAs(Encode(b).entries, b)
  {
    EncodeIsPlain(b);
    PlainFieldsAre(b);
    var e0 := PlainFields(b);
    hide PlainFields, Encode, WithTokens, Get, EncodeReceipts, EncodeAttempts, DirectInt;
    TokensFrame(e0, b.tokens, "cost_usd");
    TokensFrame(e0, b.tokens, "quanta");
    TokensFrame(e0, b.tokens, "last_lease_generation");
    TokensFrame(e0, b.tokens, "receipts");
    TokensFrame(e0, b.tokens, "receipts_truncated");
    TokensFrame(e0, b.tokens, "incurred_attempts");
    TokensFrame(e0, b.tokens, "incurred_attempts_truncated");
    SnapshotTokens(e0, b.tokens);
  }

  lemma SnapshotTokens(e: map<string, Value>, t: Tokens)
    requires TokensInRange(t) && "input_tokens" !in e && "output_tokens" !in e && "total_tokens" !in e
    ensures var f := WithTokens(e, t);
            Tokens(DirectInt(f, "input_tokens"), DirectInt(f, "output_tokens"), DirectInt(f, "total_tokens")) == t
  {
    if t.input.Some? { NumberReadsBack(t.input.value); }
    if t.output.Some? { NumberReadsBack(t.output.value); }
    if t.total.Some? { NumberReadsBack(t.total.value); }
    hide BillingInt;
  }

  /** Normalising twice is normalising once exactly when neither overflow counter passed its cap. */
  lemma NormalizeTwice(raw: Value)
    ensures Normalize(Encode(Normalize(raw))) == ClampCounters(Normalize(raw))
    ensures Normalize(Encode(Normalize(raw))) == Normalize(raw) <==> CountersInRange(Normalize(raw))
  {
    NormalizeBounded(raw);
    SnapshotReadsBack(Normalize(raw));
  }

  /** A counter at its cap, and one entry that is not a receipt. */
  lemma CounterPastItsCap(e: map<string, Value>)
    requires Get(e, "receipts") == List([Null]) && Get(e, "receipts_truncated") == Number(INT_LIMIT as real)
    ensures !CountersInRange(Normalize(Dict(e)))
  {
    CounterOf(e);
    CounterReadsBack(INT_LIMIT);
    assert ReadReceipts([Null]) == [];
    hide Normalize, BillingInt, Get, ReadReceipts;
  }

  /** The exception is real. */
  lemma NormalizeTwiceCanDiffer()
    ensures var raw := Dict(map["receipts" := List([Null]), "receipts_truncated" := Number(INT_LIMIT as real)]);
            Normalize(Encode(Normalize(raw))) != Normalize(raw)
  {
    var e := map["receipts" := List([Null]), "receipts_truncated" := Number(INT_LIMIT as real)];
    CounterPastItsCap(e);
    hide *;
    NormalizeTwice(Dict(e));
  }

  lemma CounterOf(e: map<string, Value>)
    ensures Normalize(Dict(e)).receiptsTruncated
         == var items := Get(e, "receipts").ItemsOrEmpty();
            BillingInt(Get(e, "receipts_truncated")) + MaxInt(0, |items| - |LastN(ReadReceipts(items), RECEIPT_LIMIT)|)
  {
    hide ReadReceipts, ReadAttempts, BillingInt, BillingCost, DirectInt;
  }

  // ---------- Merging keeps the bounds ----------

  lemma {:induction false} AppendUnseenCanonical(xs: seq<Attempt>, more: seq<Attempt>)
    requires AllAttemptsCanonical(xs)
    requires AllAttemptsCanonical(more)
    ensures AllAttemptsCanonical(AppendUnseen(xs, more))
    decreases |more|
  {
    if more != [] {
      assert more[0] in more;
      AppendUnseenCanonical(if more[0] in xs then xs else xs + [more[0]], more[1..]);
    }
  }

  lemma RaisedInRange(t: Tokens, x: Tokens, y: Tokens)
    requires TokensInRange(t)
    ensures TokensInRange(RaiseTokens(t, x, y))
  {
  }

  lemma ReceiptsStayCanonical(rs: seq<Receipt>, i: nat, r: Receipt)
    requires AllReceiptsCanonical(rs) && CanonicalReceipt(r)
    ensures AllReceiptsCanonical(LastN(rs + [r], RECEIPT_LIMIT))
    ensures i < |rs| ==> AllReceiptsCanonical(rs[i := r])
  {
    hide CanonicalReceipt;
    assert forall x :: x in LastN(rs + [r], RECEIPT_LIMIT) ==> x == r || x in rs;
    if i < |rs| {
      assert forall x :: x in rs[i := r] ==> x == r || x in rs;
    }
  }

  lemma PostReceiptBounded(b: Snapshot, r: Receipt)
    requires Bounded(b) && CanonicalReceipt(r)
    ensures Bounded(TrimReceipts(PostReceipt(b, r)))
  {
    hide AllAttemptsCanonical;
    var i := FindGeneration(b.receipts, r.generation);
    if i < |b.receipts| {
      var prior := b.receipts[i];
      assert prior in b.receipts;
      var merged := MaxReceipt(prior, r);
      assert CanonicalReceipt(merged);
      RaisedInRange(b.tokens, prior.tokens, merged.tokens);
      ReceiptsStayCanonical(b.receipts, i, merged);
    } else {
      RaisedInRange(b.tokens, NO_TOKENS, r.tokens);
      ReceiptsStayCanonical(b.receipts, i, r);
    }
    hide AllReceiptsCanonical, MaxReceipt, FindGeneration, RaiseTokens, TokensInRange;
  }

  lemma ApplyBounded(b: Snapshot, rep: Report)
    requires Bounded(b) && CanonicalReceipt(rep.receipt)
    requires AllAttemptsCanonical(rep.attempts)
    ensures Bounded(Apply(b, rep))
  {
    PostReceiptBounded(b, rep.receipt);
    AppendUnseenCanonical(TrimReceipts(PostReceipt(b, rep.receipt)).attempts, rep.attempts);
  }

  /** Merging amounts to normalise, apply, clamp: the closing normalisation changes nothing else. */
  lemma MergeUnfolds(raw: Value, usage: Value, leaseGeneration: int)
    requires Present(usage)
    ensures Merge(raw, usage, leaseGeneration)
         == ClampCounters(Apply(Normalize(raw), ReadReport(usage, leaseGeneration)))
    ensures Bounded(Merge(raw, usage, leaseGeneration))
    ensures CountersInRange(Merge(raw, usage, leaseGeneration))
  {
    var b, rep := Normalize(raw), ReadReport(usage, leaseGeneration);
    NormalizeBounded(raw);
    ReadReportCanonical(usage, leaseGeneration);
    ApplyBounded(b, rep);
    SnapshotReadsBack(Apply(b, rep));
  }
}
