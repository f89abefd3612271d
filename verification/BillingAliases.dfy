/**
 * Token counts under an alias. `_usage_numbers` understands seven other spellings of a token count, but
 * whether a document is a usage report at all is decided without them.
 */
module BillingAliases {
  import opened Wrappers
  import opened Values
  import opened Billing
  import opened BillingNormal
  import opened BillingReplay

  const ALIASES: set<string> := {
    "prompt_tokens", "inputTokens", "promptTokens", "completion_tokens", "outputTokens",
    "completionTokens", "totalTokens"
  }

  predicate HasAlias(usage: Value) { usage.Dict? && exists k :: k in ALIASES && k in usage.entries }

  /** What the token reader makes of a document. */
  function TokensRead(usage: Value): Tokens { UsageNumbers(usage.EntriesOrEmpty()) }

  /** Nothing has been recorded for this generation, and nothing for a later one. */
  predicate Unheard(b: Snapshot, generation: int) {
    !HasReceipt(b, generation) && generation > b.lastGeneration
  }

  predicate Recorded(b: Snapshot, generation: int, t: Tokens) {
    HasReceipt(b, generation) && b.receipts[FindGeneration(b.receipts, generation)].tokens == t
  }

  lemma {:induction false} FirstInFinds(source: map<string, Value>, keys: seq<string>)
    ensures FirstIn(source, keys) == None <==> forall k :: k in keys ==> k !in source
  {
    if keys != [] {
      FirstInFinds(source, keys[1..]);
      assert forall k :: k in keys <==> k == keys[0] || k in keys[1..];
    }
  }

  lemma KeysAreAliases()
    ensures forall k :: k in INPUT_KEYS + OUTPUT_KEYS + TOTAL_KEYS <==>
              k in ALIASES || k in {"input_tokens", "output_tokens", "total_tokens"}
  {
  }

  lemma NothingNested(keys: seq<string>)
    ensures FirstIn(map[], keys) == None
  {
    FirstInFinds(map[], keys);
  }

  /** A document that is no report has readable token counts exactly when it has an alias. */
  lemma OnlyAliasesRead(usage: Value)
    requires !Present(usage)
    ensures TokensRead(usage) == NO_TOKENS <==> !HasAlias(usage)
  {
    var e := usage.EntriesOrEmpty();
    NothingNested(INPUT_KEYS);
    NothingNested(OUTPUT_KEYS);
    NothingNested(TOTAL_KEYS);
    FirstInFinds(e, INPUT_KEYS);
    FirstInFinds(e, OUTPUT_KEYS);
    FirstInFinds(e, TOTAL_KEYS);
    KeysAreAliases();
    assert HasAlias(usage) <==> exists k :: k in INPUT_KEYS + OUTPUT_KEYS + TOTAL_KEYS && k in e;
    hide FirstIn, BillingInt;
  }

  lemma AppendedIsRecorded(b: Snapshot, r: Receipt)
    requires Unheard(b, r.generation)
    ensures Recorded(TrimReceipts(PostReceipt(b, r)), r.generation, r.tokens)
  {
    AppendedIsFound(b.receipts, r);
    if |b.receipts| < RECEIPT_LIMIT {
      assert LastN(b.receipts + [r], RECEIPT_LIMIT) == b.receipts + [r];
    }
  }

  lemma ReceiptOfReport(usage: Value, generation: int)
    ensures var r := ReadReport(usage, generation).receipt;
            r.generation == ClampInt(generation) && r.tokens == TokensRead(usage)
  {
  }

  /** The attempts and the closing normalisation leave the receipts as they are. */
  lemma MergedReceipts(raw: Value, usage: Value, generation: int)
    requires Present(usage)
    ensures Merge(raw, usage, generation).receipts
         == TrimReceipts(PostReceipt(Normalize(raw), ReadReport(usage, generation).receipt)).receipts
  {
    MergeUnfolds(raw, usage, generation);
    var b, rep := Normalize(raw), ReadReport(usage, generation);
    hide Normalize, ReadReport, PostReceipt, TrimReceipts, Merge, AppendUnseen;
    assert Apply(b, rep).receipts == TrimReceipts(PostReceipt(b, rep.receipt)).receipts;
  }

  lemma RecordedFrame(b: Snapshot, c: Snapshot, generation: int, t: Tokens)
    requires b.receipts == c.receipts && Recorded(b, generation, t)
    ensures Recorded(c, generation, t)
  {
  }

  lemma ReportIsRecorded(raw: Value, usage: Value, generation: int)
    requires Present(usage) && Unheard(Normalize(raw), ClampInt(generation))
    ensures Recorded(Merge(raw, usage, generation), ClampInt(generation), TokensRead(usage))
  {
    hide *;
    var r := ReadReport(usage, generation).receipt;
    ReceiptOfReport(usage, generation);
    AppendedIsRecorded(Normalize(raw), r);
    MergedReceipts(raw, usage, generation);
    RecordedFrame(TrimReceipts(PostReceipt(Normalize(raw), r)), Merge(raw, usage, generation),
                  r.generation, r.tokens);
  }

  /**
   * Which documents' token counts reach the bill. Folded in for a generation not heard of before, the counts
   * read from a document are those of its receipt if and only if the document is a report (it holds one of
   * the six keys that say so) or there was nothing to read; a document that is no report never changes a thing.
   */
  lemma TokensReachTheirReceipt(raw: Value, usage: Value, generation: int)
    ensures !Present(usage) ==> Merge(raw, usage, generation) == Normalize(raw)
    ensures var once, g := Merge(raw, usage, generation), ClampInt(generation);
            Unheard(Normalize(raw), g) ==>
              (TokensRead(usage) == NO_TOKENS || Recorded(once, g, TokensRead(usage))
               <==> Present(usage) || !HasAlias(usage))
  {
    if !Present(usage) {
      OnlyAliasesRead(usage);
    } else if Unheard(Normalize(raw), ClampInt(generation)) {
      ReportIsRecorded(raw, usage, generation);
    }
    hide Normalize, TokensRead, HasAlias, Present;
  }

  lemma PromptTokensRead(e: map<string, Value>)
    requires e == map["prompt_tokens" := Number(100.0)]
    ensures FirstOf(e, INPUT_KEYS) == Some(100) && FirstOf(e, OUTPUT_KEYS) == FirstOf(e, TOTAL_KEYS) == None
  {
    NothingNested(OUTPUT_KEYS);
    NothingNested(TOTAL_KEYS);
    FirstInFinds(e, OUTPUT_KEYS);
    FirstInFinds(e, TOTAL_KEYS);
    assert INPUT_KEYS[1..][0] == "prompt_tokens";
    assert FirstIn(e, INPUT_KEYS[1..]) == Some(BillingInt(e["prompt_tokens"]));
    assert FirstIn(e, INPUT_KEYS) == FirstIn(e, INPUT_KEYS[1..]);
    hide FirstIn;
  }

  /** A hundred prompt tokens under their other name: read, and then dropped. */
  lemma PromptTokensAreDropped(raw: Value, generation: int)
    ensures var usage := Dict(map["prompt_tokens" := Number(100.0)]);
            && TokensRead(usage) == Tokens(Some(100), None, Some(100))
            && Merge(raw, usage, generation) == Normalize(raw)
  {
    PromptTokensRead(map["prompt_tokens" := Number(100.0)]);
    hide FirstOf, Normalize;
  }
}
