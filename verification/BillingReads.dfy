/**
 * What billing reads from a document, key by key and value by value: token counts at the top or in the nested `usage`
 * dict, money, planes, receipts and attempts, and which of a stored list are kept.
 */
module BillingReads {
  import opened Wrappers
  import opened Values
  import opened Billing
  import opened BillingNormal
  import opened BillingReplay
  import BillingAliases
  import BillingLedger

  // ---------- Token counts ----------

  predicate Silent(e: map<string, Value>, names: seq<string>) { forall name :: name in names ==> name !in e }

  /** The first of these names that the entries hold stands for this value. */
  predicate SaysFirst(e: map<string, Value>, names: seq<string>, v: Value) {
    exists k :: 0 <= k < |names| && names[k] in e && e[names[k]] == v && Silent(e, names[..k])
  }

  /** The nested `usage` dict of a document, or nothing. */
  function Nested(e: map<string, Value>): map<string, Value> {
    if "usage" in e && e["usage"].Dict? then e["usage"].entries else map[]
  }

  /** A count is that of the first name at the top, else that of the first name in the nested dict, else absent. */
  ghost predicate CountRead(e: map<string, Value>, names: seq<string>, n: Option<int>) {
    if !Silent(e, names) then exists v :: SaysFirst(e, names, v) && n == Some(BillingInt(v))
    else if !Silent(Nested(e), names) then exists v :: SaysFirst(Nested(e), names, v) && n == Some(BillingInt(v))
    else n == None
  }

  lemma SaysFirstLater(e: map<string, Value>, names: seq<string>, v: Value)
    requires names != [] && names[0] !in e && SaysFirst(e, names[1..], v)
    ensures SaysFirst(e, names, v)
  {
    var rest := names[1..];
    var k :| 0 <= k < |rest| && rest[k] in e && e[rest[k]] == v && Silent(e, rest[..k]);
    assert names[k + 1] == rest[k];
    forall name | name in names[..k + 1] ensures name !in e {
      var i :| 0 <= i < k + 1 && names[i] == name;
      assert i > 0 ==> rest[..k][i - 1] == name;
    }
  }

  lemma SaysFirstNow(e: map<string, Value>, names: seq<string>)
    requires names != [] && names[0] in e
    ensures SaysFirst(e, names, e[names[0]]) && !Silent(e, names)
  {
    assert Silent(e, names[..0]);
    assert names[0] in names;
  }

  lemma SilentBehind(e: map<string, Value>, names: seq<string>)
    requires names != [] && names[0] !in e
    ensures Silent(e, names) <==> Silent(e, names[1..])
  {
    assert forall name :: name in names <==> name == names[0] || name in names[1..];
  }

  lemma {:induction false} FirstInSays(e: map<string, Value>, names: seq<string>)
    ensures FirstIn(e, names) == None <==> Silent(e, names)
    ensures FirstIn(e, names).Some? ==>
              exists v :: SaysFirst(e, names, v) && FirstIn(e, names) == Some(BillingInt(v))
  {
    if names != [] {
      hide BillingInt, SaysFirst, Silent;
      if names[0] in e {
        SaysFirstNow(e, names);
      } else {
        FirstInSays(e, names[1..]);
        SilentBehind(e, names);
        if FirstIn(e, names[1..]).Some? {
          var v :| SaysFirst(e, names[1..], v) && FirstIn(e, names[1..]) == Some(BillingInt(v));
          SaysFirstLater(e, names, v);
        }
      }
    }
  }

  lemma FirstOfReads(e: map<string, Value>, names: seq<string>)
    ensures CountRead(e, names, FirstOf(e, names))
  {
    FirstInSays(e, names);
    FirstInSays(Nested(e), names);
    assert Nested(e) == Get(e, "usage").EntriesOrEmpty();
    hide FirstIn, SaysFirst, Silent, BillingInt;
  }

  /**
   * The token reader. Each count is read under four spellings (the total under two), at the top before the nested dict;
   * a total that stands nowhere is the sum of the parts that do.
   */
  lemma UsageNumbersRead(e: map<string, Value>)
    ensures var t := UsageNumbers(e);
            && CountRead(e, ["input_tokens", "prompt_tokens", "inputTokens", "promptTokens"], t.input)
            && CountRead(e, ["output_tokens", "completion_tokens", "outputTokens", "completionTokens"], t.output)
            && (if Silent(e, ["total_tokens", "totalTokens"]) && Silent(Nested(e), ["total_tokens", "totalTokens"])
                   && (t.input.Some? || t.output.Some?)
                then t.total == Some(MinInt(1_000_000_000_000_000, t.input.GetOr(0) + t.output.GetOr(0)))
                else CountRead(e, ["total_tokens", "totalTokens"], t.total))
  {
    FirstOfReads(e, INPUT_KEYS);
    FirstOfReads(e, OUTPUT_KEYS);
    FirstOfReads(e, TOTAL_KEYS);
    UsageNumbersRange(e);
    TotalIsAbsent(e);
    hide FirstOf, CountRead;
  }

  lemma TotalIsAbsent(e: map<string, Value>)
    ensures FirstOf(e, TOTAL_KEYS).None? <==> Silent(e, TOTAL_KEYS) && Silent(Nested(e), TOTAL_KEYS)
  {
    FirstInSays(e, TOTAL_KEYS);
    FirstInSays(Nested(e), TOTAL_KEYS);
    assert Nested(e) == Get(e, "usage").EntriesOrEmpty();
    hide FirstIn, Silent, SaysFirst, BillingInt;
  }

  const TOKEN_NAMES: set<string> := {
    "input_tokens", "prompt_tokens", "inputTokens", "promptTokens", "output_tokens", "completion_tokens",
    "outputTokens", "completionTokens", "total_tokens", "totalTokens"
  }

  lemma FirstOfNested(e: map<string, Value>, names: seq<string>)
    requires Silent(e, names) && "usage" !in Nested(e)
    ensures FirstOf(e, names) == FirstOf(Nested(e), names)
  {
    FirstInSays(e, names);
    FirstInSays(map[], names);
    assert Nested(e) == Get(e, "usage").EntriesOrEmpty();
    hide SaysFirst, BillingInt;
  }

  /** A document whose only token counts are nested has the counts of the nested document. */
  lemma NestedCountsCount(e: map<string, Value>)
    requires (forall name :: name in TOKEN_NAMES ==> name !in e) && "usage" !in Nested(e)
    ensures UsageNumbers(e) == UsageNumbers(Nested(e))
  {
    assert Silent(e, INPUT_KEYS) && Silent(e, OUTPUT_KEYS) && Silent(e, TOTAL_KEYS);
    hide Silent, FirstOf, Nested;
    FirstOfNested(e, INPUT_KEYS);
    FirstOfNested(e, OUTPUT_KEYS);
    FirstOfNested(e, TOTAL_KEYS);
  }

  /** What a chat completion reports: its counts are nested, under their other names. */
  const API_USAGE: map<string, Value> := map[
    "prompt_tokens" := Number(100.0), "completion_tokens" := Number(20.0), "total_tokens" := Number(120.0)]

  const API_REPLY: map<string, Value> := map["cost_usd" := Number(0.5), "usage" := Dict(API_USAGE)]

  lemma ApiUsageReads()
    ensures UsageNumbers(API_USAGE) == Tokens(Some(100), Some(20), Some(120))
  {
    var e := API_USAGE;
    BillingAliases.NothingNested(INPUT_KEYS);
    assert INPUT_KEYS[1..][0] == "prompt_tokens" && OUTPUT_KEYS[1..][0] == "completion_tokens";
    assert FirstIn(e, INPUT_KEYS[1..]) == Some(BillingInt(e["prompt_tokens"]));
    assert FirstIn(e, OUTPUT_KEYS[1..]) == Some(BillingInt(e["completion_tokens"]));
    assert FirstIn(e, INPUT_KEYS) == FirstIn(e, INPUT_KEYS[1..]);
    assert FirstIn(e, OUTPUT_KEYS) == FirstIn(e, OUTPUT_KEYS[1..]);
    assert FirstIn(e, TOTAL_KEYS) == Some(BillingInt(e["total_tokens"]));
    hide FirstIn;
  }

  lemma ApiReplySays(generation: int)
    requires 1 <= generation <= INT_LIMIT
    ensures Present(Dict(API_REPLY))
    ensures var r := ReadReport(Dict(API_REPLY), generation).receipt;
            r.generation == generation && r.cost == 0.5 && r.tokens == Tokens(Some(100), Some(20), Some(120))
  {
    ApiUsageReads();
    NestedCountsCount(API_REPLY);
    ReportSays(API_REPLY, generation);
    assert BillingCost(Number(0.5)) == 0.5;
    hide ReadReport, UsageNumbers, BillingCost;
  }

  lemma FirstReceipt(r: Receipt)
    requires CanonicalReceipt(r) && r.generation > 0
    ensures var b := PostReceipt(EMPTY, r);
            b.cost == r.cost && b.tokens == r.tokens && b.quanta == 1 && TrimReceipts(b) == b
  {
  }

  /** So an ordinary API reply is billed with its cost and its three nested counts. */
  lemma ApiReplyIsBilled(generation: int)
    requires 1 <= generation <= INT_LIMIT
    ensures var b := Merge(Null, Dict(API_REPLY), generation);
            b.cost == 0.5 && b.tokens == Tokens(Some(100), Some(20), Some(120)) && b.quanta == 1
  {
    var usage := Dict(API_REPLY);
    var rep := ReadReport(usage, generation);
    hide *;
    ApiReplySays(generation);
    ReadReportCanonical(usage, generation);
    FirstReceipt(rep.receipt);
    MergeUnfolds(Null, usage, generation);
    NothingStored();
    AppliedTotals(EMPTY, rep);
  }

  lemma NothingStored()
    ensures Normalize(Null) == EMPTY
  {
  }

  lemma AppliedTotals(b: Snapshot, rep: Report)
    ensures var c, next := TrimReceipts(PostReceipt(b, rep.receipt)), ClampCounters(Apply(b, rep));
            next.cost == c.cost && next.tokens == c.tokens && next.quanta == c.quanta
  {
    hide PostReceipt, TrimReceipts, AppendUnseen, LastN;
  }

  // ---------- Numbers and labels ----------

  /** Money is cut to the range from nothing to a billion; what is no number, or not finite, costs nothing. */
  lemma MoneyReads(x: real, n: int, flag: bool, text: string, reading: Option<int>, folded: string)
    ensures BillingCost(Number(x)) == if x < 0.0 then 0.0 else if x > 1_000_000_000.0 then 1_000_000_000.0 else x
    ensures BillingCost(Bool(flag)) == if flag then 1.0 else 0.0
    ensures BillingCost(HugeInt(n)) == BillingCost(NonFinite) == BillingCost(Null) == 0.0
    ensures BillingCost(Text(text, None, reading, folded)) == 0.0
    ensures text != "" ==> BillingCost(Text(text, Some(x), reading, folded)) == BillingCost(Number(x))
  {
  }

  /** Counts are truncated and cut to the range from nothing to 10^15. */
  lemma CountsRead(x: real, n: int, flag: bool, text: string, reading: Option<real>, folded: string)
    ensures 0.0 <= x <= 1_000_000_000_000_000.0 ==>
              BillingInt(Number(x)) as real <= x < BillingInt(Number(x)) as real + 1.0
    ensures x < 0.0 ==> BillingInt(Number(x)) == 0
    ensures x > 1_000_000_000_000_000.0 ==> BillingInt(Number(x)) == 1_000_000_000_000_000
    ensures n != 0 ==> BillingInt(HugeInt(n)) == if n < 0 then 0 else MinInt(n, 1_000_000_000_000_000)
    ensures BillingInt(Bool(flag)) == if flag then 1 else 0
    ensures BillingInt(NonFinite) == BillingInt(Null) == BillingInt(Text(text, reading, None, folded)) == 0
    ensures text != "" ==> BillingInt(Text(text, reading, Some(n), folded)) == BillingInt(Number(n as real))
  {
  }

  /** Five words name a plane, whatever their case and the white space around them; no other value does. */
  lemma PlanesRead(v: Value)
    ensures BillingPlane(v) == Some(Api) <==> v.Text? && v.folded in {"api", "xai_api_key"}
    ensures BillingPlane(v) == Some(Cli) <==> v.Text? && v.folded in {"cli", "grok_build_oauth"}
    ensures BillingPlane(v) == Some(Mixed) <==> v.Text? && v.folded == "mixed"
  {
  }

  // ---------- Receipts and attempts ----------

  /** The dicts of a list, in order. */
  function Dicts(items: seq<Value>): seq<map<string, Value>> {
    if items == [] then []
    else Dicts(items[..|items| - 1])
         + (if items[|items| - 1].Dict? then [items[|items| - 1].entries] else [])
  }

  lemma ReceiptSays(e: map<string, Value>)
    ensures var r := SafeReceipt(e);
            && r.generation == BillingInt(Get(e, "lease_generation")) && r.cost == BillingCost(Get(e, "cost_usd"))
            && r.attemptCount == BillingInt(Get(e, "incurred_attempt_count")) && r.tokens == UsageNumbers(e)
            && r.plane == BillingPlane(Get(e, "plane"))
  {
  }

  lemma Associates<T>(a: seq<T>, b: seq<T>, c: seq<T>)
    ensures a + b + c == a + (b + c)
  {
  }

  lemma {:induction false} AppendedReceipts(items: seq<Value>, more: seq<Value>)
    ensures ReadReceipts(items + more) == ReadReceipts(items) + ReadReceipts(more)
  {
    hide SafeReceipt;
    if items == [] {
      assert items + more == more;
    } else {
      assert (items + more)[1..] == items[1..] + more && (items + more)[0] == items[0];
      var first := if items[0].Dict? then [SafeReceipt(items[0].entries)] else [];
      AppendedReceipts(items[1..], more);
      Associates(first, ReadReceipts(items[1..]), ReadReceipts(more));
    }
  }

  lemma {:induction false} AppendedAttempts(items: seq<Value>, more: seq<Value>)
    ensures ReadAttempts(items + more) == ReadAttempts(items) + ReadAttempts(more)
  {
    hide SafeAttempt, BillingInt;
    if items == [] {
      assert items + more == more;
    } else {
      assert (items + more)[1..] == items[1..] + more && (items + more)[0] == items[0];
      var first := if items[0].Dict?
        then [SafeAttempt(items[0].entries, BillingInt(Get(items[0].entries, "lease_generation")))] else [];
      AppendedAttempts(items[1..], more);
      Associates(first, ReadAttempts(items[1..]), ReadAttempts(more));
    }
  }

  lemma {:induction false} AppendedStamps(items: seq<Value>, more: seq<Value>, generation: int)
    ensures StampAttempts(items + more, generation) == StampAttempts(items, generation) + StampAttempts(more, generation)
  {
    hide SafeAttempt;
    if items == [] {
      assert items + more == more;
    } else {
      assert (items + more)[1..] == items[1..] + more && (items + more)[0] == items[0];
      var first := if items[0].Dict? then [SafeAttempt(items[0].entries, generation)] else [];
      AppendedStamps(items[1..], more, generation);
      Associates(first, StampAttempts(items[1..], generation), StampAttempts(more, generation));
    }
  }

  /** Every dict of a list is read, in order, and nothing else is. */
  lemma {:induction false} ListsRead(items: seq<Value>, generation: int)
    ensures |ReadReceipts(items)| == |ReadAttempts(items)| == |StampAttempts(items, generation)| == |Dicts(items)|
    ensures forall k :: 0 <= k < |Dicts(items)| ==>
              var e := Dicts(items)[k];
              && ReadReceipts(items)[k] == SafeReceipt(e)
              && ReadAttempts(items)[k] == SafeAttempt(e, BillingInt(Get(e, "lease_generation")))
              && StampAttempts(items, generation)[k] == SafeAttempt(e, generation)
  {
    if items != [] {
      var before, last := items[..|items| - 1], [items[|items| - 1]];
      assert items == before + last;
      ListsRead(before, generation);
      AppendedReceipts(before, last);
      AppendedAttempts(before, last);
      AppendedStamps(before, last, generation);
      hide SafeReceipt, SafeAttempt, BillingInt;
      assert last[1..] == [];
    }
  }

  /** An attempt carries the generation it is stamped with, and its plane under either name. */
  lemma AttemptSays(e: map<string, Value>, generation: int)
    ensures var a := SafeAttempt(e, generation);
            && a.generation == ClampInt(generation) && a.cost == BillingCost(Get(e, "cost_usd"))
            && a.tokens == UsageNumbers(e)
            && a.plane == BillingPlane(if Get(e, "plane").Truthy() then e["plane"] else Get(e, "resolved_plane"))
            && (a.stage.Some? ==> a.stage.value in STAGES && Get(e, "stage").Text? && a.stage.value == e["stage"].folded)
            && (a.stage.None? ==> !Get(e, "stage").Text? || e["stage"].folded !in STAGES)
            && (a.outcome.Some? ==>
                  a.outcome.value in OUTCOMES && Get(e, "outcome").Text? && a.outcome.value == e["outcome"].folded)
            && (a.outcome.None? ==> !Get(e, "outcome").Text? || e["outcome"].folded !in OUTCOMES)
  {
    assert "" !in STAGES && "" !in OUTCOMES;
    hide UsageNumbers, BillingCost, BillingPlane, ClampInt;
  }

  /** The receipt of a report: its cost, its counts, how many attempts it lists, and its plane under either name. */
  lemma ReportSays(e: map<string, Value>, generation: int)
    ensures var rep := ReadReport(Dict(e), generation);
            var listed := Dicts(Get(e, "incurred_attempts").ItemsOrEmpty());
            && rep.receipt.generation == ClampInt(generation) && rep.receipt.cost == BillingCost(Get(e, "cost_usd"))
            && rep.receipt.tokens == UsageNumbers(e) && rep.receipt.attemptCount == ClampInt(|listed|)
            && rep.receipt.plane
               == BillingPlane(if Get(e, "resolved_plane").Truthy() then e["resolved_plane"] else Get(e, "plane"))
            && |rep.attempts| == |listed|
            && forall k :: 0 <= k < |listed| ==> rep.attempts[k] == SafeAttempt(listed[k], ClampInt(generation))
  {
    ListsRead(Get(e, "incurred_attempts").ItemsOrEmpty(), ClampInt(generation));
    hide UsageNumbers, BillingCost, BillingPlane, SafeAttempt, StampAttempts, Dicts;
  }

  /** Two reports of one generation make the larger of both in every number, and the plane named last. */
  lemma LargerOfBoth(p: Receipt, r: Receipt, f: Field)
    ensures var m := MaxReceipt(p, r);
            && m.generation == p.generation && m.cost == MaxReal(p.cost, r.cost)
            && m.attemptCount == MaxInt(p.attemptCount, r.attemptCount)
            && (m.tokens.Of(f).None? <==> p.tokens.Of(f).None? && r.tokens.Of(f).None?)
            && (m.tokens.Of(f).Some? ==>
                  && (p.tokens.Of(f).Some? ==> m.tokens.Of(f).value >= p.tokens.Of(f).value)
                  && (r.tokens.Of(f).Some? ==> m.tokens.Of(f).value >= r.tokens.Of(f).value)
                  && m.tokens.Of(f) in {p.tokens.Of(f), r.tokens.Of(f)})
            && m.plane == if r.plane.Some? then r.plane else p.plane
  {
  }

  // ---------- What is kept ----------

  /** Of a stored list the newest are read: the last 32 receipts and the last 64 attempts; the rest is counted. */
  lemma NewestAreRead(e: map<string, Value>, k: nat)
    ensures var b := Normalize(Dict(e));
            var rs, xs := Get(e, "receipts").ItemsOrEmpty(), Get(e, "incurred_attempts").ItemsOrEmpty();
            var r, x := Dicts(rs), Dicts(xs);
            && |b.receipts| == MinInt(32, |r|) && |b.attempts| == MinInt(64, |x|)
            && (k < |b.receipts| ==> b.receipts[|b.receipts| - 1 - k] == SafeReceipt(r[|r| - 1 - k]))
            && (k < |b.attempts| ==>
                  b.attempts[|b.attempts| - 1 - k]
                  == SafeAttempt(x[|x| - 1 - k], BillingInt(Get(x[|x| - 1 - k], "lease_generation"))))
            && b.receiptsTruncated - BillingInt(Get(e, "receipts_truncated")) == |rs| - |b.receipts|
            && b.attemptsTruncated - BillingInt(Get(e, "incurred_attempts_truncated")) == |xs| - |b.attempts|
  {
    ListsRead(Get(e, "receipts").ItemsOrEmpty(), 0);
    ListsRead(Get(e, "incurred_attempts").ItemsOrEmpty(), 0);
    DictsAreFewer(Get(e, "receipts").ItemsOrEmpty());
    DictsAreFewer(Get(e, "incurred_attempts").ItemsOrEmpty());
    hide SafeReceipt, SafeAttempt, BillingInt, BillingCost, ReadReceipts, ReadAttempts, Dicts, DirectInt;
  }

  lemma {:induction false} DictsAreFewer(items: seq<Value>)
    ensures |Dicts(items)| <= |items|
  {
    if items != [] { DictsAreFewer(items[..|items| - 1]); }
  }

  /** The totals that a stored snapshot is read with. */
  lemma TotalsAreRead(e: map<string, Value>, f: Field)
    ensures var b := Normalize(Dict(e));
            var key := match f case Input => "input_tokens" case Output => "output_tokens" case Total => "total_tokens";
            && b.cost == BillingCost(Get(e, "cost_usd")) && b.quanta == BillingInt(Get(e, "quanta"))
            && b.lastGeneration == BillingInt(Get(e, "last_lease_generation"))
            && b.tokens.Of(f) == if key in e then Some(BillingInt(e[key])) else None
  {
    hide BillingInt, BillingCost, ReadReceipts, ReadAttempts;
  }

  /** In every history the window holds the receipts of the last 32 generations billed. */
  lemma LastThirtyTwoAreKept(ds: seq<BillingLedger.Delivery>)
    ensures var b, book := Normalize(BillingLedger.Stored(ds)), BillingLedger.BookOf(ds);
            && |b.receipts| == MinInt(32, |book|) && b.receipts == book[|book| - |b.receipts|..]
            && b.receiptsTruncated == MinInt(1_000_000_000_000_000, |book| - |b.receipts|)
            && b.quanta == MinInt(1_000_000_000_000_000, |book|)
  {
    hide *;
    BillingLedger.SnapshotViewsBook(ds);
    ViewHolds(Normalize(BillingLedger.Stored(ds)), BillingLedger.BookOf(ds));
  }

  lemma ViewHolds(b: Snapshot, book: seq<Receipt>)
    requires BillingLedger.Views(b, book)
    ensures |b.receipts| == MinInt(32, |book|) && b.receipts == book[|book| - |b.receipts|..]
    ensures b.receiptsTruncated == MinInt(1_000_000_000_000_000, |book| - |b.receipts|)
    ensures b.quanta == MinInt(1_000_000_000_000_000, |book|)
  {
    hide BillingLedger.TokensView, BillingLedger.CostView;
  }
}
