/**
 * How billing is shown in a reply. A reply built from the durable row alone (`apply_checkpoint_billing`) shows the
 * durable totals. A seal call's own reply shows them with that call's usage folded in, landed or not.
 */
module BillingReply {
  import opened Wrappers
  import opened Values
  import opened Billing
  import opened BillingNormal
  import BillingFold
  import BillingLedger
  import BillingReplay
  import MissionStore
  import Epoch
  import EpochTheorems

  /** A reply as the entries of its JSON object. */
  type Reply = map<string, Value>

  predicate Unbilled(b: Snapshot) { b.quanta == 0 && b.cost == 0.0 }

  function WithTotals(reply: Reply, b: Snapshot): Reply { WithTokens(reply["cost_usd" := Number(b.cost)], b.tokens) }

  function WithAttempts(reply: Reply, attempts: seq<Attempt>): Reply {
    if attempts != [] then reply["incurred_attempts" := List(EncodeAttempts(attempts))]
    else reply - {"incurred_attempts"}
  }

  function Shown(reply: Reply, billing: Value): Reply {
    var safe := Normalize(billing);
    if Unbilled(safe) then reply
    else WithAttempts(WithTotals(reply, safe), safe.attempts)["mission_billing" := Encode(safe)]
  }

  method AddTotals(payload: Reply, b: Snapshot) returns (reply: Reply)
    ensures reply == WithTotals(payload, b)
  {
    reply := payload["cost_usd" := Number(b.cost)];
    if b.tokens.input.Some? { reply := reply["input_tokens" := Number(b.tokens.input.value as real)]; }
    if b.tokens.output.Some? { reply := reply["output_tokens" := Number(b.tokens.output.value as real)]; }
    if b.tokens.total.Some? { reply := reply["total_tokens" := Number(b.tokens.total.value as real)]; }
  }

  method ApplyMissionBilling(payload: Reply, billing: Value) returns (reply: Reply)
    ensures reply == Shown(payload, billing)
  {
    hide Normalize, Encode, WithTotals, EncodeAttempts;
    var safe := Normalize(billing);
    if safe.quanta == 0 && safe.cost == 0.0 { return payload; }
    reply := AddTotals(payload, safe);
    if safe.attempts != [] {
      reply := reply["incurred_attempts" := List(EncodeAttempts(safe.attempts))];
    } else {
      reply := reply - {"incurred_attempts"};
    }
    reply := reply["mission_billing" := Encode(safe)];
  }

  function KeyOf(f: Field): string {
    match f
    case Input => "input_tokens"
    case Output => "output_tokens"
    case Total => "total_tokens"
  }

  /** The keys a billed reply may change. */
  const BILLING_KEYS: set<string> :=
    {"cost_usd", "input_tokens", "output_tokens", "total_tokens", "incurred_attempts", "mission_billing"}

  /** Under a key stands what the snapshot counts, or, where it counts nothing, whatever stood there before. */
  predicate ShowsTokens(shown: Reply, reply: Reply, t: Tokens, f: Field) {
    if t.Of(f).Some? then BillingInt(Get(shown, KeyOf(f))) == t.Of(f).value
    else (KeyOf(f) in shown <==> KeyOf(f) in reply) && Get(shown, KeyOf(f)) == Get(reply, KeyOf(f))
  }

  /** What stands under each key once the totals are written. */
  lemma TotalsAt(reply: Reply, b: Snapshot, f: Field)
    requires Bounded(b)
    ensures BillingCost(Get(WithTotals(reply, b), "cost_usd")) == b.cost
    ensures ShowsTokens(WithTotals(reply, b), reply, b.tokens, f)
  {
    if b.tokens.Of(f).Some? { NumberReadsBack(b.tokens.Of(f).value); }
    assert BillingCost(Number(b.cost)) == b.cost;
    hide BillingInt, BillingCost, AllReceiptsCanonical, AllAttemptsCanonical;
  }

  lemma TotalsElsewhere(reply: Reply, b: Snapshot, key: string)
    requires key !in BILLING_KEYS
    ensures var shown := WithTotals(reply, b);
            (key in shown <==> key in reply) && Get(shown, key) == Get(reply, key)
  {
  }

  lemma OthersStay(reply: Reply, attempts: seq<Attempt>, snapshot: Value, key: string)
    requires key != "incurred_attempts" && key != "mission_billing"
    ensures var shown := WithAttempts(reply, attempts)["mission_billing" := snapshot];
            (key in shown <==> key in reply) && Get(shown, key) == Get(reply, key)
  {
  }

  lemma AttemptsAt(reply: Reply, attempts: seq<Attempt>, snapshot: Value)
    requires AllAttemptsCanonical(attempts)
    ensures var shown := WithAttempts(reply, attempts)["mission_billing" := snapshot];
            ReadAttempts(Get(shown, "incurred_attempts").ItemsOrEmpty()) == attempts
  {
    AttemptsReadBack(attempts);
  }

  /**
   * A billed reply shows the cost, every token count and the attempts of the snapshot it is given, holds that whole
   * snapshot, and changes nothing else; an unbilled one is left as it was.
   */
  lemma ReplyShowsSnapshot(reply: Reply, billing: Value, f: Field, key: string)
    ensures var safe, shown := Normalize(billing), Shown(reply, billing);
            if safe.quanta == 0 && safe.cost == 0.0 then shown == reply
            else
              && BillingCost(Get(shown, "cost_usd")) == safe.cost
              && ShowsTokens(shown, reply, safe.tokens, f)
              && ReadAttempts(Get(shown, "incurred_attempts").ItemsOrEmpty()) == safe.attempts
              && Normalize(Get(shown, "mission_billing")) == ClampCounters(safe)
              && (key !in BILLING_KEYS ==> (key in shown <==> key in reply) && Get(shown, key) == Get(reply, key))
  {
    hide Normalize, Encode, BillingInt, BillingCost, EncodeAttempts, ReadAttempts, WithTotals, WithAttempts, ClampCounters;
    hide AllReceiptsCanonical, AllAttemptsCanonical;
    var safe := Normalize(billing);
    var totals := WithTotals(reply, safe);
    NormalizeBounded(billing);
    SnapshotReadsBack(safe);
    TotalsAt(reply, safe, f);
    OthersStay(totals, safe.attempts, Encode(safe), "cost_usd");
    OthersStay(totals, safe.attempts, Encode(safe), KeyOf(f));
    AttemptsAt(totals, safe.attempts, Encode(safe));
    if key !in BILLING_KEYS {
      TotalsElsewhere(reply, safe, key);
      OthersStay(totals, safe.attempts, Encode(safe), key);
    }
  }

  /** The shown cost and token counts are these sums, at their caps; a count never reported is left out. */
  predicate ShowsSums(shown: Reply, reply: Reply, counts: Tokens, cost: real, tokens: int, f: Field) {
    && BillingCost(Get(shown, "cost_usd")) == ClampCost(cost)
    && counts.Of(f).GetOr(0) == ClampInt(tokens)
    && ShowsTokens(shown, reply, counts, f)
  }

  lemma ShownSums(reply: Reply, billing: Value, cost: real, tokens: int, f: Field)
    requires Normalize(billing).cost == ClampCost(cost)
    requires Normalize(billing).tokens.Of(f).GetOr(0) == ClampInt(tokens)
    ensures Normalize(billing).quanta != 0 || Normalize(billing).cost != 0.0 ==>
              ShowsSums(Shown(reply, billing), reply, Normalize(billing).tokens, cost, tokens, f)
  {
    hide Normalize, Shown, Unbilled, ShowsTokens, BillingCost, ClampCost, ClampInt;
    ReplyShowsSnapshot(reply, billing, f, "");
  }

  /**
   * A reply built from the durable row of a mission alone shows the bill of that mission: cost and tokens summed
   * over the generations that landed a billing write, each with its one reported usage.
   */
  lemma ReplyShowsTheBill(world: Epoch.World, row: MissionStore.Row, states: seq<Epoch.State>, actions: seq<Epoch.Action>,
                          i: nat, usageOf: int -> Value, reply: Reply, f: Field)
    requires Epoch.Hashing(world) && EpochTheorems.IsHistory(world, row, states, actions) && i < |states|
    requires EpochTheorems.OneResult(actions, usageOf) && states[i].row.generation <= INT_LIMIT
    ensures var billing, gs := states[i].row.checkpoint.billing, BillingLedger.Generations(states[i].landed);
            var cost, tokens := BillingLedger.CostOfEach(gs, usageOf), BillingLedger.TokensOfEach(gs, usageOf, f);
            Normalize(billing).quanta != 0 || Normalize(billing).cost != 0.0 ==>
              ShowsSums(Shown(reply, billing), reply, Normalize(billing).tokens, cost, tokens, f)
  {
    hide *;
    EpochTheorems.BilledExactlyOnce(world, row, states, actions, i, usageOf);
    var gs := BillingLedger.Generations(states[i].landed);
    ShownSums(reply, states[i].row.checkpoint.billing, BillingLedger.CostOfEach(gs, usageOf),
              BillingLedger.TokensOfEach(gs, usageOf, f), f);
  }

  // ---------- Replies of a seal call ----------

  /** What a seal call shows after reading this row: the row's billing with the call's own usage folded in. */
  function Folded(seen: MissionStore.Row, usage: Value, generation: int): Value {
    BillingLedger.Deliver(seen.checkpoint.billing, BillingLedger.Delivery(usage, generation))
  }

  /**
   * A seal reply holds the durable ledger (totals, quanta and receipts) exactly when the call has no usage to
   * report, or the kept receipt of its generation already says as much, or its generation has none and is behind.
   */
  lemma SealReplyHoldsTheLedger(world: Epoch.World, row: MissionStore.Row, states: seq<Epoch.State>,
                                actions: seq<Epoch.Action>, i: nat, usage: Value, generation: int)
    requires Epoch.Hashing(world) && EpochTheorems.IsHistory(world, row, states, actions) && i < |states|
    ensures var durable := Normalize(states[i].row.checkpoint.billing);
            BillingReplay.SameLedger(Normalize(Folded(states[i].row, usage, generation)), durable)
            <==> !Present(usage) || BillingFold.Known(durable, ReadReport(usage, generation).receipt)
  {
    EpochTheorems.HistoryIsRun(world, row, states, actions, i);
    hide *;
    EpochTheorems.RunLanded(world, row, actions[..i]);
    FoldsLanded(states[i], usage, generation);
    BillingFold.FoldedLedger(states[i].landed, BillingLedger.Delivery(usage, generation));
  }

  lemma FoldsLanded(s: Epoch.State, usage: Value, generation: int)
    requires s.row.checkpoint.billing == BillingLedger.Stored(s.landed)
    ensures Normalize(Folded(s.row, usage, generation)) == Merge(BillingLedger.Stored(s.landed), usage, generation)
  {
    hide Normalize, Merge, BillingLedger.Stored, BillingLedger.Deliver;
    BillingFold.FoldReadsBack(s.landed, BillingLedger.Delivery(usage, generation));
  }

  /**
   * With one result each: a seal reply of a call of generation g shows the bill of what has landed, and on top of it
   * the call's own usage when its generation is ahead of the last one billed, which is never so once it has landed.
   * So what is shown is the durable cost exactly when the call is not ahead, reports no cost, or the cost is at its cap.
   */
  lemma SealReplyShowsTheBill(world: Epoch.World, row: MissionStore.Row, states: seq<Epoch.State>, actions: seq<Epoch.Action>,
                              i: nat, usageOf: int -> Value, g: nat, reply: Reply, f: Field)
    requires Epoch.Hashing(world) && EpochTheorems.IsHistory(world, row, states, actions) && i < |states|
    requires EpochTheorems.OneResult(actions, usageOf) && states[i].row.generation <= INT_LIMIT && g <= INT_LIMIT
    ensures var durable, billing := Normalize(states[i].row.checkpoint.billing), Folded(states[i].row, usageOf(g), g);
            var gs := BillingLedger.Generations(states[i].landed);
            var ahead := BillingFold.Ahead(durable, usageOf(g), g);
            var cost := BillingLedger.CostOfEach(gs, usageOf)
                        + if ahead then BillingLedger.ReportedCost(usageOf(g)) else 0.0;
            var tokens := BillingLedger.TokensOfEach(gs, usageOf, f)
                          + if ahead then BillingLedger.ReportedTokens(usageOf(g), f) else 0;
            && (g in gs ==> !ahead)
            && (Normalize(billing).quanta != 0 || Normalize(billing).cost != 0.0 ==>
                  ShowsSums(Shown(reply, billing), reply, Normalize(billing).tokens, cost, tokens, f))
            && (Normalize(billing).cost == durable.cost <==>
                !ahead || BillingLedger.ReportedCost(usageOf(g)) == 0.0 || durable.cost == COST_LIMIT)
            && (Normalize(billing).tokens.Of(f).GetOr(0) == durable.tokens.Of(f).GetOr(0) <==>
                !ahead || BillingLedger.ReportedTokens(usageOf(g), f) == 0 || durable.tokens.Of(f).GetOr(0) == INT_LIMIT)
  {
    hide *;
    EpochTheorems.LandedOnce(world, row, states, actions, i, usageOf);
    FoldsLanded(states[i], usageOf(g), g);
    BillingFold.FoldedTotals(states[i].landed, usageOf, g, f);
    var durable := Normalize(states[i].row.checkpoint.billing);
    var gs := BillingLedger.Generations(states[i].landed);
    var ahead := BillingFold.Ahead(durable, usageOf(g), g);
    ShownSums(reply, Folded(states[i].row, usageOf(g), g),
              BillingLedger.CostOfEach(gs, usageOf) + (if ahead then BillingLedger.ReportedCost(usageOf(g)) else 0.0),
              BillingLedger.TokensOfEach(gs, usageOf, f) + (if ahead then BillingLedger.ReportedTokens(usageOf(g), f) else 0),
              f);
  }

  const ONE_DOLLAR: Value := Dict(map["cost_usd" := Number(1.0)])

  lemma DollarReads()
    ensures Present(ONE_DOLLAR) && BillingLedger.ReportedCost(ONE_DOLLAR) == 1.0
  {
    assert BillingCost(Number(1.0)) == 1.0;
    hide BillingCost;
  }

  /** A dollar folded into a checkpoint without billing. */
  lemma DollarIsShown(seen: MissionStore.Row, reply: Reply)
    requires seen.checkpoint.billing == Null
    ensures Normalize(seen.checkpoint.billing).cost == 0.0
    ensures BillingCost(Get(Shown(reply, Folded(seen, ONE_DOLLAR, 1)), "cost_usd")) == 1.0
  {
    var usageOf: int -> Value := _ => ONE_DOLLAR;
    var ds: seq<BillingLedger.Delivery> := [];
    assert BillingLedger.Stored(ds) == Null && Normalize(Null) == EMPTY;
    assert BillingLedger.Generations(ds) == [] && BillingLedger.CostOfEach([], usageOf) == 0.0;
    assert BillingLedger.NonDecreasing(ds) && BillingLedger.OneResultEach(ds, usageOf);
    DollarReads();
    BillingFold.FoldedTotals(ds, usageOf, 1, Input);
    BillingFold.AheadMeans(EMPTY, ONE_DOLLAR, 1);
    BillingFold.FoldReadsBack(ds, BillingLedger.Delivery(ONE_DOLLAR, 1));
    hide Normalize, Merge, Present, Shown, BillingCost;
    hide BillingLedger.Deliver, BillingLedger.Stored, BillingLedger.ReportedCost;
    var billing := Folded(seen, ONE_DOLLAR, 1);
    assert Normalize(billing).cost == 1.0;
    ReplyShowsSnapshot(reply, billing, Input, "");
  }

  const LOST_LEASE: seq<Epoch.Action> := [
    Epoch.ClaimLease("b", None, 100, 20), Epoch.Seal(0, 1, "a", "", ONE_DOLLAR, 1, 30), Epoch.Step(0, false, 20)]

  lemma ThreeSteps(world: Epoch.World, s: Epoch.State, a: Epoch.Action, b: Epoch.Action, c: Epoch.Action)
    ensures Epoch.Run(world, s, [a, b, c]) == Epoch.Next(world, Epoch.Next(world, Epoch.Next(world, s, a), b), c)
  {
    hide Epoch.Next;
    assert [a, b, c][..2] == [a, b] && [a, b][..1] == [a] && [a][..0] == [];
    assert Epoch.Run(world, s, []) == s;
    assert Epoch.Run(world, s, [a]) == Epoch.Next(world, s, a);
    assert Epoch.Run(world, s, [a, b]) == Epoch.Next(world, Epoch.Next(world, s, a), b);
  }

  /** A call that finds another generation when it loads the row ends at once. */
  lemma StaleCallEnds(world: Epoch.World, s: Epoch.State, id: nat, w: Epoch.Worker, now: int)
    requires id in s.workers && s.workers[id] == w && w.pc == Epoch.Loading && w.generation != s.row.generation
    requires s.row.status == MissionStore.Running
    ensures var s' := Epoch.Next(world, s, Epoch.Step(id, false, now));
            && id in s'.workers && s'.workers[id].pc.Done? && s'.row == s.row && s'.landed == s.landed
  {
    hide Epoch.Continue;
  }

  /** The lease "a" of generation 1 has expired at 10, and "b" claims it at 20. */
  lemma LostLeaseRun(world: Epoch.World, row: MissionStore.Row)
    requires row == MissionStore.Row(MissionStore.Running, 0, 1, "a", Some(10), MissionStore.Checkpoint("", "", Null), 0, 0)
    ensures var s := Epoch.Run(world, Epoch.Start(row), LOST_LEASE);
            && Epoch.Created(row) && 0 in s.workers && s.workers[0].pc.Done? && s.landed == []
            && s.row.checkpoint.billing == Null
  {
    var a, b, c := LOST_LEASE[0], LOST_LEASE[1], LOST_LEASE[2];
    ThreeSteps(world, Epoch.Start(row), a, b, c);
    hide Epoch.Run, Epoch.Continue;
    var claimed := Epoch.Next(world, Epoch.Start(row), a);
    assert claimed.row.generation == 2 && claimed.row.token == "b" && claimed.row.checkpoint == row.checkpoint;
    var called := Epoch.Next(world, claimed, b);
    hide Epoch.StepWorker, MissionStore.Claim;
    StaleCallEnds(world, called, 0, Epoch.Worker(1, "a", "", ONE_DOLLAR, 1, 30, Epoch.Loading), 20);
  }

  /**
   * The difference is real: a call whose lease was claimed away before it read the row ends at once, nothing has
   * landed, and yet its reply shows the dollar it spent.
   */
  lemma LostLeaseShowsItsUsage(world: Epoch.World, row: MissionStore.Row, reply: Reply)
    requires row == MissionStore.Row(MissionStore.Running, 0, 1, "a", Some(10), MissionStore.Checkpoint("", "", Null), 0, 0)
    ensures var s := Epoch.Run(world, Epoch.Start(row), LOST_LEASE);
            && 0 in s.workers && s.workers[0].pc.Done? && s.landed == []
            && Normalize(s.row.checkpoint.billing).cost == 0.0
            && BillingCost(Get(Shown(reply, Folded(s.row, ONE_DOLLAR, 1)), "cost_usd")) == 1.0
  {
    hide *;
    LostLeaseRun(world, row);
    DollarIsShown(Epoch.Run(world, Epoch.Start(row), LOST_LEASE).row, reply);
  }
}
