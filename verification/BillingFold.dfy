/**
 * One more report against a stored history: exactly when folding it in changes what is billed, and by how
 * much. A seal call shows such a fold in its reply whether or not the fold ever reaches the checkpoint.
 */
module BillingFold {
  import opened Wrappers
  import opened Values
  import opened Billing
  import opened BillingNormal
  import opened BillingReplay
  import opened BillingLedger

  /** The kept receipt of the generation already says all of this, or the generation has been passed. */
  predicate Known(b: Snapshot, r: Receipt) {
    var i := FindGeneration(b.receipts, r.generation);
    if i < |b.receipts| then MaxReceipt(b.receipts[i], r) == b.receipts[i]
    else r.generation <= b.lastGeneration
  }

  lemma KeptUpToLast(b: Snapshot, book: seq<Receipt>)
    requires WellKept(book) && Views(b, book)
    ensures forall i :: 0 <= i < |b.receipts| ==> b.receipts[i].generation <= b.lastGeneration
  {
    hide CostView, TokensView, CanonicalReceipt;
    forall i | 0 <= i < |b.receipts| ensures b.receipts[i].generation <= b.lastGeneration {
      var k := Closed(book) + i;
      assert b.receipts[i] == book[k];
    }
  }

  /** A count that a kept receipt reports is in the totals. */
  lemma KeptIsTotalled(b: Snapshot, book: seq<Receipt>, i: nat, f: Field)
    requires Views(b, book) && i < |b.receipts| && b.receipts[i].tokens.Of(f).Some?
    ensures b.tokens.Of(f).Some?
  {
    assert b.receipts[i] == book[Closed(book) + i];
    assert Reports(book, f);
    assert TokensView(book).Of(f) == TokenView(book, f);
  }

  lemma KnownIsSettled(b: Snapshot, book: seq<Receipt>, r: Receipt)
    requires WellKept(book) && Views(b, book) && Known(b, r)
    ensures Settled(b, r)
  {
    KeptUpToLast(b, book);
    var i := FindGeneration(b.receipts, r.generation);
    hide Views, WellKept, MaxReceipt;
    forall f: Field | i < |b.receipts| && b.receipts[i].tokens.Of(f).Some? ensures b.tokens.Of(f).Some? {
      KeptIsTotalled(b, book, i, f);
    }
  }

  /** Posting what is not known leaves other receipts than before. */
  lemma UnknownMovesReceipts(b: Snapshot, book: seq<Receipt>, r: Receipt)
    requires WellKept(book) && Views(b, book) && !Known(b, r)
    ensures TrimReceipts(PostReceipt(b, r)).receipts != b.receipts
  {
    var c := TrimReceipts(PostReceipt(b, r));
    var i := FindGeneration(b.receipts, r.generation);
    if i < |b.receipts| {
      assert c.receipts[i] == MaxReceipt(b.receipts[i], r);
    } else {
      AppendedIsFound(b.receipts, r);
      assert |b.receipts| < RECEIPT_LIMIT ==> LastN(b.receipts + [r], RECEIPT_LIMIT) == b.receipts + [r];
      assert FindGeneration(c.receipts, r.generation) == |c.receipts| - 1;
    }
    hide FindGeneration, MaxReceipt, CostView, TokensView, WellKept, LastN;
  }

  lemma AppliedLedger(b: Snapshot, rep: Report)
    requires CountersInRange(b) && Bounded(b)
    ensures var c, next := TrimReceipts(PostReceipt(b, rep.receipt)), ClampCounters(Apply(b, rep));
            && (c == b ==> SameLedger(next, b))
            && next.receipts == c.receipts && next.cost == c.cost && next.tokens == c.tokens
  {
    hide PostReceipt, TrimReceipts, AppendUnseen, LastN, AllReceiptsCanonical, AllAttemptsCanonical;
  }

  /** Folding one more report into a stored history bills nothing exactly when it is no report or all known. */
  lemma FoldedLedger(ds: seq<Delivery>, d: Delivery)
    ensures var b, r := Normalize(Stored(ds)), ReadReport(d.usage, d.generation).receipt;
            SameLedger(Merge(Stored(ds), d.usage, d.generation), b) <==> !Present(d.usage) || Known(b, r)
  {
    var raw := Stored(ds);
    var b, book, rep := Normalize(raw), BookOf(ds), ReadReport(d.usage, d.generation);
    if !Present(d.usage) {
      assert Merge(raw, d.usage, d.generation) == b;
      hide *;
      SameLedgerSelf(b);
    } else {
      hide *;
      SnapshotViewsBook(ds);
      MergeUnfolds(raw, d.usage, d.generation);
      AppliedLedger(b, rep);
      if Known(b, rep.receipt) {
        KnownIsSettled(b, book, rep.receipt);
        PostSettled(b, rep.receipt);
      } else {
        UnknownMovesReceipts(b, book, rep.receipt);
        OtherReceiptsOtherLedger(Merge(raw, d.usage, d.generation), b);
      }
    }
  }

  /** Writing the fold and reading it again changes nothing. */
  lemma FoldReadsBack(ds: seq<Delivery>, d: Delivery)
    ensures Normalize(Deliver(Stored(ds), d)) == Merge(Stored(ds), d.usage, d.generation)
  {
    var next := Merge(Stored(ds), d.usage, d.generation);
    assert Deliver(Stored(ds), d) == Encode(next);
    hide *;
    SnapshotViewsBook(ds);
    DeliveryViews(Stored(ds), BookOf(ds), d);
    InRangeReadsBack(next);
  }

  lemma SameLedgerSelf(b: Snapshot)
    ensures SameLedger(b, b)
  {
  }

  lemma OtherReceiptsOtherLedger(x: Snapshot, y: Snapshot)
    requires x.receipts != y.receipts
    ensures !SameLedger(x, y)
  {
  }

  // ---------- One result for each generation ----------

  lemma {:induction false} ReceiptOfItsGeneration(gs: seq<int>, usageOf: int -> Value, k: nat)
    requires k < |ReceiptsOfEach(gs, usageOf)|
    requires forall i :: 0 <= i < |gs| ==> 0 <= gs[i] <= INT_LIMIT
    ensures var r := ReceiptsOfEach(gs, usageOf)[k];
            r.generation in gs && r == ReadReport(usageOf(r.generation), r.generation).receipt
  {
    var n := |gs| - 1;
    var before := ReceiptsOfEach(gs[..n], usageOf);
    if k < |before| {
      ReceiptOfItsGeneration(gs[..n], usageOf, k);
      assert ReceiptsOfEach(gs, usageOf)[k] == before[k];
    } else {
      ReadReportCanonical(usageOf(gs[n]), gs[n]);
    }
    hide ReadReport, CanonicalReceipt, AllAttemptsCanonical;
  }

  /** Every generation that reported has a receipt, so none lies beyond the last. */
  lemma {:induction false} LandedIsEntered(gs: seq<int>, usageOf: int -> Value, g: int)
    requires g in gs && 1 <= g <= INT_LIMIT && Present(usageOf(g))
    ensures exists k :: 0 <= k < |ReceiptsOfEach(gs, usageOf)| && ReceiptsOfEach(gs, usageOf)[k].generation == g
  {
    var n := |gs| - 1;
    var before, all := ReceiptsOfEach(gs[..n], usageOf), ReceiptsOfEach(gs, usageOf);
    if gs[n] == g {
      ReadReportCanonical(usageOf(g), g);
      hide ReadReport, CanonicalReceipt, AllAttemptsCanonical;
      assert all[|before|].generation == g;
    } else {
      assert g in gs[..n];
      LandedIsEntered(gs[..n], usageOf, g);
      hide ReadReport;
      var k :| 0 <= k < |before| && before[k].generation == g;
      assert all[k].generation == g;
    }
  }

  /** With one result each, a kept receipt of a generation is the one its result gives. */
  lemma KeptIsItsResult(b: Snapshot, gs: seq<int>, usageOf: int -> Value, i: nat)
    requires Views(b, ReceiptsOfEach(gs, usageOf)) && i < |b.receipts|
    requires forall j :: 0 <= j < |gs| ==> 1 <= gs[j] <= INT_LIMIT
    ensures var r := b.receipts[i]; r == ReadReport(usageOf(r.generation), r.generation).receipt
  {
    var book := ReceiptsOfEach(gs, usageOf);
    hide ReceiptsOfEach, ReadReport, CostView, TokensView, LastEntered, ClampInt;
    assert b.receipts[i] == book[Closed(book) + i];
    ReceiptOfItsGeneration(gs, usageOf, Closed(book) + i);
  }

  lemma LandedIsReached(b: Snapshot, gs: seq<int>, usageOf: int -> Value, g: int)
    requires var book := ReceiptsOfEach(gs, usageOf); WellKept(book) && Views(b, book)
    requires g in gs && 1 <= g <= INT_LIMIT && Present(usageOf(g))
    ensures g <= b.lastGeneration
  {
    var book := ReceiptsOfEach(gs, usageOf);
    LandedIsEntered(gs, usageOf, g);
    hide ReceiptsOfEach, CostView, TokensView, CanonicalReceipt, Present;
    var k :| 0 <= k < |book| && book[k].generation == g;
  }

  /** With one result each, what a generation reports is known exactly when the last one has reached it. */
  lemma KnownOnce(b: Snapshot, gs: seq<int>, usageOf: int -> Value, g: int)
    requires var book := ReceiptsOfEach(gs, usageOf); WellKept(book) && Views(b, book)
    requires forall i :: 0 <= i < |gs| ==> 1 <= gs[i] <= INT_LIMIT
    requires 0 <= g <= INT_LIMIT
    ensures Known(b, ReadReport(usageOf(g), g).receipt) <==> g <= b.lastGeneration
    ensures g in gs && Present(usageOf(g)) ==> g <= b.lastGeneration
  {
    var r := ReadReport(usageOf(g), g).receipt;
    hide ReadReport, ReceiptsOfEach, CanonicalReceipt, AllAttemptsCanonical, WellKept, Views, MaxReceipt, Present;
    ReadReportCanonical(usageOf(g), g);
    KeptUpToLast(b, ReceiptsOfEach(gs, usageOf));
    var i := FindGeneration(b.receipts, g);
    if i < |b.receipts| {
      KeptIsItsResult(b, gs, usageOf, i);
      MaxWithItself(r);
    }
    if g in gs && Present(usageOf(g)) { LandedIsReached(b, gs, usageOf, g); }
  }

  /** The report of a generation that the checkpoint has not reached: folding it in adds it to the bill. */
  predicate Ahead(b: Snapshot, usage: Value, g: int) { Present(usage) && g > b.lastGeneration }

  lemma ClampAdds(total: real, more: real, n: int, extra: int)
    requires total >= 0.0 && more >= 0.0 && n >= 0 && extra >= 0
    ensures RaiseCost(ClampCost(total), 0.0, more) == ClampCost(total + more)
    ensures ClampInt(ClampInt(n) + extra) == ClampInt(n + extra)
  {
  }

  lemma AppendedTotals(b: Snapshot, r: Receipt, cost: real, n: int, f: Field)
    requires CanonicalReceipt(r) && cost >= 0.0 && n >= 0
    requires b.cost == ClampCost(cost) && b.tokens.Of(f).GetOr(0) == ClampInt(n)
    ensures Appended(b, r).cost == ClampCost(cost + r.cost)
    ensures Appended(b, r).tokens.Of(f).GetOr(0) == ClampInt(n + r.tokens.Of(f).GetOr(0))
  {
    ClampAdds(cost, r.cost, n, r.tokens.Of(f).GetOr(0));
    hide RaiseCost, ClampCost, LastN;
  }

  /** What a report reads as is what its receipt says. */
  lemma ReportedInReceipt(usage: Value, g: int, f: Field)
    requires Present(usage)
    ensures var r := ReadReport(usage, g).receipt;
            r.cost == ReportedCost(usage) && r.tokens.Of(f).GetOr(0) == ReportedTokens(usage, f)
  {
    hide UsageNumbers, BillingCost;
  }

  lemma AheadIsAppended(b: Snapshot, book: seq<Receipt>, r: Receipt)
    requires WellKept(book) && Views(b, book) && Bounded(b) && r.generation > b.lastGeneration
    ensures FindGeneration(b.receipts, r.generation) == |b.receipts| <= RECEIPT_LIMIT
  {
    KeptUpToLast(b, book);
  }

  lemma AheadMeans(b: Snapshot, usage: Value, g: int)
    requires 0 <= g <= INT_LIMIT
    ensures Ahead(b, usage, g) <==> Present(usage) && g > b.lastGeneration
    ensures ClampInt(g) == g
  {
    hide Present;
  }

  lemma AddedTotals(b: Snapshot, book: seq<Receipt>, rep: Report, cost: real, n: int, f: Field)
    requires WellKept(book) && Views(b, book) && Bounded(b) && CountersInRange(b) && CanonicalReceipt(rep.receipt)
    requires rep.receipt.generation > b.lastGeneration && cost >= 0.0 && n >= 0
    requires b.cost == ClampCost(cost) && b.tokens.Of(f).GetOr(0) == ClampInt(n)
    ensures var next := ClampCounters(Apply(b, rep));
            && next.cost == ClampCost(cost + rep.receipt.cost)
            && next.tokens.Of(f).GetOr(0) == ClampInt(n + rep.receipt.tokens.Of(f).GetOr(0))
  {
    hide *;
    AheadIsAppended(b, book, rep.receipt);
    PostAppends(b, rep.receipt);
    AppendedTotals(b, rep.receipt, cost, n, f);
    AppliedLedger(b, rep);
  }

  lemma BillNonNegative(ds: seq<Delivery>, usageOf: int -> Value, f: Field)
    requires NonDecreasing(ds) && OneResultEach(ds, usageOf)
    ensures CostOfEach(Generations(ds), usageOf) >= 0.0 && TokensOfEach(Generations(ds), usageOf, f) >= 0
  {
    BookOfOnce(ds, usageOf);
    hide *;
    BookWellKept(ds);
    TotalsNonNegative(BookOf(ds), f);
    ReceiptsOfEachTotals(Generations(ds), usageOf, f);
  }

  lemma ClampMoves(total: real, more: real, n: int, extra: int)
    requires total >= 0.0 && more >= 0.0 && n >= 0 && extra >= 0
    ensures ClampCost(total + more) == ClampCost(total) <==> more == 0.0 || ClampCost(total) == COST_LIMIT
    ensures ClampInt(n + extra) == ClampInt(n) <==> extra == 0 || ClampInt(n) == INT_LIMIT
  {
  }

  /**
   * With one result each, folding a generation's result into a stored history bills nothing new exactly when it
   * is no report or the checkpoint has reached that generation, and otherwise adds just what it reports, which
   * moves a total unless that is nothing or the total is at its cap. Whatever has landed has been reached.
   */
  lemma FoldedTotals(ds: seq<Delivery>, usageOf: int -> Value, g: int, f: Field)
    requires NonDecreasing(ds) && OneResultEach(ds, usageOf) && 0 <= g <= INT_LIMIT
    ensures var b, gs, u := Normalize(Stored(ds)), Generations(ds), usageOf(g);
            var next := Merge(Stored(ds), u, g);
            && (SameLedger(next, b) <==> !Ahead(b, u, g))
            && (g in gs ==> !Ahead(b, u, g))
            && next.cost == ClampCost(CostOfEach(gs, usageOf) + if Ahead(b, u, g) then ReportedCost(u) else 0.0)
            && next.tokens.Of(f).GetOr(0)
               == ClampInt(TokensOfEach(gs, usageOf, f) + if Ahead(b, u, g) then ReportedTokens(u, f) else 0)
            && (next.cost == b.cost <==> !Ahead(b, u, g) || ReportedCost(u) == 0.0 || b.cost == COST_LIMIT)
            && (next.tokens.Of(f).GetOr(0) == b.tokens.Of(f).GetOr(0) <==>
                !Ahead(b, u, g) || ReportedTokens(u, f) == 0 || b.tokens.Of(f).GetOr(0) == INT_LIMIT)
  {
    var b, gs, u := Normalize(Stored(ds)), Generations(ds), usageOf(g);
    hide *;
    KnownInHistory(ds, usageOf, g);
    AheadMeans(b, u, g);
    FoldedLedger(ds, Delivery(u, g));
    BilledOnce(ds, usageOf);
    if Ahead(b, u, g) {
      FoldAhead(ds, usageOf, g, f);
      BillNonNegative(ds, usageOf, f);
      ReportedNonNegative(u, f);
      ClampMoves(CostOfEach(gs, usageOf), ReportedCost(u), TokensOfEach(gs, usageOf, f), ReportedTokens(u, f));
    } else {
      SameLedgerTotals(Merge(Stored(ds), u, g), b, f);
    }
  }

  lemma ReportedNonNegative(usage: Value, f: Field)
    ensures ReportedCost(usage) >= 0.0 && ReportedTokens(usage, f) >= 0
  {
    if Present(usage) { UsageNumbersRange(usage.entries); }
    hide UsageNumbers;
  }

  lemma SameLedgerTotals(x: Snapshot, y: Snapshot, f: Field)
    requires SameLedger(x, y)
    ensures x.cost == y.cost && x.tokens.Of(f) == y.tokens.Of(f)
  {
  }

  lemma KnownInHistory(ds: seq<Delivery>, usageOf: int -> Value, g: int)
    requires NonDecreasing(ds) && OneResultEach(ds, usageOf) && 0 <= g <= INT_LIMIT
    ensures var b := Normalize(Stored(ds));
            && (Known(b, ReadReport(usageOf(g), g).receipt) <==> g <= b.lastGeneration)
            && (g in Generations(ds) && Present(usageOf(g)) ==> g <= b.lastGeneration)
  {
    hide Normalize, Stored, Known, ReadReport, Present, Generations, NonDecreasing, OneResultEach;
    BookOfOnce(ds, usageOf);
    GenerationsOfOnce(ds, usageOf);
    hide *;
    SnapshotViewsBook(ds);
    KnownOnce(Normalize(Stored(ds)), Generations(ds), usageOf, g);
  }

  lemma FoldAhead(ds: seq<Delivery>, usageOf: int -> Value, g: int, f: Field)
    requires NonDecreasing(ds) && OneResultEach(ds, usageOf) && 0 <= g <= INT_LIMIT
    requires Ahead(Normalize(Stored(ds)), usageOf(g), g)
    ensures var gs, next := Generations(ds), Merge(Stored(ds), usageOf(g), g);
            && next.cost == ClampCost(CostOfEach(gs, usageOf) + ReportedCost(usageOf(g)))
            && next.tokens.Of(f).GetOr(0) == ClampInt(TokensOfEach(gs, usageOf, f) + ReportedTokens(usageOf(g), f))
  {
    var b, gs, u := Normalize(Stored(ds)), Generations(ds), usageOf(g);
    var rep := ReadReport(u, g);
    hide *;
    AheadMeans(b, u, g);
    SnapshotViewsBook(ds);
    BilledOnce(ds, usageOf);
    BillNonNegative(ds, usageOf, f);
    ReadReportCanonical(u, g);
    ReportedInReceipt(u, g, f);
    MergeUnfolds(Stored(ds), u, g);
    AddedTotals(b, BookOf(ds), rep, CostOfEach(gs, usageOf), TokensOfEach(gs, usageOf, f), f);
  }
}
