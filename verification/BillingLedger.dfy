/**
 * The bounded snapshot against an unbounded book. The book keeps one receipt per generation for ever;
 * a receipt is closed once RECEIPT_LIMIT later generations have been entered. The snapshot keeps only
 * the open receipts and running totals, and those totals are exactly the book's, saturated.
 */
module BillingLedger {
  import opened Wrappers
  import opened Values
  import opened Billing
  import opened BillingNormal
  import opened BillingReplay

  /** One usage report as it reaches the checkpoint. */
  datatype Delivery = Delivery(usage: Value, generation: int)

  function Deliver(raw: Value, d: Delivery): Value { Encode(Merge(raw, d.usage, d.generation)) }

  /** What the checkpoint stores after these deliveries, starting from a checkpoint without billing. */
  function Stored(ds: seq<Delivery>): Value {
    if ds == [] then Null else Deliver(Stored(ds[..|ds| - 1]), ds[|ds| - 1])
  }

  // ---------- The book ----------

  function Closed(book: seq<Receipt>): nat {
    if |book| <= RECEIPT_LIMIT then 0 else |book| - RECEIPT_LIMIT
  }

  function LastEntered(book: seq<Receipt>): int {
    if book == [] then 0 else book[|book| - 1].generation
  }

  function Enter(book: seq<Receipt>, r: Receipt): seq<Receipt> {
    var i := FindGeneration(book[Closed(book)..], r.generation);
    if Closed(book) + i < |book| then book[Closed(book) + i := MaxReceipt(book[Closed(book) + i], r)]
    else if r.generation > LastEntered(book) then book + [r]
    else book
  }

  function EnterDelivery(book: seq<Receipt>, d: Delivery): seq<Receipt> {
    if Present(d.usage) then Enter(book, ReadReport(d.usage, d.generation).receipt) else book
  }

  function BookOf(ds: seq<Delivery>): seq<Receipt> {
    if ds == [] then [] else EnterDelivery(BookOf(ds[..|ds| - 1]), ds[|ds| - 1])
  }

  function TotalCost(book: seq<Receipt>): real {
    if book == [] then 0.0 else TotalCost(book[..|book| - 1]) + book[|book| - 1].cost
  }

  function TotalTokens(book: seq<Receipt>, f: Field): int {
    if book == [] then 0
    else TotalTokens(book[..|book| - 1], f) + book[|book| - 1].tokens.Of(f).GetOr(0)
  }

  /** Some receipt of the book reports this kind of tokens. */
  predicate Reports(book: seq<Receipt>, f: Field) {
    exists i :: 0 <= i < |book| && book[i].tokens.Of(f).Some?
  }

  predicate WellKept(book: seq<Receipt>) {
    && (forall i, j :: 0 <= i < j < |book| ==> book[i].generation < book[j].generation)
    && (forall i :: 0 <= i < |book| ==> CanonicalReceipt(book[i]) && book[i].generation > 0)
  }

  predicate Distinct(xs: seq<Attempt>) {
    forall i, j :: 0 <= i < j < |xs| ==> xs[i] != xs[j]
  }

  function CostView(book: seq<Receipt>): real { ClampCost(TotalCost(book)) }

  function TokenView(book: seq<Receipt>, f: Field): Option<int> {
    if Reports(book, f) then Some(ClampInt(TotalTokens(book, f))) else None
  }

  function TokensView(book: seq<Receipt>): Tokens {
    Tokens(TokenView(book, Input), TokenView(book, Output), TokenView(book, Total))
  }

  /** The snapshot is the bounded view of this book. */
  predicate Views(b: Snapshot, book: seq<Receipt>) {
    && b.receipts == book[Closed(book)..]
    && b.receiptsTruncated == ClampInt(Closed(book))
    && b.quanta == ClampInt(|book|)
    && b.lastGeneration == LastEntered(book)
    && b.cost == CostView(book)
    && b.tokens == TokensView(book)
  }

  lemma {:induction false} TotalsAfterUpdate(book: seq<Receipt>, i: nat, x: Receipt, f: Field)
    requires i < |book|
    ensures TotalCost(book[i := x]) == TotalCost(book) - book[i].cost + x.cost
    ensures TotalTokens(book[i := x], f)
         == TotalTokens(book, f) - book[i].tokens.Of(f).GetOr(0) + x.tokens.Of(f).GetOr(0)
  {
    var n := |book| - 1;
    if i == n {
      assert book[i := x][..n] == book[..n];
    } else {
      assert book[i := x][..n] == book[..n][i := x];
      TotalsAfterUpdate(book[..n], i, x, f);
    }
  }

  lemma {:induction false} TotalsNonNegative(book: seq<Receipt>, f: Field)
    requires WellKept(book)
    ensures TotalCost(book) >= 0.0 && TotalTokens(book, f) >= 0
  {
    if book != [] {
      TotalsNonNegative(book[..|book| - 1], f);
    }
  }

  lemma EnterWellKept(book: seq<Receipt>, r: Receipt)
    requires WellKept(book) && CanonicalReceipt(r)
    ensures WellKept(Enter(book, r))
  {
    var k := Closed(book);
    var i := FindGeneration(book[k..], r.generation);
    hide FindGeneration;
    if k + i < |book| {
      assert book[k..][i] == book[k + i];
      assert CanonicalReceipt(MaxReceipt(book[k + i], r));
      hide CanonicalReceipt, MaxReceipt;
    } else if book != [] {
      assert book[|book| - 1].generation >= 1;
    }
  }

  lemma RaiseAgainstTotal(sum: int, reported: bool, before: Option<int>, after: Option<int>)
    requires sum >= 0 && OptInRange(before) && OptInRange(after)
    requires before.Some? ==> reported && after.Some? && before.value <= after.value
    requires before.GetOr(0) <= sum
    ensures RaiseInt(if reported then Some(ClampInt(sum)) else None, before, after)
         == (if reported || after.Some?
             then Some(ClampInt((if reported then sum else 0) - before.GetOr(0) + after.GetOr(0)))
             else None)
  {
  }

  lemma {:induction false} TokensBelowTotal(book: seq<Receipt>, i: nat, f: Field)
    requires WellKept(book) && i < |book|
    ensures book[i].tokens.Of(f).GetOr(0) <= TotalTokens(book, f)
  {
    var n := |book| - 1;
    TotalsNonNegative(book[..n], f);
    if i < n {
      TokensBelowTotal(book[..n], i, f);
    }
  }

  lemma {:induction false} UnreportedTotal(book: seq<Receipt>, f: Field)
    requires !Reports(book, f)
    ensures TotalTokens(book, f) == 0
  {
    if book != [] {
      var n := |book| - 1;
      assert book[n].tokens.Of(f).None?;
      UnreportedTotal(book[..n], f);
    }
  }

  lemma ReportsUpdated(book: seq<Receipt>, k: nat, x: Receipt, f: Field)
    requires k < |book| && (book[k].tokens.Of(f).Some? ==> x.tokens.Of(f).Some?)
    ensures Reports(book[k := x], f) <==> Reports(book, f) || x.tokens.Of(f).Some?
  {
    var next := book[k := x];
    if Reports(book, f) {
      var i :| 0 <= i < |book| && book[i].tokens.Of(f).Some?;
      assert next[i].tokens.Of(f).Some?;
    }
    if x.tokens.Of(f).Some? { assert next[k].tokens.Of(f).Some?; }
    if Reports(next, f) {
      var i :| 0 <= i < |next| && next[i].tokens.Of(f).Some?;
      assert i != k ==> book[i].tokens.Of(f).Some?;
    }
  }

  lemma ReportsAppended(book: seq<Receipt>, r: Receipt, f: Field)
    ensures Reports(book + [r], f) <==> Reports(book, f) || r.tokens.Of(f).Some?
  {
    var next := book + [r];
    if Reports(book, f) {
      var i :| 0 <= i < |book| && book[i].tokens.Of(f).Some?;
      assert next[i].tokens.Of(f).Some?;
    }
    if r.tokens.Of(f).Some? { assert next[|book|].tokens.Of(f).Some?; }
    if Reports(next, f) {
      var i :| 0 <= i < |next| && next[i].tokens.Of(f).Some?;
      assert i < |book| ==> book[i].tokens.Of(f).Some?;
    }
  }

  lemma ReceiptTokens(r: Receipt, p: Receipt, f: Field)
    requires CanonicalReceipt(r)
    ensures OptInRange(r.tokens.Of(f)) && MaxReceipt(p, r).tokens.Of(f) == MaxOpt(p.tokens.Of(f), r.tokens.Of(f))
  {
  }

  lemma ReportedHere(book: seq<Receipt>, k: nat, f: Field)
    requires k < |book| && book[k].tokens.Of(f).Some?
    ensures Reports(book, f)
  {
  }

  /** Raising one receipt of the book raises the viewed totals by the same difference. */
  lemma RaisedTokens(book: seq<Receipt>, k: nat, r: Receipt, f: Field)
    requires WellKept(book) && k < |book| && CanonicalReceipt(r)
    ensures var x := MaxReceipt(book[k], r);
            TokenView(book[k := x], f) == RaiseInt(TokenView(book, f), book[k].tokens.Of(f), x.tokens.Of(f))
  {
    assert CanonicalReceipt(book[k]);
    hide WellKept, CanonicalReceipt, Reports, TotalTokens, MaxReceipt, RaiseInt, ClampInt;
    var x := MaxReceipt(book[k], r);
    var before, after := book[k].tokens.Of(f), x.tokens.Of(f);
    ReceiptTokens(r, book[k], f);
    ReceiptTokens(book[k], r, f);
    TotalsAfterUpdate(book, k, x, f);
    TotalsNonNegative(book, f);
    TokensBelowTotal(book, k, f);
    ReportsUpdated(book, k, x, f);
    if before.Some? { ReportedHere(book, k, f); }
    if !Reports(book, f) { UnreportedTotal(book, f); }
    RaiseAgainstTotal(TotalTokens(book, f), Reports(book, f), before, after);
  }

  lemma AppendedTokens(book: seq<Receipt>, r: Receipt, f: Field)
    requires WellKept(book) && CanonicalReceipt(r)
    ensures TokenView(book + [r], f) == RaiseInt(TokenView(book, f), None, r.tokens.Of(f))
  {
    hide WellKept, CanonicalReceipt, Reports, RaiseInt, ClampInt;
    assert (book + [r])[..|book|] == book;
    ReceiptTokens(r, r, f);
    TotalsNonNegative(book, f);
    ReportsAppended(book, r, f);
    if !Reports(book, f) { UnreportedTotal(book, f); }
    RaiseAgainstTotal(TotalTokens(book, f), Reports(book, f), None, r.tokens.Of(f));
  }

  lemma RaisedView(book: seq<Receipt>, k: nat, r: Receipt)
    requires WellKept(book) && k < |book| && CanonicalReceipt(r)
    ensures var x := MaxReceipt(book[k], r);
            && TokensView(book[k := x]) == RaiseTokens(TokensView(book), book[k].tokens, x.tokens)
            && CostView(book[k := x]) == RaiseCost(CostView(book), book[k].cost, x.cost)
  {
    RaisedTokens(book, k, r, Input);
    RaisedTokens(book, k, r, Output);
    RaisedTokens(book, k, r, Total);
    TotalsAfterUpdate(book, k, MaxReceipt(book[k], r), Input);
    TotalsNonNegative(book, Input);
  }

  lemma AppendedView(book: seq<Receipt>, r: Receipt)
    requires WellKept(book) && CanonicalReceipt(r)
    ensures TokensView(book + [r]) == RaiseTokens(TokensView(book), NO_TOKENS, r.tokens)
    ensures CostView(book + [r]) == RaiseCost(CostView(book), 0.0, r.cost)
  {
    AppendedTokens(book, r, Input);
    AppendedTokens(book, r, Output);
    AppendedTokens(book, r, Total);
    assert (book + [r])[..|book|] == book;
    TotalsNonNegative(book, Input);
  }

  /** One report: the bounded step tracks the step on the book. */
  lemma StepViews(b: Snapshot, book: seq<Receipt>, r: Receipt)
    requires WellKept(book) && CanonicalReceipt(r) && Views(b, book)
    ensures Views(TrimReceipts(PostReceipt(b, r)), Enter(book, r))
  {
    var i := FindGeneration(b.receipts, r.generation);
    if i < |b.receipts| {
      StepRaises(b, book, r);
    } else if r.generation > b.lastGeneration {
      StepAppends(b, book, r);
    }
  }

  lemma StepRaises(b: Snapshot, book: seq<Receipt>, r: Receipt)
    requires WellKept(book) && CanonicalReceipt(r) && Views(b, book)
    requires FindGeneration(b.receipts, r.generation) < |b.receipts|
    ensures Views(TrimReceipts(PostReceipt(b, r)), Enter(book, r))
  {
    var i := FindGeneration(b.receipts, r.generation);
    var k := Closed(book) + i;
    assert b.receipts[i] == book[k];
    var x := MaxReceipt(book[k], r);
    RaisedView(book, k, r);
    assert Enter(book, r) == book[k := x];
    assert book[k := x][Closed(book)..] == b.receipts[i := x];
    assert book[k].generation <= LastEntered(book) == LastEntered(book[k := x]);
  }

  lemma WindowSlides<T>(book: seq<T>, x: T, n: nat)
    requires n > 0
    ensures LastN(LastN(book, n) + [x], n) == LastN(book + [x], n)
  {
  }

  /** The window of a book with one more receipt, and how many have left it. */
  lemma WindowAppends(book: seq<Receipt>, r: Receipt)
    ensures var next := book + [r];
            && LastN(book[Closed(book)..] + [r], RECEIPT_LIMIT) == next[Closed(next)..]
            && Closed(next) == Closed(book) + (if |book| < RECEIPT_LIMIT then 0 else 1)
  {
    var next := book + [r];
    WindowSlides(book, r, RECEIPT_LIMIT);
    assert next[Closed(next)..] == LastN(next, RECEIPT_LIMIT);
    assert book[Closed(book)..] == LastN(book, RECEIPT_LIMIT);
  }

  /** A snapshot after a receipt for a new generation. */
  function Appended(b: Snapshot, r: Receipt): Snapshot {
    b.(receipts := LastN(b.receipts + [r], RECEIPT_LIMIT),
       cost := RaiseCost(b.cost, 0.0, r.cost), tokens := RaiseTokens(b.tokens, NO_TOKENS, r.tokens),
       quanta := ClampInt(b.quanta + 1), lastGeneration := r.generation,
       receiptsTruncated :=
         if |b.receipts| < RECEIPT_LIMIT then b.receiptsTruncated else ClampInt(b.receiptsTruncated + 1))
  }

  lemma PostAppends(b: Snapshot, r: Receipt)
    requires FindGeneration(b.receipts, r.generation) == |b.receipts| <= RECEIPT_LIMIT
    requires r.generation > b.lastGeneration
    ensures TrimReceipts(PostReceipt(b, r)) == Appended(b, r)
  {
    var next := b.receipts + [r];
    assert |next| <= RECEIPT_LIMIT ==> LastN(next, RECEIPT_LIMIT) == next;
    hide FindGeneration, RaiseTokens, RaiseCost, ClampInt, LastN;
  }

  lemma AppendedViews(b: Snapshot, book: seq<Receipt>, r: Receipt)
    requires WellKept(book) && CanonicalReceipt(r) && Views(b, book)
    ensures Views(Appended(b, r), book + [r])
  {
    AppendedView(book, r);
    WindowAppends(book, r);
    assert |b.receipts| == |book| - Closed(book);
    assert |b.receipts| < RECEIPT_LIMIT <==> |book| < RECEIPT_LIMIT;
    hide TokensView, CostView, RaiseTokens, RaiseCost, WellKept, LastN, CanonicalReceipt, Closed;
  }

  lemma StepAppends(b: Snapshot, book: seq<Receipt>, r: Receipt)
    requires WellKept(book) && CanonicalReceipt(r) && Views(b, book)
    requires FindGeneration(b.receipts, r.generation) == |b.receipts|
    requires r.generation > b.lastGeneration
    ensures Views(TrimReceipts(PostReceipt(b, r)), Enter(book, r))
  {
    assert |b.receipts| <= RECEIPT_LIMIT && Enter(book, r) == book + [r];
    hide *;
    PostAppends(b, r);
    AppendedViews(b, book, r);
  }

  lemma {:induction false} AppendUnseenDistinct(xs: seq<Attempt>, more: seq<Attempt>)
    requires Distinct(xs)
    ensures Distinct(AppendUnseen(xs, more))
    decreases |more|
  {
    if more != [] {
      AppendUnseenDistinct(if more[0] in xs then xs else xs + [more[0]], more[1..]);
    }
  }

  /**
   * Conservation over any run of reports, in any order of generations and with any replays: the stored
   * snapshot views the unbounded book, so its cost and token totals are the book's, saturated at the
   * caps and otherwise exact; the kept receipts are the strictly increasing tail of the book, and the
   * kept attempts are bounded in number and pairwise distinct.
   */
  lemma {:induction false} SnapshotViewsBook(ds: seq<Delivery>)
    ensures var b := Normalize(Stored(ds));
            && WellKept(BookOf(ds)) && Views(b, BookOf(ds))
            && Bounded(b) && CountersInRange(b) && Distinct(b.attempts)
            && (ds != [] ==> Stored(ds) == Encode(b))
  {
    if ds == [] {
      NormalizeAbsent();
    } else {
      var n := |ds| - 1;
      var d := ds[n];
      var raw, book := Stored(ds[..n]), BookOf(ds[..n]);
      var next := Merge(raw, d.usage, d.generation);
      assert Stored(ds) == Encode(next);
      assert BookOf(ds) == EnterDelivery(book, d);
      hide *;
      SnapshotViewsBook(ds[..n]);
      DeliveryViews(raw, book, d);
      InRangeReadsBack(next);
    }
  }

  lemma NormalizeAbsent()
    ensures Normalize(Null) == EMPTY
  {
  }

  lemma DeliveryViews(raw: Value, book: seq<Receipt>, d: Delivery)
    requires WellKept(book) && Views(Normalize(raw), book)
    requires CountersInRange(Normalize(raw)) && Distinct(Normalize(raw).attempts)
    ensures var next := Merge(raw, d.usage, d.generation);
            && WellKept(EnterDelivery(book, d)) && Views(next, EnterDelivery(book, d))
            && Bounded(next) && CountersInRange(next) && Distinct(next.attempts)
  {
    var b := Normalize(raw);
    NormalizeBounded(raw);
    if Present(d.usage) {
      var rep := ReadReport(d.usage, d.generation);
      ReadReportCanonical(d.usage, d.generation);
      MergeUnfolds(raw, d.usage, d.generation);
      EnterWellKept(book, rep.receipt);
      StepViews(b, book, rep.receipt);
      AppendUnseenDistinct(b.attempts, rep.attempts);
      AppliedKeepsView(b, rep, Enter(book, rep.receipt));
    }
  }

  /** The attempts and the closing clamp do not disturb the view. */
  lemma AppliedKeepsView(b: Snapshot, rep: Report, book: seq<Receipt>)
    requires Views(TrimReceipts(PostReceipt(b, rep.receipt)), book)
    requires Distinct(AppendUnseen(b.attempts, rep.attempts))
    ensures Views(ClampCounters(Apply(b, rep)), book) && Distinct(ClampCounters(Apply(b, rep)).attempts)
  {
    var c := TrimReceipts(PostReceipt(b, rep.receipt));
    assert c.attempts == b.attempts;
    assert Apply(b, rep) == PostAttempts(c, rep.attempts);
    hide PostReceipt, TrimReceipts, Apply, Views, Distinct, AppendUnseen;
    AttemptsKeepView(c, rep.attempts, book);
    AttemptsStayDistinct(c, rep.attempts);
  }

  lemma AttemptsKeepView(c: Snapshot, more: seq<Attempt>, book: seq<Receipt>)
    requires Views(c, book)
    ensures Views(ClampCounters(PostAttempts(c, more)), book)
  {
    hide AppendUnseen, LastN, TokensView, CostView, Closed;
  }

  lemma AttemptsStayDistinct(c: Snapshot, more: seq<Attempt>)
    requires Distinct(AppendUnseen(c.attempts, more))
    ensures Distinct(ClampCounters(PostAttempts(c, more)).attempts)
  {
    hide AppendUnseen;
  }

  /** Kept receipts are the increasing tail of the book and end at the last generation billed. */
  predicate Ordered(b: Snapshot) {
    && |b.receipts| <= RECEIPT_LIMIT && |b.attempts| <= ATTEMPT_LIMIT
    && (forall i, j :: 0 <= i < j < |b.receipts| ==> b.receipts[i].generation < b.receipts[j].generation)
    && (b.receipts != [] ==> b.receipts[|b.receipts| - 1].generation == b.lastGeneration)
  }

  /** Below the caps the books balance: cost and each token total are what was closed plus what is still kept. */
  lemma TotalsBalance(ds: seq<Delivery>)
    ensures var b, book := Normalize(Stored(ds)), BookOf(ds);
            && Ordered(b)
            && (TotalCost(book) <= COST_LIMIT ==>
                  b.cost == TotalCost(book[..Closed(book)]) + TotalCost(b.receipts))
            && (forall f: Field :: TotalTokens(book, f) <= INT_LIMIT ==>
                  b.tokens.Of(f).GetOr(0) == TotalTokens(book[..Closed(book)], f) + TotalTokens(b.receipts, f))
            && (|book| <= INT_LIMIT ==> b.quanta == |b.receipts| + b.receiptsTruncated)
  {
    var b, book := Normalize(Stored(ds)), BookOf(ds);
    hide *;
    SnapshotViewsBook(ds);
    ViewOrdered(b, book);
    forall f: Field { ViewBalances(b, book, f); }
    ViewBalances(b, book, Input);
  }

  lemma ViewOrdered(b: Snapshot, book: seq<Receipt>)
    requires WellKept(book) && Views(b, book) && Bounded(b)
    ensures Ordered(b)
    ensures |book| <= INT_LIMIT ==> b.quanta == |b.receipts| + b.receiptsTruncated
  {
    hide TotalCost, TotalTokens, TokensView, CostView, CanonicalReceipt, CanonicalAttempt;
    var k := Closed(book);
    forall i, j | 0 <= i < j < |b.receipts| ensures b.receipts[i].generation < b.receipts[j].generation {
      assert book[k + i].generation < book[k + j].generation;
    }
  }

  lemma ViewBalances(b: Snapshot, book: seq<Receipt>, f: Field)
    requires WellKept(book) && Views(b, book)
    ensures TotalCost(book) <= COST_LIMIT ==>
              b.cost == TotalCost(book[..Closed(book)]) + TotalCost(b.receipts)
    ensures TotalTokens(book, f) <= INT_LIMIT ==>
              b.tokens.Of(f).GetOr(0) == TotalTokens(book[..Closed(book)], f) + TotalTokens(b.receipts, f)
  {
    ViewedTotals(b, book);
    TotalsNonNegative(book, f);
    TotalsSplit(book, Closed(book), f);
    assert b.receipts == book[Closed(book)..];
    hide *;
    ClampBelow(TotalCost(book), TotalTokens(book, f));
  }

  lemma ClampBelow(c: real, n: int)
    requires c >= 0.0 && n >= 0
    ensures c <= COST_LIMIT ==> ClampCost(c) == c
    ensures n <= INT_LIMIT ==> ClampInt(n) == n
  {
  }

  lemma {:induction false} TotalsSplit(book: seq<Receipt>, k: nat, f: Field)
    requires k <= |book|
    ensures TotalCost(book) == TotalCost(book[..k]) + TotalCost(book[k..])
    ensures TotalTokens(book, f) == TotalTokens(book[..k], f) + TotalTokens(book[k..], f)
    decreases |book|
  {
    if k < |book| {
      var n := |book| - 1;
      TotalsSplit(book[..n], k, f);
      assert book[..n][..k] == book[..k] && book[..n][k..] == book[k..][..n - k];
    } else {
      assert book[..k] == book && book[k..] == [];
    }
  }

  /** What leaves the window is all that leaves the kept sum: each step closes at most one receipt. */
  lemma ClosingIsFinal(book: seq<Receipt>, r: Receipt)
    requires WellKept(book) && CanonicalReceipt(r)
    ensures var next := Enter(book, r);
            && Closed(book) <= Closed(next) <= Closed(book) + 1
            && next[..Closed(book)] == book[..Closed(book)]
  {
  }

  // ---------- Each generation once ----------

  /** The distinct generations of a run of deliveries whose generations never decrease. */
  function Generations(ds: seq<Delivery>): seq<int> {
    if ds == [] then []
    else AddGeneration(Generations(ds[..|ds| - 1]), ds[|ds| - 1].generation)
  }

  function ReportedCost(usage: Value): real { BillingCost(Get(usage.EntriesOrEmpty(), "cost_usd")) }

  function CostOfEach(gs: seq<int>, usageOf: int -> Value): real {
    if gs == [] then 0.0
    else CostOfEach(gs[..|gs| - 1], usageOf) + ReportedCost(usageOf(gs[|gs| - 1]))
  }

  /** A document without any billing key is not a report, even if it holds a token count alias. */
  function ReportedTokens(usage: Value, f: Field): int {
    if Present(usage) then UsageNumbers(usage.entries).Of(f).GetOr(0) else 0
  }

  function TokensOfEach(gs: seq<int>, usageOf: int -> Value, f: Field): int {
    if gs == [] then 0
    else TokensOfEach(gs[..|gs| - 1], usageOf, f) + ReportedTokens(usageOf(gs[|gs| - 1]), f)
  }

  predicate NonDecreasing(ds: seq<Delivery>) {
    forall i, j :: 0 <= i < j < |ds| ==> ds[i].generation <= ds[j].generation
  }

  predicate OneResultEach(ds: seq<Delivery>, usageOf: int -> Value) {
    forall i :: 0 <= i < |ds| ==> ds[i].usage == usageOf(ds[i].generation) && 1 <= ds[i].generation <= INT_LIMIT
  }

  /** The receipts of the distinct generations, in order; a generation without a report has none. */
  function ReceiptsOfEach(gs: seq<int>, usageOf: int -> Value): seq<Receipt> {
    if gs == [] then []
    else
      var g := gs[|gs| - 1];
      ReceiptsOfEach(gs[..|gs| - 1], usageOf)
      + if Present(usageOf(g)) then [ReadReport(usageOf(g), g).receipt] else []
  }

  lemma {:induction false} ReceiptsOfEachTotals(gs: seq<int>, usageOf: int -> Value, f: Field)
    ensures TotalCost(ReceiptsOfEach(gs, usageOf)) == CostOfEach(gs, usageOf)
    ensures TotalTokens(ReceiptsOfEach(gs, usageOf), f) == TokensOfEach(gs, usageOf, f)
  {
    if gs != [] {
      var before := ReceiptsOfEach(gs[..|gs| - 1], usageOf);
      ReceiptsOfEachTotals(gs[..|gs| - 1], usageOf, f);
      var usage := usageOf(gs[|gs| - 1]);
      if Present(usage) {
        var all := before + [ReadReport(usage, gs[|gs| - 1]).receipt];
        assert ReceiptsOfEach(gs, usageOf) == all && all[..|before|] == before;
      } else {
        assert ReceiptsOfEach(gs, usageOf) == before;
      }
    }
  }

  lemma MaxWithItself(r: Receipt)
    ensures MaxReceipt(r, r) == r
  {
  }

  predicate UpTo(book: seq<Receipt>, g: int) {
    forall i :: 0 <= i < |book| ==> 1 <= book[i].generation <= g
  }

  predicate IncreasingInRange(gs: seq<int>) {
    && (forall i, j :: 0 <= i < j < |gs| ==> gs[i] < gs[j])
    && (forall i :: 0 <= i < |gs| ==> 1 <= gs[i] <= INT_LIMIT)
  }

  /** The last generation entered, and nothing after it. */
  lemma {:induction false} ReceiptsOfEachLast(gs: seq<int>, usageOf: int -> Value)
    requires IncreasingInRange(gs) && gs != []
    ensures UpTo(ReceiptsOfEach(gs, usageOf), gs[|gs| - 1])
    ensures Present(usageOf(gs[|gs| - 1])) ==>
              var book := ReceiptsOfEach(gs, usageOf);
              book != [] && book[|book| - 1] == ReadReport(usageOf(gs[|gs| - 1]), gs[|gs| - 1]).receipt
  {
    var n := |gs| - 1;
    var before := ReceiptsOfEach(gs[..n], usageOf);
    assert UpTo(before, gs[n]) by {
      if n > 0 {
        ReceiptsOfEachLast(gs[..n], usageOf);
        assert gs[n - 1] < gs[n];
      }
    }
    if Present(usageOf(gs[n])) {
      var r := ReadReport(usageOf(gs[n]), gs[n]).receipt;
      assert r.generation == gs[n];
      assert ReceiptsOfEach(gs, usageOf) == before + [r];
    } else {
      assert ReceiptsOfEach(gs, usageOf) == before;
    }
  }

  /** The last receipt of a book is the one its generation finds among the kept ones. */
  lemma LastIsFound(book: seq<Receipt>)
    requires WellKept(book) && book != []
    ensures Closed(book) + FindGeneration(book[Closed(book)..], book[|book| - 1].generation) == |book| - 1
  {
    var k, n := Closed(book), |book| - 1;
    var i := FindGeneration(book[k..], book[n].generation);
    assert book[k..][n - k] == book[n];
    hide FindGeneration, CanonicalReceipt;
    assert i <= n - k;
    assert book[k..][i] == book[k + i];
  }

  lemma EnterAgain(book: seq<Receipt>, r: Receipt)
    requires WellKept(book) && book != [] && book[|book| - 1] == r
    ensures Enter(book, r) == book
  {
    LastIsFound(book);
    MaxWithItself(r);
    hide FindGeneration, WellKept, MaxReceipt, Closed;
    assert book[|book| - 1 := r] == book;
  }

  lemma EnterLater(book: seq<Receipt>, r: Receipt)
    requires forall i :: 0 <= i < |book| ==> book[i].generation < r.generation
    requires r.generation > 0
    ensures Enter(book, r) == book + [r]
  {
  }

  lemma {:induction false} GenerationsIncrease(ds: seq<Delivery>)
    requires NonDecreasing(ds)
    requires forall i :: 0 <= i < |ds| ==> 1 <= ds[i].generation <= INT_LIMIT
    ensures IncreasingInRange(Generations(ds))
    ensures Generations(ds) == [] <==> ds == []
    ensures ds != [] ==> var gs := Generations(ds); gs[|gs| - 1] == ds[|ds| - 1].generation
  {
    if ds != [] {
      var n := |ds| - 1;
      assert NonDecreasing(ds[..n]);
      GenerationsIncrease(ds[..n]);
      assert n > 0 ==> ds[n - 1].generation <= ds[n].generation;
      var before, g := Generations(ds[..n]), ds[n].generation;
      assert Generations(ds) == AddGeneration(before, g);
      assert n > 0 ==> ds[..n][n - 1] == ds[n - 1];
      hide Generations, NonDecreasing, IncreasingInRange;
      if !(before != [] && before[|before| - 1] == g) { IncreasingAppend(before, g); }
    }
  }

  /** Entering the one result of the latest generation, for the first time or again. */
  lemma EnterLatest(gs: seq<int>, g: int, usageOf: int -> Value)
    requires IncreasingInRange(gs) && 1 <= g <= INT_LIMIT
    requires gs != [] ==> gs[|gs| - 1] <= g
    requires WellKept(ReceiptsOfEach(gs, usageOf))
    ensures EnterDelivery(ReceiptsOfEach(gs, usageOf), Delivery(usageOf(g), g))
         == ReceiptsOfEach(AddGeneration(gs, g), usageOf)
  {
    hide EnterDelivery, ReceiptsOfEach, IncreasingInRange, WellKept;
    if gs != [] && gs[|gs| - 1] == g {
      EnterSame(gs, g, usageOf);
    } else {
      EnterNewer(gs, g, usageOf);
    }
  }

  lemma EnterSame(gs: seq<int>, g: int, usageOf: int -> Value)
    requires IncreasingInRange(gs) && gs != [] && gs[|gs| - 1] == g
    requires WellKept(ReceiptsOfEach(gs, usageOf))
    ensures EnterDelivery(ReceiptsOfEach(gs, usageOf), Delivery(usageOf(g), g)) == ReceiptsOfEach(gs, usageOf)
  {
    hide Present, ReadReport, ReceiptsOfEach, Enter, IncreasingInRange, WellKept, UpTo;
    ReceiptsOfEachLast(gs, usageOf);
    if Present(usageOf(g)) {
      EnterAgain(ReceiptsOfEach(gs, usageOf), ReadReport(usageOf(g), g).receipt);
    }
  }

  lemma EnterNewer(gs: seq<int>, g: int, usageOf: int -> Value)
    requires IncreasingInRange(gs) && 1 <= g <= INT_LIMIT
    requires gs != [] ==> gs[|gs| - 1] < g
    ensures EnterDelivery(ReceiptsOfEach(gs, usageOf), Delivery(usageOf(g), g)) == ReceiptsOfEach(gs + [g], usageOf)
  {
    hide Present, ReadReport, ReceiptsOfEach, Enter, IncreasingInRange;
    ReceiptsOfEachAppend(gs, g, usageOf);
    if Present(usageOf(g)) { EnterNext(gs, g, usageOf); }
  }

  lemma EnterNext(gs: seq<int>, g: int, usageOf: int -> Value)
    requires IncreasingInRange(gs) && 1 <= g <= INT_LIMIT
    requires gs != [] ==> gs[|gs| - 1] < g
    ensures var book, r := ReceiptsOfEach(gs, usageOf), ReadReport(usageOf(g), g).receipt;
            Enter(book, r) == book + [r]
  {
    var book, r := ReceiptsOfEach(gs, usageOf), ReadReport(usageOf(g), g).receipt;
    hide ReceiptsOfEach, ReadReport, IncreasingInRange, Present, Enter, CanonicalReceipt, AllAttemptsCanonical;
    ReadReportCanonical(usageOf(g), g);
    ReceiptsOfEachAppend(gs, g, usageOf);
    if gs != [] { ReceiptsOfEachLast(gs, usageOf); }
    EnterLater(book, r);
  }

  lemma ReceiptsOfEachAppend(gs: seq<int>, g: int, usageOf: int -> Value)
    ensures ReceiptsOfEach([], usageOf) == []
    ensures ReceiptsOfEach(gs + [g], usageOf) == ReceiptsOfEach(gs, usageOf)
         + if Present(usageOf(g)) then [ReadReport(usageOf(g), g).receipt] else []
  {
    hide ReadReport;
    assert (gs + [g])[..|gs|] == gs;
  }

  lemma IncreasingAppend(gs: seq<int>, g: int)
    requires IncreasingInRange(gs) && 1 <= g <= INT_LIMIT && (gs != [] ==> gs[|gs| - 1] < g)
    ensures IncreasingInRange(gs + [g])
  {
    forall i | 0 <= i < |gs| ensures gs[i] < g {
      assert gs[i] <= gs[|gs| - 1];
    }
  }

  function AddGeneration(gs: seq<int>, g: int): seq<int> {
    if gs != [] && gs[|gs| - 1] == g then gs else gs + [g]
  }

  lemma PrefixOfOnce(ds: seq<Delivery>, usageOf: int -> Value)
    requires NonDecreasing(ds) && OneResultEach(ds, usageOf) && ds != []
    ensures var n := |ds| - 1;
            && NonDecreasing(ds[..n]) && OneResultEach(ds[..n], usageOf)
            && (n > 0 ==> ds[..n][n - 1].generation <= ds[n].generation)
            && 1 <= ds[n].generation <= INT_LIMIT
            && ds[n] == Delivery(usageOf(ds[n].generation), ds[n].generation)
  {
  }

  /** When generations never go back and each has one result, replays leave no trace in the book. */
  lemma {:induction false} BookOfOnce(ds: seq<Delivery>, usageOf: int -> Value)
    requires NonDecreasing(ds) && OneResultEach(ds, usageOf)
    ensures BookOf(ds) == ReceiptsOfEach(Generations(ds), usageOf)
  {
    if ds != [] {
      hide EnterDelivery, NonDecreasing, OneResultEach, ReceiptsOfEach, Normalize, IncreasingInRange;
      var n := |ds| - 1;
      PrefixOfOnce(ds, usageOf);
      BookOfOnce(ds[..n], usageOf);
      GenerationsOfOnce(ds[..n], usageOf);
      BookWellKept(ds[..n]);
      EnterLatest(Generations(ds[..n]), ds[n].generation, usageOf);
    }
  }

  lemma GenerationsOfOnce(ds: seq<Delivery>, usageOf: int -> Value)
    requires NonDecreasing(ds) && OneResultEach(ds, usageOf)
    ensures IncreasingInRange(Generations(ds))
    ensures Generations(ds) == [] <==> ds == []
    ensures ds != [] ==> var gs := Generations(ds); gs[|gs| - 1] == ds[|ds| - 1].generation
  {
    GenerationsIncrease(ds);
  }

  lemma BookWellKept(ds: seq<Delivery>)
    ensures WellKept(BookOf(ds))
  {
    SnapshotViewsBook(ds);
  }

  /**
   * Exactly once. However often each generation's one result is delivered, the stored cost and token
   * counts are the sums over the distinct generations, saturated at the caps.
   */
  lemma BilledOnce(ds: seq<Delivery>, usageOf: int -> Value)
    requires NonDecreasing(ds) && OneResultEach(ds, usageOf)
    ensures var b, gs := Normalize(Stored(ds)), Generations(ds);
            && b.cost == ClampCost(CostOfEach(gs, usageOf))
            && forall f: Field :: b.tokens.Of(f).GetOr(0) == ClampInt(TokensOfEach(gs, usageOf, f))
  {
    BookOfOnce(ds, usageOf);
    hide *;
    SnapshotViewsBook(ds);
    ViewedTotals(Normalize(Stored(ds)), BookOf(ds));
    ReceiptsOfEachTotals(Generations(ds), usageOf, Input);
    forall f: Field { ReceiptsOfEachTotals(Generations(ds), usageOf, f); }
  }

  lemma ViewedTotals(b: Snapshot, book: seq<Receipt>)
    requires Views(b, book)
    ensures b.cost == ClampCost(TotalCost(book))
    ensures forall f: Field :: b.tokens.Of(f).GetOr(0) == ClampInt(TotalTokens(book, f))
  {
    forall f: Field ensures b.tokens.Of(f).GetOr(0) == ClampInt(TotalTokens(book, f)) {
      if !Reports(book, f) { UnreportedTotal(book, f); }
      assert TokensView(book).Of(f) == TokenView(book, f);
    }
  }

  lemma {:induction false} GenerationsCover(ds: seq<Delivery>)
    ensures forall k :: 0 <= k < |ds| ==> ds[k].generation in Generations(ds)
  {
    if ds != [] {
      var n := |ds| - 1;
      GenerationsCover(ds[..n]);
      var gs := AddGeneration(Generations(ds[..n]), ds[n].generation);
      assert gs[|gs| - 1] == ds[n].generation;
      forall k | 0 <= k < n ensures ds[k].generation in gs {
        assert ds[..n][k] == ds[k];
      }
    }
  }

  // ---------- Histories ----------

  /** The checkpoint and the book side by side, from nothing, one delivery after another. */
  predicate IsHistory(stored: seq<Value>, books: seq<seq<Receipt>>, ds: seq<Delivery>) {
    && |stored| == |books| == |ds| + 1 && stored[0] == Null && books[0] == []
    && forall i {:trigger stored[i], ds[i]} :: 0 <= i < |ds| ==>
         stored[i + 1] == Deliver(stored[i], ds[i]) && books[i + 1] == EnterDelivery(books[i], ds[i])
  }

  lemma {:induction false} HistoryIsFold(stored: seq<Value>, books: seq<seq<Receipt>>, ds: seq<Delivery>, i: nat)
    requires IsHistory(stored, books, ds) && i < |stored|
    ensures stored[i] == Stored(ds[..i]) && books[i] == BookOf(ds[..i])
  {
    hide Deliver, EnterDelivery;
    if i > 0 {
      HistoryIsFold(stored, books, ds, i - 1);
      assert stored[i] == Deliver(stored[i - 1], ds[i - 1]);
      assert ds[..i][..i - 1] == ds[..i - 1];
    }
  }

  /** In every history the snapshot is the bounded view of the book: same totals, saturated at the caps. */
  lemma SnapshotTracksBook(stored: seq<Value>, books: seq<seq<Receipt>>, ds: seq<Delivery>, i: nat)
    requires IsHistory(stored, books, ds) && i < |stored|
    ensures WellKept(books[i]) && Views(Normalize(stored[i]), books[i])
  {
    HistoryIsFold(stored, books, ds, i);
    hide *;
    SnapshotViewsBook(ds[..i]);
  }

  /** And it stays within its windows and caps, with pairwise distinct attempts. */
  lemma SnapshotStaysBounded(stored: seq<Value>, books: seq<seq<Receipt>>, ds: seq<Delivery>, i: nat)
    requires IsHistory(stored, books, ds) && i < |stored|
    ensures var b := Normalize(stored[i]);
            Bounded(b) && CountersInRange(b) && Distinct(b.attempts)
  {
    HistoryIsFold(stored, books, ds, i);
    hide *;
    SnapshotViewsBook(ds[..i]);
  }
}
