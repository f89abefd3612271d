/**
 * Replaying and reordering reports. A second delivery of the same report never bills again, whatever
 * the checkpoint held; two late reports land on the same totals in either order.
 */
module BillingReplay {
  import opened Wrappers
  import opened Values
  import opened Billing
  import opened BillingNormal

  /** Everything that is billed: all of the snapshot but the attempts and their counter. */
  predicate SameLedger(x: Snapshot, y: Snapshot) {
    x.(attempts := y.attempts, attemptsTruncated := y.attemptsTruncated) == y
  }

  lemma SameGenerationsSameIndex(rs: seq<Receipt>, ss: seq<Receipt>, generation: int)
    requires |rs| == |ss| && forall j :: 0 <= j < |rs| ==> rs[j].generation == ss[j].generation
    ensures FindGeneration(rs, generation) == FindGeneration(ss, generation)
  {
    var i, k := FindGeneration(rs, generation), FindGeneration(ss, generation);
    assert i < |rs| ==> ss[i].generation == generation;
    assert k < |ss| ==> rs[k].generation == generation;
  }

  lemma MaxIdempotent(p: Receipt, r: Receipt)
    requires p.generation == r.generation
    ensures MaxReceipt(MaxReceipt(p, r), r) == MaxReceipt(p, r)
  {
  }

  lemma RaiseSettled(t: Tokens, x: Tokens)
    requires TokensInRange(t)
    requires forall f: Field :: x.Of(f).Some? ==> t.Of(f).Some?
    ensures RaiseTokens(t, x, x) == t
  {
    assert x.Of(Input).Some? ==> t.Of(Input).Some?;
    assert x.Of(Output).Some? ==> t.Of(Output).Some?;
    assert x.Of(Total).Some? ==> t.Of(Total).Some?;
  }

  /** The receipt is already recorded, and its counts are in the totals; or it came too late. */
  predicate Settled(c: Snapshot, r: Receipt) {
    var i := FindGeneration(c.receipts, r.generation);
    && r.generation <= c.lastGeneration
    && (i < |c.receipts| ==>
          && MaxReceipt(c.receipts[i], r) == c.receipts[i]
          && forall f: Field :: c.receipts[i].tokens.Of(f).Some? ==> c.tokens.Of(f).Some?)
  }

  lemma PostSettled(c: Snapshot, r: Receipt)
    requires Bounded(c) && Settled(c, r)
    ensures TrimReceipts(PostReceipt(c, r)) == c
  {
    var i := FindGeneration(c.receipts, r.generation);
    if i < |c.receipts| {
      RaiseSettled(c.tokens, c.receipts[i].tokens);
      assert c.receipts[i := c.receipts[i]] == c.receipts;
    }
  }

  lemma RaisedIsSettled(b: Snapshot, r: Receipt)
    requires FindGeneration(b.receipts, r.generation) < |b.receipts|
    ensures Settled(PostReceipt(b, r), r)
  {
    var i := FindGeneration(b.receipts, r.generation);
    var c := PostReceipt(b, r);
    SameGenerationsSameIndex(b.receipts, c.receipts, r.generation);
    MaxIdempotent(b.receipts[i], r);
    assert c.receipts[i] == MaxReceipt(b.receipts[i], r);
    hide FindGeneration, MaxReceipt;
  }

  lemma AppendedIsSettled(b: Snapshot, r: Receipt, c: Snapshot)
    requires FindGeneration(b.receipts, r.generation) == |b.receipts|
    requires c.receipts == LastN(b.receipts + [r], RECEIPT_LIMIT) && c.lastGeneration == r.generation
    requires c.tokens == RaiseTokens(b.tokens, NO_TOKENS, r.tokens)
    ensures Settled(c, r)
  {
    AppendedIsFound(b.receipts, r);
    MaxIdempotent(r, r);
    hide FindGeneration, LastN;
  }

  /** A receipt just appended to the window is the one its generation finds. */
  lemma AppendedIsFound(rs: seq<Receipt>, r: Receipt)
    requires FindGeneration(rs, r.generation) == |rs|
    ensures var kept := LastN(rs + [r], RECEIPT_LIMIT);
            FindGeneration(kept, r.generation) == |kept| - 1 && kept[|kept| - 1] == r
  {
    var kept := LastN(rs + [r], RECEIPT_LIMIT);
    var k := |kept| - 1;
    forall j | 0 <= j < k ensures kept[j].generation != r.generation {
      assert kept[j] == rs[j + |rs| - k];
    }
    assert kept[k] == r;
    assert FindGeneration(kept, r.generation) <= k;
  }

  lemma PostIsSettled(b: Snapshot, r: Receipt)
    requires Bounded(b)
    ensures Settled(TrimReceipts(PostReceipt(b, r)), r)
  {
    var i := FindGeneration(b.receipts, r.generation);
    var c := TrimReceipts(PostReceipt(b, r));
    if i < |b.receipts| {
      RaisedIsSettled(b, r);
      hide Settled;
    } else if r.generation > b.lastGeneration {
      assert |b.receipts + [r]| <= RECEIPT_LIMIT ==> LastN(b.receipts + [r], RECEIPT_LIMIT) == b.receipts + [r];
      hide FindGeneration, LastN, Settled;
      AppendedIsSettled(b, r, c);
    }
  }

  lemma PostTwice(b: Snapshot, r: Receipt)
    requires Bounded(b) && CanonicalReceipt(r)
    ensures var c := TrimReceipts(PostReceipt(b, r));
            TrimReceipts(PostReceipt(c, r)) == c
  {
    hide *;
    PostReceiptBounded(b, r);
    PostIsSettled(b, r);
    PostSettled(TrimReceipts(PostReceipt(b, r)), r);
  }

  /** The attempts of `more` that `xs` does not hold, each once, in the order they are first listed. */
  function NewOnes(xs: seq<Attempt>, more: seq<Attempt>): seq<Attempt> {
    if more == [] then []
    else
      var before, last := NewOnes(xs, more[..|more| - 1]), more[|more| - 1];
      if last in xs || last in before then before else before + [last]
  }

  /** No listed attempt lies further than the window from the end of the stored ones followed by the new. */
  predicate FitsWindow(xs: seq<Attempt>, more: seq<Attempt>) {
    forall a :: a in more ==> a in LastN(xs + NewOnes(xs, more), ATTEMPT_LIMIT)
  }

  lemma {:induction false} NewOnesAreNew(xs: seq<Attempt>, more: seq<Attempt>)
    ensures forall a :: a in NewOnes(xs, more) <==> a in more && a !in xs
  {
    if more != [] {
      var n := |more| - 1;
      NewOnesAreNew(xs, more[..n]);
      assert more == more[..n] + [more[n]];
    }
  }

  lemma {:induction false} AppendUnseenLast(xs: seq<Attempt>, more: seq<Attempt>, last: Attempt)
    ensures var ys := AppendUnseen(xs, more);
            AppendUnseen(xs, more + [last]) == if last in ys then ys else ys + [last]
    decreases |more|
  {
    if more == [] {
      assert more + [last] == [last];
    } else {
      assert (more + [last])[1..] == more[1..] + [last];
      AppendUnseenLast(if more[0] in xs then xs else xs + [more[0]], more[1..], last);
    }
  }

  /** Scanning from the left appends exactly the new ones, whichever end they are counted from. */
  lemma {:induction false} AppendUnseenSplits(xs: seq<Attempt>, more: seq<Attempt>)
    ensures AppendUnseen(xs, more) == xs + NewOnes(xs, more)
  {
    if more != [] {
      var n := |more| - 1;
      AppendUnseenSplits(xs, more[..n]);
      AppendUnseenLast(xs, more[..n], more[n]);
      assert more == more[..n] + [more[n]];
    }
  }

  lemma PostAttemptsKeeps(b: Snapshot, more: seq<Attempt>)
    ensures PostAttempts(b, more).attempts == LastN(b.attempts + NewOnes(b.attempts, more), ATTEMPT_LIMIT)
  {
    AppendUnseenSplits(b.attempts, more);
  }

  lemma PostAttemptsFixed(b: Snapshot, more: seq<Attempt>)
    requires |b.attempts| <= ATTEMPT_LIMIT
    ensures PostAttempts(b, more) == b <==> forall a :: a in more ==> a in b.attempts
  {
    AppendUnseenSplits(b.attempts, more);
    NewOnesAreNew(b.attempts, more);
    var added := NewOnes(b.attempts, more);
    var all := b.attempts + added;
    if added != [] {
      assert all[|all| - 1] == added[|added| - 1];
      var kept := PostAttempts(b, more).attempts;
      assert kept[|kept| - 1] == all[|all| - 1];
      assert kept[|kept| - 1] !in b.attempts;
      assert added[0] in added;
    } else {
      assert all == b.attempts;
    }
  }

  /** Posting a receipt reads and writes neither the attempts nor, when nothing is trimmed, the counters. */
  lemma LedgerIgnoresAttempts(c: Snapshot, d: Snapshot, r: Receipt)
    requires TrimReceipts(PostReceipt(c, r)) == c
    requires d == c.(attempts := d.attempts, attemptsTruncated := d.attemptsTruncated,
                     receiptsTruncated := d.receiptsTruncated)
    requires |c.receipts| <= RECEIPT_LIMIT
    requires Bounded(c)
    ensures TrimReceipts(PostReceipt(d, r)) == d
  {
    PostFixedFields(c, r);
  }

  /** If posting changes nothing then it did not append, so it cannot trim either. */
  lemma PostFixedFields(c: Snapshot, r: Receipt)
    requires TrimReceipts(PostReceipt(c, r)) == c && |c.receipts| <= RECEIPT_LIMIT
    ensures PostReceipt(c, r) == c
  {
    if r !in c.receipts {
      var kept := LastN(c.receipts + [r], RECEIPT_LIMIT);
      assert kept[|kept| - 1] == r;
      assert kept != c.receipts;
    }
  }

  lemma ReplayApplied(b: Snapshot, rep: Report)
    requires Bounded(b) && CanonicalReceipt(rep.receipt)
    requires AllAttemptsCanonical(rep.attempts)
    ensures var once := ClampCounters(Apply(b, rep));
            && SameLedger(once, Apply(once, rep))
            && (Apply(once, rep) == once <==> FitsWindow(b.attempts, rep.attempts))
  {
    var c := TrimReceipts(PostReceipt(b, rep.receipt));
    var once := ClampCounters(Apply(b, rep));
    assert once == ClampCounters(PostAttempts(c, rep.attempts)) && c.attempts == b.attempts;
    ApplyBounded(b, rep);
    PostTwice(b, rep.receipt);
    PostReceiptBounded(b, rep.receipt);
    hide PostReceipt, TrimReceipts, PostAttempts, CanonicalReceipt, AllAttemptsCanonical, NewOnes, LastN;
    ClampedLedger(c, rep, once);
    LedgerIgnoresAttempts(c, once, rep.receipt);
    PostAttemptsKeeps(c, rep.attempts);
    PostAttemptsFixed(once, rep.attempts);
  }

  /** What folding attempts in leaves of a snapshot that is then clamped. */
  lemma ClampedLedger(c: Snapshot, rep: Report, once: Snapshot)
    requires once == ClampCounters(PostAttempts(c, rep.attempts))
    ensures once == c.(attempts := once.attempts, attemptsTruncated := once.attemptsTruncated,
                       receiptsTruncated := once.receiptsTruncated)
    ensures once.attempts == PostAttempts(c, rep.attempts).attempts
    ensures forall d: Snapshot :: SameLedger(d, PostAttempts(d, rep.attempts))
  {
  }

  /**
   * Idempotence. Delivering a report a second time leaves every total, the quanta and the receipts as
   * they were, and leaves the whole snapshot as it was exactly when every attempt it lists fitted the
   * window. A document that is no report only clamps the overflow counters, and leaves all as it was exactly
   * when they were within their caps.
   */
  lemma Replay(raw: Value, usage: Value, generation: int)
    ensures var once := Merge(raw, usage, generation);
            var twice := Merge(Encode(once), usage, generation);
            if Present(usage) then
              && SameLedger(once, twice)
              && (twice == once <==>
                  FitsWindow(Normalize(raw).attempts, ReadReport(usage, generation).attempts))
            else twice == ClampCounters(once) && (twice == once <==> CountersInRange(once))
  {
    if Present(usage) {
      ReplayOfReport(raw, usage, generation);
    } else {
      NormalizeTwice(raw);
    }
    hide Normalize, Present, ReadReport, FitsWindow, SameLedger;
  }

  lemma ReplayOfReport(raw: Value, usage: Value, generation: int)
    requires Present(usage)
    ensures var once := Merge(raw, usage, generation);
            var twice := Merge(Encode(once), usage, generation);
            && SameLedger(once, twice)
            && (twice == once <==>
                FitsWindow(Normalize(raw).attempts, ReadReport(usage, generation).attempts))
  {
    var b, rep := Normalize(raw), ReadReport(usage, generation);
    var once := Merge(raw, usage, generation);
    hide *;
    NormalizeBounded(raw);
    ReadReportCanonical(usage, generation);
    MergeUnfolds(raw, usage, generation);
    MergeUnfolds(Encode(once), usage, generation);
    InRangeReadsBack(once);
    ReplayApplied(b, rep);
    TwiceCountersInRange(once, rep);
  }

  lemma InRangeReadsBack(b: Snapshot)
    requires Bounded(b) && CountersInRange(b)
    ensures Normalize(Encode(b)) == b
  {
    SnapshotReadsBack(b);
  }

  lemma TwiceCountersInRange(once: Snapshot, rep: Report)
    requires CountersInRange(once)
    ensures ClampCounters(Apply(once, rep)) == Apply(once, rep)
  {
  }

  // ---------- A report that does not fit ----------

  /** A report of n paid attempts, all different. */
  function ManyAttempts(n: nat): seq<Value> {
    seq(n, i => Dict(map["cost_usd" := Number(i as real)]))
  }

  lemma {:induction false} StampsEach(items: seq<Value>, generation: int)
    requires forall i :: 0 <= i < |items| ==> items[i].Dict?
    ensures var stamped := StampAttempts(items, generation);
            && |stamped| == |items|
            && forall i :: 0 <= i < |items| ==> stamped[i] == SafeAttempt(items[i].entries, generation)
  {
    if items != [] {
      StampsEach(items[1..], generation);
      hide SafeAttempt;
      assert forall i :: 0 < i < |items| ==> items[i] == items[1..][i - 1];
    }
  }

  lemma {:induction false} AllNew(more: seq<Attempt>)
    requires forall i, j :: 0 <= i < j < |more| ==> more[i] != more[j]
    ensures NewOnes([], more) == more
  {
    if more != [] {
      var n := |more| - 1;
      AllNew(more[..n]);
      assert more == more[..n] + [more[n]];
    }
  }

  lemma ManyAreListed(n: nat, generation: int)
    requires n <= 1_000_000_000
    ensures var more := StampAttempts(ManyAttempts(n), generation);
            |more| == n && forall i :: 0 <= i < n ==> more[i].cost == i as real
  {
    var items := ManyAttempts(n);
    StampsEach(items, generation);
    forall i | 0 <= i < n
      ensures SafeAttempt(items[i].entries, generation).cost == i as real
    {
      assert items[i].entries == map["cost_usd" := Number(i as real)];
    }
  }

  lemma FirstIsDropped(more: seq<Attempt>)
    requires |more| > ATTEMPT_LIMIT && forall i :: 0 < i < |more| ==> more[i] != more[0]
    ensures more[0] !in LastN(more, ATTEMPT_LIMIT)
  {
  }

  /** As many different attempts as the window holds fit it; one more does not. */
  lemma ManyFitOrNot(more: seq<Attempt>)
    requires forall i, j :: 0 <= i < j < |more| ==> more[i] != more[j]
    ensures FitsWindow([], more) <==> |more| <= 64
  {
    AllNew(more);
    assert [] + more == more;
    if |more| > ATTEMPT_LIMIT {
      FirstIsDropped(more);
      assert more[0] in more;
    }
    hide NewOnes;
  }

  /** The first delivery of n different attempts keeps them all, so that a second changes nothing, up to n = 64. */
  lemma ReplayOfMany(n: nat, generation: int)
    requires n <= 1_000_000_000
    ensures var usage := Dict(map["incurred_attempts" := List(ManyAttempts(n))]);
            var once := Merge(Null, usage, generation);
            Merge(Encode(once), usage, generation) == once <==> n <= 64
  {
    var items := ManyAttempts(n);
    var usage := Dict(map["incurred_attempts" := List(items)]);
    assert ReadReport(usage, generation).attempts == StampAttempts(items, ClampInt(generation));
    assert Present(usage) && Normalize(Null).attempts == [];
    ManyAreListed(n, ClampInt(generation));
    hide *;
    ManyFitOrNot(StampAttempts(items, ClampInt(generation)));
    ReplayOfReport(Null, usage, generation);
  }

  /** Sixty-five attempts do not fit: the first is gone at once, so a second delivery adds it again. */
  lemma ReplayCanMoveAttempts(generation: int)
    ensures var usage := Dict(map["incurred_attempts" := List(ManyAttempts(65))]);
            var once := Merge(Null, usage, generation);
            Merge(Encode(once), usage, generation) != once
  {
    hide *;
    ReplayOfMany(65, generation);
  }

  // ---------- Order ----------

  function WithoutPlanes(rs: seq<Receipt>): seq<Receipt> {
    seq(|rs|, i requires 0 <= i < |rs| => rs[i].(plane := None))
  }

  /** Equal totals and receipts, the last reported plane of each receipt aside. */
  predicate SameTotals(x: Snapshot, y: Snapshot) {
    && x.cost == y.cost && x.tokens == y.tokens && x.quanta == y.quanta
    && x.lastGeneration == y.lastGeneration && x.receiptsTruncated == y.receiptsTruncated
    && WithoutPlanes(x.receipts) == WithoutPlanes(y.receipts)
  }

  predicate HasReceipt(b: Snapshot, generation: int) {
    FindGeneration(b.receipts, generation) < |b.receipts|
  }

  /** Two raises of the same running total saturate together, in either order. */
  lemma RaisesCommute(t: Option<int>, p: Option<int>, x: Option<int>, q: Option<int>, y: Option<int>)
    requires OptInRange(t)
    ensures RaiseInt(RaiseInt(t, p, x), q, y) == RaiseInt(RaiseInt(t, q, y), p, x)
  {
  }

  /** Two rises of the same receipt add up to the rise to their maximum. */
  lemma RaisesJoin(t: Option<int>, p: Option<int>, x: Option<int>, y: Option<int>)
    requires OptInRange(t) && OptInRange(p) && OptInRange(x) && OptInRange(y)
    ensures RaiseInt(RaiseInt(t, p, MaxOpt(p, x)), MaxOpt(p, x), MaxOpt(MaxOpt(p, x), y))
         == RaiseInt(t, p, MaxOpt(MaxOpt(p, x), y))
    ensures MaxOpt(MaxOpt(p, x), y) == MaxOpt(MaxOpt(p, y), x)
  {
  }

  lemma CostRaisesCommute(t: real, p: real, x: real, q: real, y: real)
    requires 0.0 <= t <= COST_LIMIT
    ensures RaiseCost(RaiseCost(t, p, x), q, y) == RaiseCost(RaiseCost(t, q, y), p, x)
  {
  }

  lemma CostRaisesJoin(t: real, p: real, x: real, y: real)
    requires 0.0 <= t <= COST_LIMIT
    ensures RaiseCost(RaiseCost(t, p, MaxReal(p, x)), MaxReal(p, x), MaxReal(MaxReal(p, x), y))
         == RaiseCost(t, p, MaxReal(MaxReal(p, x), y))
  {
  }

  lemma PostsCommuteApart(b: Snapshot, r: Receipt, s: Receipt)
    requires Bounded(b) && CanonicalReceipt(r) && CanonicalReceipt(s)
    requires HasReceipt(b, r.generation) && HasReceipt(b, s.generation)
    requires r.generation != s.generation
    ensures PostReceipt(PostReceipt(b, r), s) == PostReceipt(PostReceipt(b, s), r)
  {
    var i, j := FindGeneration(b.receipts, r.generation), FindGeneration(b.receipts, s.generation);
    var p, q := b.receipts[i], b.receipts[j];
    var m, n := MaxReceipt(p, r), MaxReceipt(q, s);
    var br, bs := PostReceipt(b, r), PostReceipt(b, s);
    SameGenerationsSameIndex(b.receipts, br.receipts, s.generation);
    SameGenerationsSameIndex(b.receipts, bs.receipts, r.generation);
    assert b.receipts[i := m][j := n] == b.receipts[j := n][i := m];
    CostRaisesCommute(b.cost, p.cost, m.cost, q.cost, n.cost);
    TokenRaisesCommute(b.tokens, p.tokens, m.tokens, q.tokens, n.tokens);
  }

  lemma TokenRaisesCommute(t: Tokens, p: Tokens, x: Tokens, q: Tokens, y: Tokens)
    requires TokensInRange(t)
    ensures RaiseTokens(RaiseTokens(t, p, x), q, y) == RaiseTokens(RaiseTokens(t, q, y), p, x)
  {
    RaisesCommute(t.input, p.input, x.input, q.input, y.input);
    RaisesCommute(t.output, p.output, x.output, q.output, y.output);
    RaisesCommute(t.total, p.total, x.total, q.total, y.total);
  }

  lemma TokenRaisesJoin(t: Tokens, p: Tokens, x: Tokens, y: Tokens)
    requires TokensInRange(t) && TokensInRange(p) && TokensInRange(x) && TokensInRange(y)
    ensures var m := MaxTokens(p, x);
            var n := MaxTokens(m, y);
            RaiseTokens(RaiseTokens(t, p, m), m, n) == RaiseTokens(t, p, n)
    ensures MaxTokens(MaxTokens(p, x), y) == MaxTokens(MaxTokens(p, y), x)
  {
    RaisesJoin(t.input, p.input, x.input, y.input);
    RaisesJoin(t.output, p.output, x.output, y.output);
    RaisesJoin(t.total, p.total, x.total, y.total);
  }

  /** Two reports for one generation amount to one rise, to the larger of the two. */
  lemma PostsJoin(b: Snapshot, r: Receipt, s: Receipt)
    requires Bounded(b) && CanonicalReceipt(r) && CanonicalReceipt(s)
    requires HasReceipt(b, r.generation) && r.generation == s.generation
    ensures var i := FindGeneration(b.receipts, r.generation);
            var p := b.receipts[i];
            var n := MaxReceipt(MaxReceipt(p, r), s);
            PostReceipt(PostReceipt(b, r), s)
            == b.(receipts := b.receipts[i := n], cost := RaiseCost(b.cost, p.cost, n.cost),
                  tokens := RaiseTokens(b.tokens, p.tokens, n.tokens),
                  lastGeneration := MaxInt(b.lastGeneration, r.generation))
  {
    var i := FindGeneration(b.receipts, r.generation);
    var p := b.receipts[i];
    assert p in b.receipts;
    var m := MaxReceipt(p, r);
    var n := MaxReceipt(m, s);
    SameGenerationsSameIndex(b.receipts, PostReceipt(b, r).receipts, s.generation);
    assert b.receipts[i := m][i := n] == b.receipts[i := n];
    CostRaisesJoin(b.cost, p.cost, r.cost, s.cost);
    TokenRaisesJoin(b.tokens, p.tokens, r.tokens, s.tokens);
  }

  lemma PostsCommuteTogether(b: Snapshot, r: Receipt, s: Receipt)
    requires Bounded(b) && CanonicalReceipt(r) && CanonicalReceipt(s)
    requires HasReceipt(b, r.generation) && r.generation == s.generation
    ensures SameTotals(PostReceipt(PostReceipt(b, r), s), PostReceipt(PostReceipt(b, s), r))
  {
    PostsJoin(b, r, s);
    PostsJoin(b, s, r);
    var i := FindGeneration(b.receipts, r.generation);
    var p := b.receipts[i];
    assert p in b.receipts;
    TokenRaisesJoin(b.tokens, p.tokens, r.tokens, s.tokens);
    var x, y := MaxReceipt(MaxReceipt(p, r), s), MaxReceipt(MaxReceipt(p, s), r);
    assert x.(plane := None) == y.(plane := None);
    assert WithoutPlanes(b.receipts[i := x]) == WithoutPlanes(b.receipts[i := y]);
  }

  /** The billed part of a merge whose generation already has a receipt. */
  lemma MergeOntoReceipt(raw: Value, usage: Value, generation: int)
    requires Present(usage) && HasReceipt(Normalize(raw), ClampInt(generation))
    ensures SameLedger(Merge(raw, usage, generation),
                       PostReceipt(Normalize(raw), ReadReport(usage, generation).receipt)
                         .(receiptsTruncated := ClampInt(Normalize(raw).receiptsTruncated)))
  {
    MergeUnfolds(raw, usage, generation);
    NormalizeBounded(raw);
  }

  /** PostReceipt is oblivious of the fields it does not own. */
  lemma PostFrame(x: Snapshot, y: Snapshot, b: Snapshot, r: Receipt)
    requires SameLedger(x, y.(receiptsTruncated := ClampInt(b.receiptsTruncated)))
    ensures SameLedger(PostReceipt(x, r).(receiptsTruncated := ClampInt(x.receiptsTruncated)),
                       PostReceipt(y, r).(receiptsTruncated := ClampInt(b.receiptsTruncated)))
  {
  }

  /** Posting onto a receipt keeps every receipt of another generation findable. */
  lemma KeepsReceipt(b: Snapshot, once: Snapshot, r: Receipt, generation: int)
    requires HasReceipt(b, r.generation) && HasReceipt(b, generation)
    requires SameLedger(once, PostReceipt(b, r).(receiptsTruncated := ClampInt(b.receiptsTruncated)))
    ensures HasReceipt(once, generation)
  {
    SameGenerationsSameIndex(b.receipts, once.receipts, generation);
  }

  lemma SameLedgerTrans(x: Snapshot, y: Snapshot, z: Snapshot)
    requires SameLedger(x, y) && SameLedger(y, z)
    ensures SameLedger(x, z)
  {
  }

  /** Merging onto two recorded generations: the second report meets what the first one left. */
  lemma MergeBoth(raw: Value, usage: Value, generation: int, usage': Value, generation': int)
    requires Present(usage) && HasReceipt(Normalize(raw), ClampInt(generation))
    requires Present(usage') && HasReceipt(Normalize(raw), ClampInt(generation'))
    ensures var b := Normalize(raw);
            var r, s := ReadReport(usage, generation).receipt, ReadReport(usage', generation').receipt;
            SameLedger(Merge(Encode(Merge(raw, usage, generation)), usage', generation'),
                       PostReceipt(PostReceipt(b, r), s).(receiptsTruncated := ClampInt(b.receiptsTruncated)))
  {
    var b := Normalize(raw);
    var r, s := ReadReport(usage, generation).receipt, ReadReport(usage', generation').receipt;
    var once := Merge(raw, usage, generation);
    assert r.generation == ClampInt(generation);
    hide *;
    MergeOntoReceipt(raw, usage, generation);
    MergeUnfolds(raw, usage, generation);
    InRangeReadsBack(once);
    PostFrame(once, PostReceipt(b, r), b, s);
    KeepsReceipt(b, once, r, ClampInt(generation'));
    MergeOntoReceipt(Encode(once), usage', generation');
    SameLedgerTrans(Merge(Encode(once), usage', generation'),
                    PostReceipt(once, s).(receiptsTruncated := ClampInt(once.receiptsTruncated)),
                    PostReceipt(PostReceipt(b, r), s).(receiptsTruncated := ClampInt(b.receiptsTruncated)));
  }

  /**
   * Order independence. Two reports for generations that both hold a receipt give the same totals and
   * the same receipts in either order, saturation included; only the plane label of a receipt that
   * both reports name can depend on which came last.
   */
  lemma ReportsCommute(raw: Value, usage: Value, generation: int, usage': Value, generation': int)
    requires Present(usage) && HasReceipt(Normalize(raw), ClampInt(generation))
    requires Present(usage') && HasReceipt(Normalize(raw), ClampInt(generation'))
    ensures var x := Merge(Encode(Merge(raw, usage, generation)), usage', generation');
            var y := Merge(Encode(Merge(raw, usage', generation')), usage, generation);
            && SameTotals(x, y)
            && (ClampInt(generation) != ClampInt(generation') ==> x.receipts == y.receipts)
  {
    var b := Normalize(raw);
    var r, s := ReadReport(usage, generation).receipt, ReadReport(usage', generation').receipt;
    NormalizeBounded(raw);
    ReadReportCanonical(usage, generation);
    ReadReportCanonical(usage', generation');
    MergeBoth(raw, usage, generation, usage', generation');
    MergeBoth(raw, usage', generation', usage, generation);
    if r.generation != s.generation {
      PostsCommuteApart(b, r, s);
    } else {
      PostsCommuteTogether(b, r, s);
    }
  }
}
