/** What a request reports against what its calls billed, in cost and in every token count. */
module RecoveryConserves {
  import opened Wrappers
  import opened Values
  import opened Usage
  import opened Recovery

  datatype Unit = Dollars | TokensFor(field: Field)

  function Sum(attempts: seq<Attempt>, u: Unit): real {
    if u.Dollars? then CostSum(attempts) else TokenSum(attempts, u.field) as real
  }

  function Amount(r: Result, u: Unit): real {
    if u.Dollars? then NonNegative(r.cost) else Count(GetField(Normalized(r), u.field)) as real
  }

  /** What one call billed: what its reply says, or the receipts that its error carries. */
  function Billed(o: Outcome, u: Unit): real {
    match o
    case Reply(r) => Amount(r, u)
    case Raise(e) => Sum(e.attempts, u)
    case Cancelled => 0.0
  }

  predicate Retries(first: Outcome, recovery: bool) { first.Reply? && recovery && first.result.nonAnswer }

  function PlaneBilled(first: Outcome, second: Outcome, recovery: bool, u: Unit): real {
    Billed(first, u) + if Retries(first, recovery) then Billed(second, u) else 0.0
  }

  predicate Continues(p: Policy, s: Script) {
    var attempt := Recovered(s.first, s.firstRetry, p.recovery);
    attempt.Raise? && !GivesUp(p, attempt.error)
  }

  /** What all calls that the request makes billed, each once. */
  function TotalBilled(p: Policy, s: Script, u: Unit): real {
    PlaneBilled(s.first, s.firstRetry, p.recovery, u)
    + if !Continues(p, s) then 0.0
      else if s.choice.OtherPlane? then PlaneBilled(s.second, s.secondRetry, p.recovery, u)
      else if s.choice.Offline? then Billed(s.offline, u)
      else if s.choice.ChoosingRaises? then Sum(s.choice.error.attempts, u)
      else 0.0
  }

  // ---------- Tidy receipts ----------

  /** A receipt that reports input or output tokens reports a total, as every receipt of a result does. */
  predicate Tidy(a: Attempt) { Reported(a, Input) || Reported(a, Output) ==> Reported(a, Total) }

  predicate AllTidy(attempts: seq<Attempt>) { forall i :: 0 <= i < |attempts| ==> Tidy(attempts[i]) }

  predicate TidyOutcome(o: Outcome) { o.Raise? ==> AllTidy(o.error.attempts) }

  predicate TidyScript(s: Script) {
    TidyOutcome(s.first) && TidyOutcome(s.firstRetry) && TidyOutcome(s.second) && TidyOutcome(s.secondRetry)
  }

  lemma {:induction false} SanitizedStaysTidy(attempts: seq<Attempt>)
    requires AllTidy(attempts)
    ensures AllTidy(SanitizeAll(attempts))
    ensures forall i, f :: 0 <= i < |SanitizeAll(attempts)| ==>
              SanitizeAll(attempts)[i].Entry?
              && (Mentions(SanitizeAll(attempts)[i], f) <==> Reported(SanitizeAll(attempts)[i], f))
  {
    if attempts != [] {
      var last := attempts[|attempts| - 1];
      SanitizedStaysTidy(attempts[..|attempts| - 1]);
      if last.Entry? {
        forall f: Field { SanitizedAttempt(last, f); }
        assert Tidy(Sanitize(last));
      }
      hide Sanitize;
    }
  }

  lemma RejectedIsTidy(r: Result, stage: string)
    ensures Tidy(Rejected(r, stage))
  {
  }

  lemma RecoveredIsTidy(first: Outcome, second: Outcome, recovery: bool)
    requires TidyOutcome(first) && TidyOutcome(second)
    ensures TidyOutcome(Recovered(first, second, recovery))
  {
    if Retries(first, recovery) {
      var initial := Rejected(first.result, "completion_initial");
      RejectedIsTidy(first.result, "completion_initial");
      if second.Raise? {
        SanitizedStaysTidy([initial] + second.error.attempts);
      } else if second.Reply? && second.result.nonAnswer {
        var last := Rejected(second.result, "completion_retry");
        RejectedIsTidy(second.result, "completion_retry");
        SanitizedStaysTidy([initial, last] + []);
      }
    }
    hide Sanitize, SanitizeAll, Combined, Rejected, Tidy;
  }

  // ---------- Token counts of a result ----------

  predicate Closed(tokens: map<Field, Value>) { Input in tokens || Output in tokens ==> Total in tokens }

  function SummedOne(rest: map<Field, Value>, own: map<Field, Value>, other: map<Field, Value>, f: Field)
    : map<Field, Value>
  {
    if f in own || f in other then rest[f := Tokens(Count(GetField(own, f)) + Count(GetField(other, f)))] else rest
  }

  /** The loop over the three fields, unrolled. */
  lemma SummedUnrolls(tokens: map<Field, Value>, own: map<Field, Value>, other: map<Field, Value>)
    ensures Summed(tokens, own, other, FIELDS)
         == SummedOne(SummedOne(SummedOne(tokens, own, other, Input), own, other, Output), own, other, Total)
  {
    hide Tokens, Count, GetField;
    assert Summed(tokens, own, other, []) == tokens;
    assert [Input][..0] == [] && [Input, Output][..1] == [Input] && FIELDS[..2] == [Input, Output];
    assert Summed(tokens, own, other, [Input]) == SummedOne(tokens, own, other, Input);
    assert Summed(tokens, own, other, [Input, Output])
        == SummedOne(SummedOne(tokens, own, other, Input), own, other, Output);
  }

  lemma SummedAt(tokens: map<Field, Value>, own: map<Field, Value>, other: map<Field, Value>, f: Field)
    ensures var all := Summed(tokens, own, other, FIELDS);
            if f in own || f in other
            then f in all && all[f] == Tokens(Count(GetField(own, f)) + Count(GetField(other, f)))
            else (f in all <==> f in tokens) && (f in tokens ==> all[f] == tokens[f])
  {
    SummedUnrolls(tokens, own, other);
    hide Tokens, Count, GetField, Summed;
  }

  predicate Holds(r: Result, f: Field) { f in r.tokens || f in r.nested }

  lemma NormalizedAt(r: Result, f: Field)
    ensures Closed(Normalized(r))
    ensures f in r.tokens ==> f in Normalized(r) && Normalized(r)[f] == Tokens(Count(r.tokens[f]))
    ensures !Holds(r, f) && (f == Total ==> !Holds(r, Input) && !Holds(r, Output)) ==> f !in Normalized(r)
    ensures f in r.nested ==> f in Normalized(r)
  {
    assert Input in FIELDS && Output in FIELDS && Total in FIELDS;
    hide Tokens, Count;
  }

  /** A field that neither side has is not derived from the sums either. */
  lemma NothingToSum(r: Result, other: map<Field, Value>, f: Field)
    requires (f == Total ==> Closed(other)) && f !in Normalized(r) && f !in other
    ensures f !in Normalized(r.(tokens := Summed(r.tokens, Normalized(r), other, FIELDS)))
  {
    var own := Normalized(r);
    var all := r.(tokens := Summed(r.tokens, own, other, FIELDS));
    NormalizedAt(r, f);
    NormalizedAt(all, f);
    SummedAt(r.tokens, own, other, f);
    NormalizedAt(r, Input);
    NormalizedAt(r, Output);
    SummedAt(r.tokens, own, other, Input);
    SummedAt(r.tokens, own, other, Output);
    hide Normalized, Summed, Tokens, Count, GetField;
  }

  /** Setting fields to sums with another side adds that side's counts. */
  lemma SummedTokens(r: Result, other: map<Field, Value>, f: Field)
    requires f == Total ==> Closed(other)
    ensures var all := r.(tokens := Summed(r.tokens, Normalized(r), other, FIELDS));
            Count(GetField(Normalized(all), f)) == Count(GetField(Normalized(r), f)) + Count(GetField(other, f))
  {
    hide Normalized, Summed, Tokens, Closed;
    var own := Normalized(r);
    var all := r.(tokens := Summed(r.tokens, own, other, FIELDS));
    NormalizedAt(all, f);
    SummedAt(r.tokens, own, other, f);
    assert Count(Null) == 0;
    var n := Count(GetField(own, f)) + Count(GetField(other, f));
    CountOfTokens(n);
    hide Count;
    if f !in own && f !in other {
      NothingToSum(r, other, f);
    }
  }

  lemma {:induction false} UnreportedSum(attempts: seq<Attempt>, f: Field)
    requires forall i :: 0 <= i < |attempts| ==> !Mentions(attempts[i], f)
    ensures TokenSum(attempts, f) == 0
  {
    if attempts != [] { UnreportedSum(attempts[..|attempts| - 1], f); }
  }

  lemma TotalsAt(attempts: seq<Attempt>, f: Field)
    ensures Count(GetField(Totals(attempts), f)) == TokenSum(attempts, f)
  {
    SumsAreNonNegative(attempts, f);
    CountOfTokens(TokenSum(attempts, f));
    assert Count(Null) == 0;
    if !Reports(attempts, f) { UnreportedSum(attempts, f); }
    assert Input in FIELDS && Output in FIELDS && Total in FIELDS && f in FIELDS;
    hide Tokens, Count, TokenSum, Reports;
  }

  lemma TotalsAreClosed(attempts: seq<Attempt>)
    requires AllTidy(attempts)
    requires forall i, g :: 0 <= i < |attempts| ==> (Mentions(attempts[i], g) <==> Reported(attempts[i], g))
    ensures Closed(Totals(attempts))
  {
    forall g | g == Input || g == Output ensures Reports(attempts, g) ==> Reports(attempts, Total) {
      if Reports(attempts, g) {
        var a :| a in attempts && Mentions(a, g);
        assert Tidy(a) && Mentions(a, Total);
      }
    }
    assert Input in FIELDS && Output in FIELDS && Total in FIELDS;
    hide Tokens, TokenSum, Reports;
  }

  // ---------- Conservation ----------

  lemma SumAppends(a: seq<Attempt>, b: seq<Attempt>, u: Unit)
    ensures Sum(a + b, u) == Sum(a, u) + Sum(b, u)
  {
    CostSumAppends(a, b);
    if u.TokensFor? { TokenSumAppends(a, b, u.field); }
  }

  lemma SanitizingKeepsSum(attempts: seq<Attempt>, u: Unit)
    ensures Sum(SanitizeAll(attempts), u) == Sum(attempts, u) >= 0.0
  {
    var f := if u.TokensFor? then u.field else Input;
    SanitizingKeepsSums(attempts, f);
    SumsAreNonNegative(attempts, f);
  }

  lemma BilledIsNonNegative(o: Outcome, u: Unit)
    ensures Billed(o, u) >= 0.0
  {
    if o.Raise? { SanitizingKeepsSum(o.error.attempts, u); }
  }

  lemma WrappingKeepsSums(e: Error, earlier: seq<Attempt>, u: Unit)
    ensures Sum(WithIncurred(e, earlier).attempts, u) == Sum(earlier, u) + Sum(e.attempts, u)
  {
    SanitizingKeepsSum(earlier + e.attempts, u);
    SumAppends(earlier, e.attempts, u);
  }

  lemma RejectedAmount(r: Result, stage: string, u: Unit)
    ensures Sum([Rejected(r, stage)], u) == Amount(r, u)
  {
    NonNegativeOfNumber(NonNegative(r.cost));
    SumOfOneMore([], Rejected(r, stage), if u.TokensFor? then u.field else Input);
    assert [] + [Rejected(r, stage)] == [Rejected(r, stage)];
    hide Normalized, Count;
  }

  lemma AttachingKeepsAmounts(r: Result, attempts: seq<Attempt>, u: Unit)
    ensures Amount(Attached(r, attempts), u) == Amount(r, u)
  {
    hide SanitizeAll;
  }

  lemma UsageAmount(initial: Result, retry: Result, u: Unit)
    ensures Amount(WithUsageOf(initial, retry), u) == Amount(initial, u) + Amount(retry, u)
  {
    var summed := WithUsageOf(initial, retry);
    if u.Dollars? {
      NonNegativeOfNumber(NonNegative(initial.cost) + NonNegative(retry.cost));
    } else {
      NormalizedAt(initial, Total);
      SummedTokens(retry, Normalized(initial), u.field);
      CostLeavesTokens(retry, summed, u.field);
    }
    hide Summed, Normalized, Count, NonNegative;
  }

  lemma CombinedAmount(initial: Result, retry: Result, u: Unit)
    ensures Amount(Combined(initial, retry), u) == Amount(initial, u) + Amount(retry, u)
  {
    hide Attached, WithUsageOf, Rejected, Amount;
    AttachingKeepsAmounts(WithUsageOf(initial, retry), [Rejected(initial, "completion_initial")], u);
    UsageAmount(initial, retry, u);
  }

  /** Token counts do not depend on the cost or the earlier attempts of a result. */
  lemma CostLeavesTokens(r: Result, changed: Result, f: Field)
    requires changed.nested == r.nested
    ensures Normalized(r.(tokens := changed.tokens)) == Normalized(changed)
  {
  }

  lemma MergedAmount(r: Result, attempts: seq<Attempt>, u: Unit)
    requires u == TokensFor(Total) ==> AllTidy(attempts)
    ensures Amount(Merged(r, attempts, true), u) == Amount(r, u) + Sum(attempts, u)
  {
    var safe := SanitizeAll(attempts);
    var merged := Merged(r, attempts, true);
    SanitizingKeepsSum(attempts, u);
    if u.Dollars? {
      NonNegativeOfNumber(NonNegative(r.cost) + CostSum(safe));
    } else {
      if u.field == Total {
        SanitizedStaysTidy(attempts);
        TotalsAreClosed(safe);
      }
      TotalsAt(safe, u.field);
      assert merged.tokens == Summed(r.tokens, Normalized(r), Totals(safe), FIELDS) && merged.nested == r.nested;
      hide Merged;
      SummedTokens(r, Totals(safe), u.field);
      CostLeavesTokens(r, merged, u.field);
    }
    hide Summed, Normalized, Count, NonNegative, Totals, SanitizeAll, TokenSum, CostSum;
  }

  /** A retry that is cancelled escapes the handler that would keep the first reply's receipt. */
  predicate RetryCancelled(first: Outcome, second: Outcome, recovery: bool) {
    Retries(first, recovery) && second.Cancelled?
  }

  lemma RejectedTwice(first: Result, retry: Result, u: Unit)
    ensures var attempts := [Rejected(first, "completion_initial"), Rejected(retry, "completion_retry")];
            Sum(WithIncurred(FAILED, attempts).attempts, u) == Amount(first, u) + Amount(retry, u)
  {
    var initial, last := Rejected(first, "completion_initial"), Rejected(retry, "completion_retry");
    assert Sum([], u) == 0.0;
    assert [initial, last] == [initial] + [last];
    hide Sum, Amount, Rejected, WithIncurred;
    RejectedAmount(first, "completion_initial", u);
    RejectedAmount(retry, "completion_retry", u);
    SumAppends([initial], [last], u);
    WrappingKeepsSums(FAILED, [initial, last], u);
  }

  /**
   * One plane reports exactly what its calls billed unless its retry is cancelled after a first reply that
   * billed something.
   */
  lemma PlaneConserves(first: Outcome, second: Outcome, recovery: bool, u: Unit)
    ensures Billed(Recovered(first, second, recovery), u) == PlaneBilled(first, second, recovery, u)
            <==> !(RetryCancelled(first, second, recovery) && Billed(first, u) > 0.0)
  {
    BilledIsNonNegative(first, u);
    hide Sum, Amount, Rejected, Combined, WithIncurred;
    if Retries(first, recovery) {
      match second {
        case Raise(e) =>
          RejectedAmount(first.result, "completion_initial", u);
          WrappingKeepsSums(e, [Rejected(first.result, "completion_initial")], u);
        case Cancelled =>
        case Reply(retry) =>
          if retry.nonAnswer {
            RejectedTwice(first.result, retry, u);
          } else {
            CombinedAmount(first.result, retry, u);
          }
      }
    }
  }

  lemma AfterErrorConserves(e: Error, alternate: Outcome, u: Unit)
    requires u == TokensFor(Total) ==> AllTidy(e.attempts)
    ensures Billed(AfterError(e, alternate), u)
            == if alternate.Cancelled? then 0.0 else Sum(e.attempts, u) + Billed(alternate, u)
  {
    match alternate {
      case Raise(e') =>
        WrappingKeepsSums(e', e.attempts, u);
        assert Sum([], u) == 0.0;
      case Cancelled =>
      case Reply(r) => MergedAmount(r, e.attempts, u);
    }
    hide Sum, Amount, Merged, WithIncurred;
  }

  /** What the first plane billed is lost when the way on is cancelled, or when choosing it raises. */
  predicate Interrupted(p: Policy, s: Script) {
    || RetryCancelled(s.first, s.firstRetry, p.recovery)
    || (Continues(p, s) && (
         || s.choice.ChoosingRaises? || s.choice.ChoosingCancelled?
         || (s.choice.Offline? && s.offline.Cancelled?)
         || (s.choice.OtherPlane? && (s.second.Cancelled? || RetryCancelled(s.second, s.secondRetry, p.recovery)))))
  }

  /** What had been billed before the point of an interruption. */
  function BilledBefore(p: Policy, s: Script, u: Unit): real {
    PlaneBilled(s.first, s.firstRetry, p.recovery, u)
    + if Continues(p, s) && s.choice.OtherPlane? then Billed(s.second, u) else 0.0
  }

  /**
   * Conservation through recovery: what the request reports, in its result or in the receipts of its error,
   * is the sum of what its calls billed, each once. It fails exactly when an interruption arrives after
   * something had been billed.
   */
  lemma RequestConserves(p: Policy, s: Script, u: Unit)
    requires u == TokensFor(Total) ==> TidyScript(s)
    ensures Billed(Unified(p, s), u) == TotalBilled(p, s, u) <==> !(Interrupted(p, s) && BilledBefore(p, s, u) > 0.0)
  {
    var attempt := Recovered(s.first, s.firstRetry, p.recovery);
    PlaneConserves(s.first, s.firstRetry, p.recovery, u);
    BilledIsNonNegative(s.first, u);
    BilledIsNonNegative(s.firstRetry, u);
    BilledIsNonNegative(s.second, u);
    if u == TokensFor(Total) { RecoveredIsTidy(s.first, s.firstRetry, p.recovery); }
    if Continues(p, s) {
      PlaneConserves(s.second, s.secondRetry, p.recovery, u);
      if s.choice.Offline? {
        AfterErrorConserves(attempt.error, s.offline, u);
      } else if s.choice.OtherPlane? {
        AfterErrorConserves(attempt.error, Recovered(s.second, s.secondRetry, p.recovery), u);
      }
    }
    hide WithIncurred, Combined, AfterError, Sum, Amount, Rejected, AllTidy;
  }

  /** The exception is real: a cancelled retry reports nothing of the dollar that the first answer cost. */
  lemma CancelledRetryLosesTheFirstReply(p: Policy, s: Script)
    requires p.recovery && s.firstRetry == Cancelled
    requires s.first == Reply(Result(Number(1.0), map[], map[], None, true))
    ensures Unified(p, s) == Cancelled && TotalBilled(p, s, Dollars) == 1.0
  {
    assert NonNegative(Number(1.0)) == 1.0;
    hide NonNegative;
  }

  // ---------- The reported attempts ----------

  /** The earlier attempts listed in a result explain no more than its amount. */
  predicate Covered(o: Outcome, u: Unit) { o.Reply? ==> Sum(Earlier(o.result), u) <= Amount(o.result, u) }

  predicate CoveredScript(s: Script, u: Unit) {
    && Covered(s.first, u) && Covered(s.firstRetry, u) && Covered(s.second, u) && Covered(s.secondRetry, u)
    && Covered(s.offline, u)
  }

  lemma ListedSums(listed: seq<Attempt>, more: seq<Attempt>, u: Unit)
    ensures Sum(SanitizeAll(SanitizeAll(listed) + SanitizeAll(more)), u) == Sum(listed, u) + Sum(more, u)
  {
    SanitizingKeepsSum(SanitizeAll(listed) + SanitizeAll(more), u);
    SumAppends(SanitizeAll(listed), SanitizeAll(more), u);
    SanitizingKeepsSum(listed, u);
    SanitizingKeepsSum(more, u);
  }

  lemma AttachingListsSums(r: Result, attempts: seq<Attempt>, u: Unit)
    ensures Sum(Earlier(Attached(r, attempts)), u) == Sum(Earlier(r), u) + Sum(attempts, u)
  {
    ListedSums(r.prior.GetOr([]), attempts, u);
    SanitizingKeepsSum(r.prior.GetOr([]), u);
    SanitizingKeepsSum(attempts, u);
    assert Earlier(r) + SanitizeAll(attempts) == [] ==> Earlier(r) == [] && SanitizeAll(attempts) == [];
    hide SanitizeAll, Sum;
  }

  lemma CombinedIsCovered(initial: Result, retry: Result, u: Unit)
    requires Sum(Earlier(retry), u) <= Amount(retry, u)
    ensures Sum(Earlier(Combined(initial, retry)), u) <= Amount(Combined(initial, retry), u)
  {
    assert Earlier(WithUsageOf(initial, retry)) == Earlier(retry);
    hide Attached, WithUsageOf, Rejected, Amount, Sum, Earlier;
    AttachingListsSums(WithUsageOf(initial, retry), [Rejected(initial, "completion_initial")], u);
    RejectedAmount(initial, "completion_initial", u);
    CombinedAmount(initial, retry, u);
  }

  lemma RecoveredIsCovered(first: Outcome, second: Outcome, recovery: bool, u: Unit)
    requires Covered(first, u) && Covered(second, u)
    ensures Covered(Recovered(first, second, recovery), u)
  {
    hide Combined, WithIncurred, Rejected, Amount, Sum, Earlier;
    if Retries(first, recovery) && second.Reply? && !second.result.nonAnswer {
      CombinedIsCovered(first.result, second.result, u);
    }
  }

  lemma MergedIsCovered(e: Error, alternate: Outcome, u: Unit)
    requires Covered(alternate, u) && (u == TokensFor(Total) ==> AllTidy(e.attempts))
    ensures Covered(AfterError(e, alternate), u)
  {
    if alternate.Reply? {
      var r := alternate.result;
      ListedSums(e.attempts, r.prior.GetOr([]), u);
      SanitizingKeepsSum(r.prior.GetOr([]), u);
      MergedAmount(r, e.attempts, u);
      assert Merged(r, e.attempts, true).prior == Some(SanitizeAll(e.attempts) + Earlier(r));
    }
    hide Merged, SanitizeAll, Sum, Amount;
  }

  lemma UnifiedIsCovered(p: Policy, s: Script, u: Unit)
    requires CoveredScript(s, u) && (u == TokensFor(Total) ==> TidyScript(s))
    ensures Covered(Unified(p, s), u)
  {
    hide AfterError, Recovered, Covered, AllTidy;
    var attempt := Recovered(s.first, s.firstRetry, p.recovery);
    RecoveredIsCovered(s.first, s.firstRetry, p.recovery, u);
    RecoveredIsCovered(s.second, s.secondRetry, p.recovery, u);
    ErrorIsCovered(u);
    if attempt.Raise? {
      if u == TokensFor(Total) { RecoveredIsTidy(s.first, s.firstRetry, p.recovery); }
      MergedIsCovered(attempt.error, s.offline, u);
      MergedIsCovered(attempt.error, Recovered(s.second, s.secondRetry, p.recovery), u);
    }
  }

  lemma ErrorIsCovered(u: Unit)
    ensures Covered(Cancelled, u) && forall e :: Covered(Raise(e), u)
  {
  }

  lemma AttemptsSum(r: Result, stage: string, outcome: string, u: Unit)
    ensures Sum(AttemptsOf(r, stage, outcome), u) == MaxReal(Amount(r, u), Sum(Earlier(r), u))
  {
    AttemptsSumToTheLarger(r, stage, outcome, if u.TokensFor? then u.field else Input);
    hide AttemptsOf, Earlier, Normalized, NonNegative, Count;
  }

  /** A request that delivers a result was not interrupted. */
  lemma DeliveredMeansUninterrupted(p: Policy, s: Script)
    requires Unified(p, s).Reply?
    ensures !Interrupted(p, s)
  {
    hide WithIncurred, Combined, Merged, Rejected;
  }

  /**
   * The attempts that a delivered result is finally split into, its earlier ones and the remainder, sum to
   * exactly what the calls of the request billed, in cost and in every token count.
   */
  lemma DeliveredAttemptsSumToTheBill(p: Policy, s: Script, stage: string, outcome: string, u: Unit)
    requires CoveredScript(s, u) && (u == TokensFor(Total) ==> TidyScript(s))
    requires Unified(p, s).Reply?
    ensures Sum(AttemptsOf(Unified(p, s).result, stage, outcome), u) == TotalBilled(p, s, u)
  {
    UnifiedIsCovered(p, s, u);
    RequestConserves(p, s, u);
    DeliveredMeansUninterrupted(p, s);
    AttemptsSum(Unified(p, s).result, stage, outcome, u);
    hide Unified, TotalBilled, Sum, Amount, Earlier, AttemptsOf, Interrupted;
  }
}
