/**
 * What comes out of a request, from the script of its calls and its policy alone: an answer, an error of which class, or a
 * cancellation, and in which order the receipts are listed.
 */
module RecoveryOutcomes {
  import opened Wrappers
  import opened Values
  import opened Usage
  import opened Recovery
  import RecoveryConserves

  // ---------- One plane ----------

  /** The first reply was rejected as no answer, so that the plane is asked again. */
  predicate AskedAgain(first: Outcome, recovery: bool) { recovery && first.Reply? && first.result.nonAnswer }

  predicate IsAnswer(o: Outcome) { o.Reply? && !o.result.nonAnswer }

  predicate PlaneAnswers(first: Outcome, retry: Outcome, recovery: bool) {
    if AskedAgain(first, recovery) then IsAnswer(retry) else first.Reply?
  }

  predicate PlaneFails(first: Outcome, retry: Outcome, recovery: bool) {
    if AskedAgain(first, recovery) then retry.Raise? || (retry.Reply? && retry.result.nonAnswer) else first.Raise?
  }

  function FailureOf(first: Outcome, retry: Outcome): Kind {
    if first.Raise? then first.error.kind else if retry.Raise? then retry.error.kind else OtherKind
  }

  /**
   * A plane delivers when its first reply stands or when the retry is an answer; it fails when a call raises or when the
   * retry is no answer either, with the class of the error that was raised; otherwise it was cancelled. With recovery on,
   * what it delivers is always an answer, and what it was asked once for stands as it came.
   */
  lemma PlaneOutcome(first: Outcome, retry: Outcome, recovery: bool)
    ensures var o := Recovered(first, retry, recovery);
            && (o.Reply? <==> PlaneAnswers(first, retry, recovery))
            && (o.Raise? <==> PlaneFails(first, retry, recovery))
            && (o.Raise? ==> o.error.kind == FailureOf(first, retry))
            && (recovery && o.Reply? ==> !o.result.nonAnswer)
            && (!AskedAgain(first, recovery) ==> o == first)
  {
    hide Combined, WithIncurred, Rejected, SanitizeAll;
    if AskedAgain(first, recovery) && IsAnswer(retry) { CombinedAnswers(first.result, retry.result); }
    WrappingKeepsKind(first, retry);
  }

  lemma CombinedAnswers(initial: Result, retry: Result)
    ensures Combined(initial, retry).nonAnswer == retry.nonAnswer
  {
    hide Summed, Normalized, SanitizeAll, NonNegative, AttemptOf;
  }

  lemma WrappingKeepsKind(first: Outcome, retry: Outcome)
    ensures forall e, earlier :: WithIncurred(e, earlier).kind == e.kind
  {
    hide SanitizeAll;
  }

  // ---------- The whole request ----------

  /** Whether the policy lets an error of this class be followed by another plane or the local model. */
  predicate MayMove(p: Policy, kind: Kind) {
    match kind
    case ValueKind => false
    case BudgetKind => (p.crossPlane || p.localFallback) && (p.autoPlane || p.localFallback)
    case OtherKind => p.crossPlane || p.localFallback
  }

  /** The first plane failed, and the request goes on. */
  predicate MovesOn(p: Policy, s: Script) {
    PlaneFails(s.first, s.firstRetry, p.recovery) && MayMove(p, FailureOf(s.first, s.firstRetry))
  }

  predicate RequestAnswers(p: Policy, s: Script) {
    if !MovesOn(p, s) then PlaneAnswers(s.first, s.firstRetry, p.recovery)
    else match s.choice
      case Offline => s.offline.Reply?
      case OtherPlane => PlaneAnswers(s.second, s.secondRetry, p.recovery)
      case _ => false
  }

  predicate RequestFails(p: Policy, s: Script) {
    if !MovesOn(p, s) then PlaneFails(s.first, s.firstRetry, p.recovery)
    else match s.choice
      case Nowhere => true
      case ChoosingRaises(_) => true
      case ChoosingCancelled => false
      case Offline => s.offline.Raise?
      case OtherPlane => PlaneFails(s.second, s.secondRetry, p.recovery)
  }

  function RequestFailure(p: Policy, s: Script): Kind
    requires RequestFails(p, s)
  {
    if !MovesOn(p, s) || s.choice.Nowhere? then FailureOf(s.first, s.firstRetry)
    else match s.choice
      case ChoosingRaises(e) => e.kind
      case Offline => s.offline.error.kind
      case OtherPlane => FailureOf(s.second, s.secondRetry)
  }

  /** When another plane or the local model is tried at all: the first one failed and the policy allows to move. */
  lemma MovesOnByPolicy(p: Policy, s: Script)
    ensures RecoveryConserves.Continues(p, s) <==> MovesOn(p, s)
  {
    PlaneOutcome(s.first, s.firstRetry, p.recovery);
    hide Recovered, PlaneFails, FailureOf;
  }

  lemma AfterErrorOutcome(e: Error, alternate: Outcome)
    ensures var o := AfterError(e, alternate);
            && (o.Reply? <==> alternate.Reply?) && (o.Raise? <==> alternate.Raise?)
            && (o.Raise? ==> o.error.kind == alternate.error.kind)
            && (o.Reply? ==> o.result.nonAnswer == alternate.result.nonAnswer)
  {
    hide Summed, Normalized, SanitizeAll, NonNegative, Totals, CostSum;
  }

  /**
   * The outcome of a request, from its script alone. A delivered result is an answer whenever recovery is on, unless it
   * comes from the local model, whose text is not judged here.
   */
  lemma RequestOutcome(p: Policy, s: Script)
    ensures var o := Unified(p, s);
            && (o.Reply? <==> RequestAnswers(p, s)) && (o.Raise? <==> RequestFails(p, s))
            && (o.Raise? ==> o.error.kind == RequestFailure(p, s))
            && (o.Reply? && p.recovery && !(MovesOn(p, s) && s.choice.Offline?) ==> !o.result.nonAnswer)
            && (!AskedAgain(s.first, p.recovery) && !s.first.Raise? ==> o == s.first)
  {
    PlaneOutcome(s.first, s.firstRetry, p.recovery);
    PlaneOutcome(s.second, s.secondRetry, p.recovery);
    MovesOnByPolicy(p, s);
    var attempt := Recovered(s.first, s.firstRetry, p.recovery);
    hide Recovered, AfterError, PlaneAnswers, PlaneFails, MayMove, FailureOf;
    if attempt.Raise? {
      AfterErrorOutcome(attempt.error, s.offline);
      AfterErrorOutcome(attempt.error, Recovered(s.second, s.secondRetry, p.recovery));
    }
  }

  /** Two non-answers in a row are an error, not a delivery: with nowhere to go the request fails with it. */
  lemma TwoNonAnswersFail(p: Policy, s: Script)
    requires p.recovery && s.first.Reply? && s.first.result.nonAnswer && s.firstRetry.Reply? && s.firstRetry.result.nonAnswer
    requires !p.crossPlane && !p.localFallback
    ensures Unified(p, s).Raise? && Unified(p, s).error.kind == OtherKind
  {
    RequestOutcome(p, s);
    hide Unified;
  }

  // ---------- The order of the receipts ----------

  lemma {:induction false} SanitizedInOrder(a: seq<Attempt>, b: seq<Attempt>)
    ensures SanitizeAll(a + b) == SanitizeAll(a) + SanitizeAll(b)
  {
    hide Sanitize;
    if b == [] {
      assert a + b == a;
    } else {
      assert (a + b)[..|a + b| - 1] == a + b[..|b| - 1];
      SanitizedInOrder(a, b[..|b| - 1]);
    }
  }

  /** A rejected reply is listed first, under its stage, then what the retry's own error lists. */
  lemma RejectedComesFirst(first: Outcome, retry: Outcome)
    requires AskedAgain(first, true) && retry.Raise?
    ensures Recovered(first, retry, true).error.attempts
         == SanitizeAll([Rejected(first.result, "completion_initial")]) + SanitizeAll(retry.error.attempts)
  {
    SanitizedInOrder([Rejected(first.result, "completion_initial")], retry.error.attempts);
    hide SanitizeAll, Rejected;
  }

  /** Two rejected replies are listed in their order, under their stages. */
  lemma BothRejectedInOrder(first: Outcome, retry: Outcome)
    requires AskedAgain(first, true) && retry.Reply? && retry.result.nonAnswer
    ensures Recovered(first, retry, true).error.attempts
         == SanitizeAll([Rejected(first.result, "completion_initial")])
            + SanitizeAll([Rejected(retry.result, "completion_retry")])
  {
    var initial, last := Rejected(first.result, "completion_initial"), Rejected(retry.result, "completion_retry");
    assert [initial, last] + [] == [initial] + [last];
    SanitizedInOrder([initial], [last]);
    hide SanitizeAll, Rejected;
  }

  /** An answered retry lists its own earlier attempts, then the rejected reply. */
  lemma RetryListsTheRejected(first: Outcome, retry: Outcome)
    requires AskedAgain(first, true) && IsAnswer(retry)
    ensures Earlier(Recovered(first, retry, true).result)
         == SanitizeAll(Earlier(retry.result) + SanitizeAll([Rejected(first.result, "completion_initial")]))
  {
    assert Earlier(WithUsageOf(first.result, retry.result)) == Earlier(retry.result);
    hide SanitizeAll, Rejected, Summed, Normalized, NonNegative;
  }

  /** After a failed plane its receipts come before those of the plane or model that followed. */
  lemma FailureComesFirst(e: Error, alternate: Outcome)
    ensures alternate.Reply? ==>
              Earlier(AfterError(e, alternate).result) == SanitizeAll(SanitizeAll(e.attempts) + Earlier(alternate.result))
    ensures alternate.Raise? && e.attempts != [] ==>
              AfterError(e, alternate).error.attempts == SanitizeAll(e.attempts) + SanitizeAll(alternate.error.attempts)
    ensures alternate.Raise? && e.attempts == [] ==> AfterError(e, alternate) == alternate
  {
    if alternate.Raise? { SanitizedInOrder(e.attempts, alternate.error.attempts); }
    hide SanitizeAll, Summed, Normalized, NonNegative, Totals, CostSum;
  }

  // ---------- What a receipt and a result say ----------

  /** A rejected reply's receipt carries its cost and its counts under its stage. */
  lemma RejectedSays(r: Result, stage: string, f: Field)
    ensures var a := Rejected(r, stage);
            && a.Entry? && a.stage == stage && a.outcome == "rejected_nonanswer" && CostOf(a) == NonNegative(r.cost)
            && TokensOf(a, f) == Count(GetField(Normalized(r), f))
  {
    NonNegativeOfNumber(NonNegative(r.cost));
    hide NonNegative, Normalized, Count;
  }

  /** Sanitizing keeps stage and outcome, and every count that is there. */
  lemma SanitizingKeepsLabels(a: Attempt, f: Field)
    requires a.Entry?
    ensures var b := Sanitize(a);
            && b.Entry? && b.stage == a.stage && b.outcome == a.outcome && CostOf(b) == CostOf(a)
            && (f in b.tokens <==> f in a.tokens && a.tokens[f] != Null) && TokensOf(b, f) == TokensOf(a, f)
  {
    SanitizedAttempt(a, f);
    hide CostOf, TokensOf;
  }

  /** A count of a result is its own if it has one, else the nested one; a total that stands nowhere is the sum. */
  lemma CountsOfResult(r: Result, f: Field)
    ensures var n := Normalized(r);
            if f in r.tokens then f in n && Count(n[f]) == Count(r.tokens[f])
            else if f in r.nested then f in n && Count(n[f]) == Count(r.nested[f])
            else if f == Total && (Holds(r, Input) || Holds(r, Output))
            then f in n && Count(n[f]) == Count(GetField(n, Input)) + Count(GetField(n, Output))
            else f !in n
  {
    assert Input in FIELDS && Output in FIELDS && Total in FIELDS;
    if f in r.tokens { CountOfTokens(Count(r.tokens[f])); }
    if f in r.nested { CountOfTokens(Count(r.nested[f])); }
    CountOfTokens(Count(GetField(Normalized(r), Input)) + Count(GetField(Normalized(r), Output)));
    hide Tokens, Count;
  }

  predicate Holds(r: Result, f: Field) { f in r.tokens || f in r.nested }

  /** Amounts are read leniently: never negative, and nothing where there is no number. */
  lemma AmountsRead(x: real, n: int, flag: bool)
    ensures NonNegative(Number(x)) == if x < 0.0 then 0.0 else x
    ensures NonNegative(Null) == NonNegative(NonFinite) == NonNegative(HugeInt(n)) == 0.0
    ensures NonNegative(Bool(flag)) == if flag then 1.0 else 0.0
    ensures Count(Number(n as real)) == if n < 0 then 0 else n
    ensures Count(Null) == Count(NonFinite) == 0 && Count(Bool(flag)) == if flag then 1 else 0
    ensures x >= 0.0 ==> Count(Number(x)) as real <= x < Count(Number(x)) as real + 1.0
  {
  }
}
