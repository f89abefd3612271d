/**
 * How a request recovers: a retry after a non-answer, then another plane or the local model after an error.
 * Outcomes of the calls are given as a script; what the request reports must add up to what they billed.
 */
module Recovery {
  import opened Wrappers
  import opened Values
  import opened Usage

  datatype Kind = ValueKind | BudgetKind | OtherKind

  /** The class of the original error, and the receipts its wrapper carries (none for a bare error). */
  datatype Error = Error(kind: Kind, attempts: seq<Attempt>)

  datatype Outcome = Reply(result: Result) | Raise(error: Error) | Cancelled

  const FAILED := Error(OtherKind, [])

  /** Wraps an error together with earlier receipts. */
  function WithIncurred(e: Error, earlier: seq<Attempt>): Error {
    Error(e.kind, SanitizeAll(earlier + e.attempts))
  }

  // ---------- Merging receipts into a result ----------

  function Attached(r: Result, attempts: seq<Attempt>): Result {
    var all := Earlier(r) + SanitizeAll(attempts);
    if all == [] then r else r.(prior := Some(all))
  }

  predicate Reports(attempts: seq<Attempt>, f: Field) { exists a :: a in attempts && Mentions(a, f) }

  /** The token totals of some attempts, for the fields that any of them reports. */
  function Totals(attempts: seq<Attempt>): map<Field, Value> {
    map f | f in FIELDS && Reports(attempts, f) :: Tokens(TokenSum(attempts, f))
  }

  /** Sets each listed field that either side has to the sum of both sides. */
  function Summed(tokens: map<Field, Value>, own: map<Field, Value>, other: map<Field, Value>, fields: seq<Field>)
    : map<Field, Value>
  {
    if fields == [] then tokens
    else
      var rest := Summed(tokens, own, other, fields[..|fields| - 1]);
      var f := fields[|fields| - 1];
      if f in own || f in other
      then rest[f := Tokens(Count(GetField(own, f)) + Count(GetField(other, f)))]
      else rest
  }

  /** Adds the receipts of failed attempts to a result, in front of its earlier attempts or behind them. */
  function Merged(r: Result, attempts: seq<Attempt>, prepend: bool): Result {
    var safe := SanitizeAll(attempts);
    var merged := r.(cost := Number(NonNegative(r.cost) + CostSum(safe)),
                     tokens := Summed(r.tokens, Normalized(r), Totals(safe), FIELDS));
    if prepend then merged.(prior := Some(safe + Earlier(r))) else Attached(merged, safe)
  }

  /** The retry's result once the first answer, rejected as no answer, is added to it. */
  function Combined(initial: Result, retry: Result): Result {
    Attached(WithUsageOf(initial, retry), [Rejected(initial, "completion_initial")])
  }

  function WithUsageOf(initial: Result, retry: Result): Result {
    retry.(tokens := Summed(retry.tokens, Normalized(retry), Normalized(initial), FIELDS),
           cost := Number(NonNegative(initial.cost) + NonNegative(retry.cost)))
  }

  function Rejected(r: Result, stage: string): Attempt { AttemptOf(r, stage, "rejected_nonanswer") }

  /** A result as the dictionary that the accounting updates in place. */
  class ResultDict {
    var cost: Value
    var tokens: map<Field, Value>
    var nested: map<Field, Value>
    var prior: Option<seq<Attempt>>
    const nonAnswer: bool

    function View(): Result
      reads this
    {
      Result(cost, tokens, nested, prior, nonAnswer)
    }

    constructor (r: Result)
      ensures View() == r
    {
      cost, tokens, nested, prior, nonAnswer := r.cost, r.tokens, r.nested, r.prior, r.nonAnswer;
    }

    method AttachIncurred(attempts: seq<Attempt>)
      modifies this
      ensures View() == Attached(old(View()), attempts)
    {
      var existing := SanitizeAll(prior.GetOr([]));
      var added := SanitizeAll(attempts);
      if existing != [] || added != [] {
        prior := Some(existing + added);
      }
    }

    /** Adds another side's token counts field by field. */
    method AddTokens(own: map<Field, Value>, other: map<Field, Value>)
      modifies this`tokens
      ensures tokens == Summed(old(tokens), own, other, FIELDS)
    {
      var i := 0;
      while i < |FIELDS|
        invariant 0 <= i <= |FIELDS|
        invariant tokens == Summed(old(tokens), own, other, FIELDS[..i])
      {
        var f := FIELDS[i];
        assert FIELDS[..i + 1][..i] == FIELDS[..i];
        if f in own || f in other {
          tokens := tokens[f := Tokens(Count(GetField(own, f)) + Count(GetField(other, f)))];
        }
        i := i + 1;
      }
      assert FIELDS[..i] == FIELDS;
    }

    method MergeIncurred(attempts: seq<Attempt>, prepend: bool)
      modifies this
      ensures View() == Merged(old(View()), attempts, prepend)
    {
      hide Summed, Totals, Normalized, SanitizeAll;
      var safe := SanitizeAll(attempts);
      var own := Normalized(View());
      cost := Number(NonNegative(cost) + CostSum(safe));
      AddTokens(own, Totals(safe));
      if prepend {
        prior := Some(safe + SanitizeAll(prior.GetOr([])));
      } else {
        AttachIncurred(safe);
      }
    }
  }

  // ---------- One plane ----------

  /** What a call and its retry amount to; recovery is off for bounded internal votes. */
  function Recovered(first: Outcome, second: Outcome, recovery: bool): Outcome {
    if !first.Reply? || !recovery || !first.result.nonAnswer then first
    else
      var initial := Rejected(first.result, "completion_initial");
      match second
      case Raise(e) => Raise(WithIncurred(e, [initial]))
      case Cancelled => Cancelled
      case Reply(retry) =>
        if retry.nonAnswer
        then Raise(WithIncurred(FAILED, [initial, Rejected(retry, "completion_retry")]))
        else Reply(Combined(first.result, retry))
  }

  method CallWithRecovery(first: Outcome, second: Outcome, recovery: bool) returns (outcome: Outcome)
    ensures outcome == Recovered(first, second, recovery)
  {
    hide Summed, Normalized, SanitizeAll, AttemptOf, WithIncurred, NonNegative, Attached;
    if !first.Reply? { return first; }
    var initial := first.result;
    if !recovery || !initial.nonAnswer { return first; }
    var initialAttempt := Rejected(initial, "completion_initial");
    if second.Raise? { return Raise(WithIncurred(second.error, [initialAttempt])); }
    if second.Cancelled? { return Cancelled; }
    var retry := second.result;
    if retry.nonAnswer {
      return Raise(WithIncurred(FAILED, [initialAttempt, Rejected(retry, "completion_retry")]));
    }
    var dict := new ResultDict(retry);
    dict.AddTokens(Normalized(retry), Normalized(initial));
    dict.cost := Number(NonNegative(initial.cost) + NonNegative(retry.cost));
    assert dict.View() == WithUsageOf(initial, retry);
    dict.AttachIncurred([initialAttempt]);
    return Reply(dict.View());
  }

  // ---------- The whole request ----------

  /** What the chooser of another plane does. */
  datatype Choice = Nowhere | OtherPlane | Offline | ChoosingRaises(error: Error) | ChoosingCancelled

  datatype Policy = Policy(recovery: bool, crossPlane: bool, localFallback: bool, autoPlane: bool)

  datatype Script = Script(
    first: Outcome, firstRetry: Outcome, choice: Choice, second: Outcome, secondRetry: Outcome, offline: Outcome)

  predicate GivesUp(p: Policy, e: Error) {
    || e.kind.ValueKind?
    || (e.kind.BudgetKind? && !p.autoPlane && !p.localFallback)
    || (!p.crossPlane && !p.localFallback)
  }

  /** The outcome of the plane that is tried after the error, with the error's receipts added. */
  function AfterError(e: Error, alternate: Outcome): Outcome {
    match alternate
    case Reply(r) => Reply(Merged(r, e.attempts, true))
    case Raise(e') => if e.attempts != [] then Raise(WithIncurred(e', e.attempts)) else Raise(e')
    case Cancelled => Cancelled
  }

  function Unified(p: Policy, s: Script): Outcome {
    var attempt := Recovered(s.first, s.firstRetry, p.recovery);
    if !attempt.Raise? || GivesUp(p, attempt.error) then attempt
    else
      match s.choice
      case Nowhere => attempt
      case ChoosingRaises(e) => Raise(e)
      case ChoosingCancelled => Cancelled
      case Offline => AfterError(attempt.error, s.offline)
      case OtherPlane => AfterError(attempt.error, Recovered(s.second, s.secondRetry, p.recovery))
  }

  method RunUnified(p: Policy, s: Script) returns (outcome: Outcome)
    ensures outcome == Unified(p, s)
  {
    outcome := CallWithRecovery(s.first, s.firstRetry, p.recovery);
    if !outcome.Raise? { return; }
    var error := outcome.error;
    if error.kind.ValueKind? { return; }
    if error.kind.BudgetKind? && !p.autoPlane && !p.localFallback { return; }
    if !p.crossPlane && !p.localFallback { return; }
    var alternate;
    match s.choice {
      case Nowhere => return;
      case ChoosingRaises(e) => return Raise(e);
      case ChoosingCancelled => return Cancelled;
      case Offline => alternate := s.offline;
      case OtherPlane => alternate := CallWithRecovery(s.second, s.secondRetry, p.recovery);
    }
    if alternate.Cancelled? { return Cancelled; }
    if alternate.Raise? {
      return if error.attempts != [] then Raise(WithIncurred(alternate.error, error.attempts)) else alternate;
    }
    var dict := new ResultDict(alternate.result);
    dict.MergeIncurred(error.attempts, true);
    return Reply(dict.View());
  }
}
