/**
 * Usage accounting: the receipts that carry cost and tokens through retries, plane swaps and errors, and
 * the recovery that uses them. Amounts are raw values read leniently; money is exact.
 */
module Usage {
  import opened Wrappers
  import opened Values

  datatype Field = Input | Output | Total

  const FIELDS: seq<Field> := [Input, Output, Total]

  /** One billing receipt; Foreign is a list item that is not a dict. */
  datatype Attempt = Foreign | Entry(stage: string, outcome: string, cost: Value, tokens: map<Field, Value>)

  /**
   * What accounting reads of a result: tokens are its own fields, nested those of its usage dict (by their
   * first alias), prior its list of earlier attempts. nonAnswer is the verdict on its text.
   */
  datatype Result = Result(
    cost: Value, tokens: map<Field, Value>, nested: map<Field, Value>, prior: Option<seq<Attempt>>, nonAnswer: bool)

  function NonNegative(v: Value): real { MaxReal(0.0, v.AsFloat().GetOr(0.0)) }

  function Count(v: Value): int { MaxInt(0, v.AsInt().GetOr(0)) }

  function GetField(tokens: map<Field, Value>, f: Field): Value { if f in tokens then tokens[f] else Null }

  function Tokens(n: int): Value { Number(n as real) }

  function Sanitize(a: Attempt): Attempt {
    if a.Foreign? then a
    else Entry(a.stage, a.outcome, Number(NonNegative(a.cost)),
               map f | f in a.tokens && a.tokens[f] != Null :: Tokens(Count(a.tokens[f])))
  }

  /** The dicts of a list, each sanitized. */
  function SanitizeAll(attempts: seq<Attempt>): seq<Attempt> {
    if attempts == [] then []
    else SanitizeAll(attempts[..|attempts| - 1])
         + (if attempts[|attempts| - 1].Foreign? then [] else [Sanitize(attempts[|attempts| - 1])])
  }

  function Earlier(r: Result): seq<Attempt> { SanitizeAll(r.prior.GetOr([])) }

  /** The token counts of a result: its own fields, else the nested ones, and a derived total. */
  function Normalized(r: Result): map<Field, Value> {
    var found := map f | f in FIELDS && (f in r.tokens || f in r.nested) ::
                   Tokens(Count(if f in r.tokens then r.tokens[f] else r.nested[f]));
    if Total !in found && (Input in found || Output in found)
    then found[Total := Tokens(Count(GetField(found, Input)) + Count(GetField(found, Output)))]
    else found
  }

  function AttemptOf(r: Result, stage: string, outcome: string): Attempt {
    Entry(stage, outcome, Number(NonNegative(r.cost)), Normalized(r))
  }

  function CostOf(a: Attempt): real { if a.Foreign? then 0.0 else NonNegative(a.cost) }

  function TokensOf(a: Attempt, f: Field): int { if a.Foreign? then 0 else Count(GetField(a.tokens, f)) }

  predicate Mentions(a: Attempt, f: Field) { a.Entry? && f in a.tokens }

  function CostSum(attempts: seq<Attempt>): real {
    if attempts == [] then 0.0 else CostSum(attempts[..|attempts| - 1]) + CostOf(attempts[|attempts| - 1])
  }

  function TokenSum(attempts: seq<Attempt>, f: Field): int {
    if attempts == [] then 0 else TokenSum(attempts[..|attempts| - 1], f) + TokensOf(attempts[|attempts| - 1], f)
  }

  // ---------- Splitting a result into attempts ----------

  function RestOfCost(cost: Value, prior: seq<Attempt>): Value {
    Number(MaxReal(0.0, NonNegative(cost) - CostSum(prior)))
  }

  function RestOfTokens(tokens: map<Field, Value>, prior: seq<Attempt>): map<Field, Value> {
    map f | f in tokens :: Tokens(MaxInt(0, Count(tokens[f]) - TokenSum(prior, f)))
  }

  /** The earlier attempts of a result, and one more for what they do not explain of its totals. */
  function AttemptsOf(r: Result, stage: string, outcome: string): seq<Attempt> {
    var prior := Earlier(r);
    prior + [Entry(stage, outcome, RestOfCost(r.cost, prior), RestOfTokens(Normalized(r), prior))]
  }

  lemma CountOfTokens(n: int)
    requires n >= 0
    ensures Count(Tokens(n)) == n
  {
    assert (n as real).Floor == n;
  }

  lemma NonNegativeOfNumber(x: real)
    requires x >= 0.0
    ensures NonNegative(Number(x)) == x
  {
  }

  lemma SumOfOneMore(attempts: seq<Attempt>, a: Attempt, f: Field)
    ensures CostSum(attempts + [a]) == CostSum(attempts) + CostOf(a)
    ensures TokenSum(attempts + [a], f) == TokenSum(attempts, f) + TokensOf(a, f)
  {
    assert (attempts + [a])[..|attempts|] == attempts;
    hide CostOf, TokensOf;
  }

  /** What the attempt for the remainder carries. */
  lemma RestOfCostTopsUp(cost: Value, prior: seq<Attempt>)
    ensures NonNegative(RestOfCost(cost, prior)) + CostSum(prior) == MaxReal(NonNegative(cost), CostSum(prior))
  {
    SumsAreNonNegative(prior, Input);
    NonNegativeOfNumber(MaxReal(0.0, NonNegative(cost) - CostSum(prior)));
    hide NonNegative, CostSum;
  }

  lemma RestOfTokensTopsUp(tokens: map<Field, Value>, prior: seq<Attempt>, f: Field)
    ensures Count(GetField(RestOfTokens(tokens, prior), f)) + TokenSum(prior, f)
            == MaxInt(Count(GetField(tokens, f)), TokenSum(prior, f))
  {
    hide Tokens, TokenSum;
    assert Count(Null) == 0;
    hide Count;
    var left := MaxInt(0, Count(GetField(tokens, f)) - TokenSum(prior, f));
    var rest := RestOfTokens(tokens, prior);
    assert f in rest <==> f in tokens;
    assert f in tokens ==> rest[f] == Tokens(left);
    hide RestOfTokens;
    SumsAreNonNegative(prior, f);
    CountOfTokens(left);
  }

  /** The attempts of a result always sum to the larger of its totals and what its earlier attempts sum to. */
  lemma AttemptsSumToTheLarger(r: Result, stage: string, outcome: string, f: Field)
    ensures var attempts := AttemptsOf(r, stage, outcome);
            && CostSum(attempts) == MaxReal(NonNegative(r.cost), CostSum(Earlier(r)))
            && TokenSum(attempts, f) == MaxInt(Count(GetField(Normalized(r), f)), TokenSum(Earlier(r), f))
  {
    hide Earlier, Normalized, NonNegative, Count, RestOfCost, RestOfTokens, GetField;
    var prior := Earlier(r);
    SumOfOneMore(prior, Entry(stage, outcome, RestOfCost(r.cost, prior), RestOfTokens(Normalized(r), prior)), f);
    RestOfCostTopsUp(r.cost, prior);
    RestOfTokensTopsUp(Normalized(r), prior, f);
  }

  lemma {:induction false} SumsAreNonNegative(attempts: seq<Attempt>, f: Field)
    ensures CostSum(attempts) >= 0.0 && TokenSum(attempts, f) >= 0
  {
    if attempts != [] {
      SumsAreNonNegative(attempts[..|attempts| - 1], f);
    }
  }

  lemma {:induction false} CostSumAppends(a: seq<Attempt>, b: seq<Attempt>)
    ensures CostSum(a + b) == CostSum(a) + CostSum(b)
  {
    if b == [] {
      assert a + b == a;
    } else {
      CostSumAppends(a, b[..|b| - 1]);
      assert (a + b)[..|a + b| - 1] == a + b[..|b| - 1];
    }
  }

  lemma {:induction false} TokenSumAppends(a: seq<Attempt>, b: seq<Attempt>, f: Field)
    ensures TokenSum(a + b, f) == TokenSum(a, f) + TokenSum(b, f)
  {
    if b == [] {
      assert a + b == a;
    } else {
      TokenSumAppends(a, b[..|b| - 1], f);
      assert (a + b)[..|a + b| - 1] == a + b[..|b| - 1];
    }
  }

  lemma SanitizedAttempt(a: Attempt, f: Field)
    requires a.Entry?
    ensures CostOf(Sanitize(a)) == CostOf(a) && TokensOf(Sanitize(a), f) == TokensOf(a, f)
    ensures f in Sanitize(a).tokens <==> Reported(a, f)
    ensures Reported(Sanitize(a), f) <==> Reported(a, f)
  {
    NonNegativeOfNumber(NonNegative(a.cost));
    if Reported(a, f) { CountOfTokens(Count(a.tokens[f])); }
    assert Count(Null) == 0;
    hide NonNegative, Count;
  }

  /** A count that is there and is not null. */
  predicate Reported(a: Attempt, f: Field) { a.Entry? && f in a.tokens && a.tokens[f] != Null }

  lemma SumOfSanitizedOne(a: Attempt, f: Field)
    ensures var one := if a.Foreign? then [] else [Sanitize(a)];
            CostSum(one) == CostOf(a) && TokenSum(one, f) == TokensOf(a, f)
  {
    if a.Entry? {
      SanitizedAttempt(a, f);
      assert [Sanitize(a)][..0] == [];
      hide CostOf, TokensOf, Sanitize;
    }
  }

  /** Sanitizing a list keeps its totals, in cost and in every token field. */
  lemma {:induction false} SanitizingKeepsSums(attempts: seq<Attempt>, f: Field)
    ensures CostSum(SanitizeAll(attempts)) == CostSum(attempts)
    ensures TokenSum(SanitizeAll(attempts), f) == TokenSum(attempts, f)
  {
    if attempts != [] {
      var rest, last := attempts[..|attempts| - 1], attempts[|attempts| - 1];
      var one := if last.Foreign? then [] else [Sanitize(last)];
      SanitizingKeepsSums(rest, f);
      CostSumAppends(SanitizeAll(rest), one);
      TokenSumAppends(SanitizeAll(rest), one, f);
      SumOfSanitizedOne(last, f);
      hide CostOf, TokensOf, Sanitize;
    }
  }
}
