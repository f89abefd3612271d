/** Token estimates, and clipping a text to the longest prefix of its words that fits. */
module Layers {
  import opened Text

  /** The estimate for a number of words: 1.3 tokens a word, rounded up. */
  function Est(words: nat): nat { (13 * words + 9) / 10 }

  function EstimateTokens(text: string): nat { Est(|Split(text)|) }

  /** The estimate is the least whole number that is 1.3 times the words or more. */
  lemma EstRoundsUp(words: nat)
    ensures 13 * words <= 10 * Est(words) < 13 * words + 10
  {
  }

  lemma EstGrows(m: nat, n: nat)
    requires m < n
    ensures Est(m) < Est(n) && Est(m + 1) <= Est(m) + 2 && (1 <= n ==> Est(n) >= 2)
  {
  }

  /** How many words fit: all that the limit allows, but at least one. */
  predicate Fits(words: nat, kept: nat, limit: int) {
    && 1 <= kept <= words
    && (kept == 1 || Est(kept) <= limit)
    && (kept < words ==> Est(kept + 1) > limit)
  }

  /** There is only one such number. */
  lemma FitsOnce(words: nat, kept: nat, other: nat, limit: int)
    requires Fits(words, kept, limit) && Fits(words, other, limit)
    ensures kept == other
  {
  }

  function FitFrom(words: nat, kept: nat, limit: int): (n: nat)
    requires 1 <= kept <= words && (kept == 1 || Est(kept) <= limit)
    ensures Fits(words, n, limit)
    decreases words - kept
  {
    if kept < words && Est(kept + 1) <= limit then FitFrom(words, kept + 1, limit) else kept
  }

  /** The longest prefix of the words that fits, joined by single spaces. */
  function Clip(text: string, limit: int): string {
    var words := Split(text);
    if words == [] then "" else Join(words[..FitFrom(|words|, 1, if limit > 1 then limit else 1)])
  }

  lemma JoinedEstimate(words: seq<string>, n: nat)
    requires n <= |words| && forall w :: w in words ==> IsWord(w)
    ensures Split(Join(words[..n])) == words[..n] && EstimateTokens(Join(words[..n])) == Est(n)
  {
    SplitUndoesJoin(words[..n]);
  }

  /**
   * Clipping keeps a non-empty prefix of the words, with a blank between them: it fits unless it is a single
   * word, and one more word would not.
   */
  lemma ClipIsLongestPrefix(text: string, limit: int)
    requires Split(text) != []
    ensures var words, kept := Split(text), Split(Clip(text, limit));
            && 1 <= |kept| && kept <= words && Clip(text, limit) == Join(kept)
            && (|kept| > 1 ==> EstimateTokens(Clip(text, limit)) <= limit)
            && (|kept| < |words| ==> Est(|kept| + 1) > limit)
  {
    var words := Split(text);
    var cap := if limit > 1 then limit else 1;
    var n := FitFrom(|words|, 1, cap);
    JoinedEstimate(words, n);
    if n < |words| { EstGrows(n, n + 1); }
  }

  method ClipTokens(text: string, limit: int) returns (clipped: string)
    ensures clipped == Clip(text, limit)
  {
    hide Split, Join, EstimateTokens;
    var words := Split(text);
    if words == [] { return ""; }
    var cap := if limit > 1 then limit else 1;
    var kept: seq<string> := [];
    var i := 0;
    while i < |words|
      invariant 0 <= i <= |words| && kept == words[..i]
      invariant i <= 1 || Est(i) <= cap
      decreases |words| - i
    {
      assert words[..i + 1] == kept + [words[i]];
      JoinedEstimate(words, i + 1);
      if kept != [] && EstimateTokens(Join(kept + [words[i]])) > cap { break; }
      kept := kept + [words[i]];
      i := i + 1;
      if EstimateTokens(Join(kept)) >= cap {
        if i < |words| { EstGrows(i, i + 1); }
        break;
      }
    }
    assert Fits(|words|, i, cap);
    FitsOnce(|words|, i, FitFrom(|words|, 1, cap), cap);
    return Join(kept);
  }
}
