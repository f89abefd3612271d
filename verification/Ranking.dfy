/** The score algebra of retrieval: fusing rankings, blending with a parent, and ranking by score. */
module Ranking {
  import opened Wrappers
  import opened StringOrder

  const RRF_K := 60

  function Clamped(x: real): real { MinReal(1.0, MaxReal(0.0, x)) }

  function Share(part: real, score: real): real { part * score }

  function ChildScore(own: real, parent: real, alpha: real): real {
    Share(Clamped(alpha), own) + Share(1.0 - Clamped(alpha), parent)
  }

  lemma SharesKeepOrder(part: real, x: real, y: real)
    requires part >= 0.0 && x <= y
    ensures Share(part, x) <= Share(part, y)
  {
  }

  lemma SharesAddUp(part: real, x: real)
    ensures Share(part, x) + Share(1.0 - part, x) == x
  {
  }

  /** A blended score never leaves the range of what it blends. */
  lemma BlendStaysBetween(own: real, parent: real, alpha: real)
    ensures MinReal(own, parent) <= ChildScore(own, parent, alpha) <= MaxReal(own, parent)
  {
    var a := Clamped(alpha);
    var low, high := MinReal(own, parent), MaxReal(own, parent);
    SharesKeepOrder(a, low, own);
    SharesKeepOrder(a, own, high);
    SharesKeepOrder(1.0 - a, low, parent);
    SharesKeepOrder(1.0 - a, parent, high);
    SharesAddUp(a, low);
    SharesAddUp(a, high);
    hide Share;
  }

  /** How far a blended score is from the parent's: the weight's share of the way to the child's own, at most the whole. */
  lemma ChildScoreIs(own: real, parent: real, alpha: real)
    ensures 0.0 <= alpha <= 1.0 ==> ChildScore(own, parent, alpha) - parent == alpha * (own - parent)
    ensures alpha >= 1.0 ==> ChildScore(own, parent, alpha) == own
    ensures alpha <= 0.0 ==> ChildScore(own, parent, alpha) == parent
  {
    assert Clamped(alpha) == if alpha >= 1.0 then 1.0 else if alpha <= 0.0 then 0.0 else alpha;
  }

  // ---------- Reciprocal rank fusion ----------

  function Rrf(rank: nat): real
    requires rank >= 1
  {
    1.0 / (RRF_K + rank) as real
  }

  function ScoreOr0(scores: map<string, real>, key: string): real { if key in scores then scores[key] else 0.0 }

  function FuseOne(scores: map<string, real>, ranking: seq<string>): map<string, real> {
    if ranking == [] then scores
    else
      var before := FuseOne(scores, ranking[..|ranking| - 1]);
      var key := ranking[|ranking| - 1];
      before[key := ScoreOr0(before, key) + Rrf(|ranking|)]
  }

  function Fuse(rankings: seq<seq<string>>): map<string, real> {
    if rankings == [] then map[]
    else FuseOne(Fuse(rankings[..|rankings| - 1]), rankings[|rankings| - 1])
  }

  method RrfFuse(rankings: seq<seq<string>>) returns (scores: map<string, real>)
    ensures scores == Fuse(rankings)
  {
    scores := map[];
    for r := 0 to |rankings|
      invariant scores == Fuse(rankings[..r])
    {
      assert rankings[..r + 1][..r] == rankings[..r];
      var ranking := rankings[r];
      for i := 0 to |ranking|
        invariant scores == FuseOne(Fuse(rankings[..r]), ranking[..i])
      {
        assert ranking[..i + 1][..i] == ranking[..i];
        scores := scores[ranking[i] := ScoreOr0(scores, ranking[i]) + Rrf(i + 1)];
      }
      assert ranking[..|ranking|] == ranking;
    }
    assert rankings[..|rankings|] == rankings;
  }

  /** What one ranking gives a key: the reciprocal of 60 plus the rank, for each place it holds. */
  function Given(ranking: seq<string>, key: string): real {
    if ranking == [] then 0.0
    else Given(ranking[..|ranking| - 1], key) + if ranking[|ranking| - 1] == key then Rrf(|ranking|) else 0.0
  }

  function GivenByAll(rankings: seq<seq<string>>, key: string): real {
    if rankings == [] then 0.0
    else GivenByAll(rankings[..|rankings| - 1], key) + Given(rankings[|rankings| - 1], key)
  }

  lemma {:induction false} FuseOneAdds(scores: map<string, real>, ranking: seq<string>, key: string)
    ensures ScoreOr0(FuseOne(scores, ranking), key) == ScoreOr0(scores, key) + Given(ranking, key)
    ensures key in FuseOne(scores, ranking) <==> key in scores || key in ranking
  {
    if ranking != [] {
      var before := ranking[..|ranking| - 1];
      FuseOneAdds(scores, before, key);
      assert ranking == before + [ranking[|ranking| - 1]];
    }
  }

  /** Fusion sums, key by key, what every ranking gives; it knows exactly the keys that are ranked. */
  lemma {:induction false} FusionSumsRankings(rankings: seq<seq<string>>, key: string)
    ensures ScoreOr0(Fuse(rankings), key) == GivenByAll(rankings, key)
    ensures key in Fuse(rankings) <==> exists r :: 0 <= r < |rankings| && key in rankings[r]
  {
    if rankings != [] {
      var before, last := rankings[..|rankings| - 1], rankings[|rankings| - 1];
      FusionSumsRankings(before, key);
      FuseOneAdds(Fuse(before), last, key);
      if r :| 0 <= r < |before| && key in before[r] { assert key in rankings[r]; }
      if key in last { assert key in rankings[|rankings| - 1]; }
    }
  }

  /** The place of a key in a ranking that holds it once gives it one part in 60 and its rank. */
  lemma {:induction false} OnePlaceGives(ranking: seq<string>, i: nat)
    requires i < |ranking| && forall j :: 0 <= j < |ranking| && ranking[j] == ranking[i] ==> j == i
    ensures Given(ranking, ranking[i]) * (61 + i) as real == 1.0
  {
    var before := ranking[..|ranking| - 1];
    if i == |ranking| - 1 {
      UnrankedGivesNothing(before, ranking[i]);
      assert Given(ranking, ranking[i]) == Rrf(i + 1);
    } else {
      OnePlaceGives(before, i);
    }
  }

  lemma {:induction false} UnrankedGivesNothing(ranking: seq<string>, key: string)
    requires key !in ranking
    ensures Given(ranking, key) == 0.0
  {
    if ranking != [] { UnrankedGivesNothing(ranking[..|ranking| - 1], key); }
  }

  // ---------- Ranking by score ----------

  /** Higher scores first, equal scores by name. */
  predicate Before(scores: map<string, real>, a: string, b: string)
    requires a in scores && b in scores
  {
    scores[a] > scores[b] || (scores[a] == scores[b] && Less(a, b))
  }

  predicate IsBest(scores: map<string, real>, key: string) {
    key in scores && forall other :: other in scores && other != key ==> Before(scores, key, other)
  }

  lemma OneBest(scores: map<string, real>, a: string, b: string)
    requires IsBest(scores, a) && IsBest(scores, b)
    ensures a == b
  {
    if a != b && scores[a] == scores[b] { LessIsStrict(a, b); }
  }

  lemma {:induction false} BestExists(scores: map<string, real>) returns (best: string)
    requires scores != map[]
    ensures IsBest(scores, best)
    decreases |scores|
  {
    var key :| key in scores;
    var rest := scores - {key};
    if rest == map[] {
      best := key;
      assert forall other :: other in scores && other != key ==> other in rest;
    } else {
      best := BestExists(rest);
      LessIsTotal(key, best);
      if !Before(scores, best, key) {
        forall other | other in scores && other != key ensures Before(scores, key, other) {
          if other != best && scores[key] == scores[best] == scores[other] {
            assert other in rest;
            LessIsTransitive(key, best, other);
          } else {
            assert other in rest;
          }
        }
        best := key;
      } else {
        assert forall other :: other in scores && other != best && other != key ==> other in rest;
      }
    }
  }

  lemma ExactlyOneBest(scores: map<string, real>)
    requires scores != map[]
    ensures exists best :: IsBest(scores, best)
    ensures forall a, b :: IsBest(scores, a) && IsBest(scores, b) ==> a == b
  {
    var best := BestExists(scores);
    forall a, b | IsBest(scores, a) && IsBest(scores, b) ensures a == b { OneBest(scores, a, b); }
  }

  /** `sorted(scores, key=lambda key: (-scores[key], key))`. */
  function Rank(scores: map<string, real>): seq<string>
    decreases |scores|
  {
    if scores == map[] then []
    else
      ExactlyOneBest(scores);
      var best :| best in scores && IsBest(scores, best);
      [best] + Rank(scores - {best})
  }

  /** The ranking lists exactly the keys, each once. */
  lemma {:induction false} RankListsKeys(scores: map<string, real>, key: string)
    ensures |Rank(scores)| == |scores| && (key in scores <==> key in Rank(scores))
    decreases |scores|
  {
    if scores != map[] {
      var ranked := Rank(scores);
      var best := ranked[0];
      var rest := scores - {best};
      ExactlyOneBest(scores);
      assert best in scores && ranked == [best] + Rank(rest);
      RankListsKeys(rest, key);
      assert scores.Keys == rest.Keys + {best};
    }
  }

  /** In the ranking, which lists every key, a better key always comes before a worse one. */
  lemma {:induction false} RankIsSorted(scores: map<string, real>, i: nat, j: nat)
    requires i < j < |Rank(scores)|
    ensures var ranked := Rank(scores);
            && ranked[i] in scores && ranked[j] in scores
            && (scores[ranked[i]] > scores[ranked[j]]
                || (scores[ranked[i]] == scores[ranked[j]] && Less(ranked[i], ranked[j])))
    decreases |scores|
  {
    var ranked := Rank(scores);
    var best := ranked[0];
    var rest := scores - {best};
    ExactlyOneBest(scores);
    assert IsBest(scores, best) && ranked == [best] + Rank(rest);
    hide Rank;
    assert ranked[j] == Rank(rest)[j - 1];
    RankListsKeys(rest, ranked[j]);
    if i > 0 {
      RankIsSorted(rest, i - 1, j - 1);
    }
  }
}
