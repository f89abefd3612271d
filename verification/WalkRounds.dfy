/**
 * The walk from first principles: its initial scores written out, then rounds that expand a best entry of
 * the heap and move scores by arithmetic, until the eight best candidates have stood still for three rounds.
 */
module WalkRounds {
  import opened Wrappers
  import opened StringOrder
  import opened Ranking
  import opened Packing
  import opened Walk
  import opened WalkOrder

  // ---------- The start ----------

  /** The URIs with a word of the query in path or summary, those with the larger overlap in the whole text first. */
  predicate IsTermRanking(q: Query, cs: seq<Candidate>, ranking: seq<string>) {
    && (forall c :: c in cs ==> (c.uri in ranking <==> q.overlap(c.path + " " + c.l0) != 0.0))
    && (forall u :: u in ranking ==> HasUri(cs, u))
    && (forall a, b, i, j ::
          a in cs && b in cs && 0 <= i < j < |ranking| && a.uri == ranking[i] && b.uri == ranking[j] ==>
            OverlapsMore(q, a, b))
  }

  predicate OverlapsMore(q: Query, a: Candidate, b: Candidate) {
    var x, y := q.overlap(a.path + " " + a.l0 + " " + a.l1), q.overlap(b.path + " " + b.l0 + " " + b.l1);
    x > y || (x == y && Less(a.uri, b.uri))
  }

  lemma {:induction false} TermIdsRank(q: Query, s: seq<Candidate>)
    requires InOrder(q, s) && Distinct(s)
    ensures IsTermRanking(q, s, TermIds(q, s))
  {
    if s != [] {
      var before, last := s[..|s| - 1], s[|s| - 1];
      TermIdsRank(q, before);
      assert s == before + [last];
      assert forall c :: c in before ==> OverlapsMore(q, c, last) && c.uri != last.uri;
      hide InOrder, Distinct;
      OneMoreTerm(q, before, last, TermIds(q, before));
    }
  }

  lemma OneMoreTerm(q: Query, before: seq<Candidate>, last: Candidate, ranking: seq<string>)
    requires IsTermRanking(q, before, ranking)
    requires forall c :: c in before ==> OverlapsMore(q, c, last) && c.uri != last.uri
    ensures IsTermRanking(q, before + [last],
                          ranking + if q.overlap(last.path + " " + last.l0) != 0.0 then [last.uri] else [])
  {
    hide OverlapsMore;
    var cs := before + [last];
    var all := ranking + if q.overlap(last.path + " " + last.l0) != 0.0 then [last.uri] else [];
    assert last.uri !in ranking;
    forall u | u in all ensures HasUri(cs, u) {
      if u in ranking {
        var c :| c in before && c.uri == u;
        assert c in cs;
      } else {
        assert last in cs;
      }
    }
    hide HasUri;
    forall a, b, i, j | a in cs && b in cs && 0 <= i < j < |all| && a.uri == all[i] && b.uri == all[j]
      ensures OverlapsMore(q, a, b)
    {
      assert i < |ranking| && all[i] == ranking[i] && a != last;
      if j < |ranking| { assert all[j] == ranking[j] && b != last; }
    }
  }

  lemma SameTermRanking(q: Query, a: seq<Candidate>, b: seq<Candidate>, ranking: seq<string>)
    requires IsTermRanking(q, a, ranking) && SameMembers(a, b)
    ensures IsTermRanking(q, b, ranking)
  {
    forall u | HasUri(a, u) ensures HasUri(b, u) { var c :| c in a && c.uri == u; assert c in b; }
    hide HasUri, OverlapsMore;
  }

  /** A sort of distinct candidates has as many, so it repeats none. */
  lemma InOrderIsDistinct(q: Query, s: seq<Candidate>)
    requires InOrder(q, s) && forall c, d :: c in s && d in s && c.uri == d.uri ==> c == d
    ensures Distinct(s)
  {
    forall i, j | 0 <= i < j < |s| ensures s[i].uri != s[j].uri {
      assert Ahead(q, s[i], s[j]);
      AheadIsStrict(q, s[i], s[j]);
    }
  }

  lemma DistinctMeans(cs: seq<Candidate>)
    requires Distinct(cs)
    ensures forall c, d :: c in cs && d in cs && c.uri == d.uri ==> c == d
  {
  }

  lemma SortedIsTermRanking(q: Query, cs: seq<Candidate>)
    requires Distinct(cs)
    ensures IsTermRanking(q, cs, TermIds(q, Sorted(q, cs)))
  {
    var sorted := Sorted(q, cs);
    SortedIsInOrder(q, cs);
    DistinctMeans(cs);
    hide Sorted, TermIds, IsTermRanking, Distinct;
    InOrderIsDistinct(q, sorted);
    TermIdsRank(q, sorted);
    SameTermRanking(q, sorted, cs, TermIds(q, sorted));
  }

  lemma BothRankings(terms: seq<string>, fts: seq<string>, key: string)
    ensures GivenByAll([terms] + if fts != [] then [fts] else [], key) == Given(terms, key) + Given(fts, key)
  {
    OneMoreRanking([], terms, key);
    OneMoreRanking([terms], fts, key);
    assert [] + [terms] == [terms] && [terms] + [] == [terms];
    assert GivenByAll([], key) == 0.0;
    assert fts == [] ==> Given(fts, key) == 0.0;
    hide GivenByAll, Given;
  }

  lemma OneMoreRanking(rankings: seq<seq<string>>, ranking: seq<string>, key: string)
    ensures GivenByAll(rankings + [ranking], key) == GivenByAll(rankings, key) + Given(ranking, key)
  {
    assert (rankings + [ranking])[..|rankings|] == rankings;
    hide Given;
  }

  lemma OriginIs(q: Query, fused: map<string, real>, terms: seq<string>, c: Candidate)
    requires ScoreOr0(fused, c.uri) == Given(terms, c.uri) + Given(q.fts, c.uri)
    ensures OriginOf(q, fused)(c)
            == 0.6 * (Given(terms, c.uri) + Given(q.fts, c.uri)) + 0.4 * q.overlap(c.path + " " + c.l0 + " " + c.l1)
  {
    hide Given, ScoreOr0;
  }

  lemma FinishedFrom(q: Query, origin: map<string, real>, c: Candidate)
    requires c.uri in origin
    ensures ScoreFrom(q, origin)(c) == q.finish(origin[c.uri], c)
  {
    assert ScoreOr0(origin, c.uri) == origin[c.uri];
  }

  lemma StreamsAre(q: Query, cs: seq<Candidate>)
    ensures Streams(q, cs) == [TermIds(q, Sorted(q, cs))] + if q.fts != [] then [q.fts] else []
  {
  }

  lemma StartShape(q: Query, cs: seq<Candidate>)
    ensures var start := Start(q, cs);
            && start.scored == Table(cs, ScoreFrom(q, Table(cs, OriginOf(q, Fuse(Streams(q, cs))))))
            && start.why == Table(cs, WhyFrom(q))
            && start.heap == PushAll(cs, DirectoryEntry(start.scored))
            && start.lastTop == None && start.stable == start.steps == 0
  {
    hide Table, Fuse, Streams, PushAll, Top;
  }

  /**
   * Where a candidate starts: six tenths of what the two rankings of its URI give, four tenths of its overlap,
   * finished by recency, kind and authority.
   */
  lemma StartsAs(q: Query, cs: seq<Candidate>, c: Candidate) returns (terms: seq<string>)
    requires Distinct(cs) && c in cs
    ensures IsTermRanking(q, cs, terms)
    ensures var overlap := q.overlap(c.path + " " + c.l0 + " " + c.l1);
            var ranked := Given(terms, c.uri) + Given(q.fts, c.uri);
            && c.uri in Start(q, cs).scored
            && Start(q, cs).scored[c.uri] == q.finish(0.6 * ranked + 0.4 * overlap, c)
  {
    terms := TermIds(q, Sorted(q, cs));
    var fused := Fuse(Streams(q, cs));
    var origin := Table(cs, OriginOf(q, fused));
    hide *;
    StartShape(q, cs);
    StreamsAre(q, cs);
    SortedIsTermRanking(q, cs);
    FusionSumsRankings(Streams(q, cs), c.uri);
    BothRankings(terms, q.fts, c.uri);
    OriginIs(q, fused, terms, c);
    TableOf(cs, OriginOf(q, fused), c.uri);
    TableOf(cs, ScoreFrom(q, origin), c.uri);
    FinishedFrom(q, origin, c);
  }

  /** The reasons that a candidate starts with: in the text ranking, a word of the query, both or neither. */
  lemma ReasonsStartAs(q: Query, cs: seq<Candidate>, c: Candidate)
    requires Distinct(cs) && c in cs
    ensures var overlap := q.overlap(c.path + " " + c.l0 + " " + c.l1);
            var why := Start(q, cs).why;
            && c.uri in why
            && (c.uri in q.fts && overlap > 0.0 ==> why[c.uri] == "fts|term")
            && (c.uri in q.fts && overlap <= 0.0 ==> why[c.uri] == "fts")
            && (c.uri !in q.fts && overlap > 0.0 ==> why[c.uri] == "term")
            && (c.uri !in q.fts && overlap <= 0.0 ==> why[c.uri] == "prior")
  {
    StartShape(q, cs);
    hide Table, Start, Distinct, Fuse, Streams, PushAll;
    TableOf(cs, WhyFrom(q), c.uri);
  }

  // ---------- The heap, entry by entry ----------

  /** What a pushing loop adds, when every candidate pushes only under its own URI. */
  lemma {:induction false} PushedOnce(cs: seq<Candidate>, entries: Candidate -> multiset<Entry>, x: Entry)
    requires Distinct(cs) && forall c :: c in cs && x in entries(c) ==> c.uri == x.uri
    ensures forall c :: c in cs && c.uri == x.uri ==> PushAll(cs, entries)[x] == entries(c)[x]
    ensures !HasUri(cs, x.uri) ==> PushAll(cs, entries)[x] == 0
  {
    hide Distinct, HasUri;
    if cs != [] {
      var before, last := cs[..|cs| - 1], cs[|cs| - 1];
      LastIsNew(cs);
      PushedOnce(before, entries, x);
      HasUriGrows(before, last, x.uri);
    }
  }

  lemma LastIsNew(cs: seq<Candidate>)
    requires Distinct(cs) && cs != []
    ensures var before, last := cs[..|cs| - 1], cs[|cs| - 1];
            && cs == before + [last] && Distinct(before)
            && (forall c :: c in cs <==> c in before || c == last)
            && (forall c :: c in before ==> c.uri != last.uri)
  {
    var before, last := cs[..|cs| - 1], cs[|cs| - 1];
    assert cs == before + [last];
  }

  lemma HasUriGrows(before: seq<Candidate>, last: Candidate, u: string)
    ensures HasUri(before + [last], u) <==> HasUri(before, u) || last.uri == u
    ensures HasUri(before, u) ==> exists c :: c in before && c.uri == u
  {
    var cs := before + [last];
    assert forall c :: c in cs <==> c in before || c == last;
  }

  /** The candidate of a URI settles whether it is a directory, and a child of another. */
  lemma TheOnlyOne(cs: seq<Candidate>, parent: string, c: Candidate)
    requires Distinct(cs) && c in cs
    ensures IsDirectory(cs, c.uri) <==> c.isDir
    ensures HasChildDir(cs, parent, c.uri) <==> c.parent == Some(parent) && c.isDir
    ensures HasUri(cs, c.uri)
  {
    DistinctMeans(cs);
    hide Distinct;
  }

  lemma HeapOfDirectories(cs: seq<Candidate>, scored: map<string, real>, x: Entry)
    requires Distinct(cs) && forall c :: c in cs ==> c.uri in scored
    ensures PushAll(cs, DirectoryEntry(scored))[x]
            == if IsDirectory(cs, x.uri) && x.uri in scored && scored[x.uri] == -x.neg then 1 else 0
  {
    var entries := DirectoryEntry(scored);
    ChildrenAreThere(cs, "", x.uri);
    hide PushAll, Distinct, IsDirectory, HasChildDir, HasChild;
    PushedOnce(cs, entries, x);
    if HasUri(cs, x.uri) {
      var c :| c in cs && c.uri == x.uri;
      TheOnlyOne(cs, "", c);
    }
  }

  /** The heap starts with every directory among the candidates once, under its initial score, and nothing else. */
  lemma HeapStartsAs(q: Query, cs: seq<Candidate>, x: Entry)
    requires Distinct(cs)
    ensures var start := Start(q, cs);
            start.heap[x]
            == if IsDirectory(cs, x.uri) && x.uri in start.scored && start.scored[x.uri] == -x.neg then 1 else 0
  {
    var start := Start(q, cs);
    var origin := Table(cs, OriginOf(q, Fuse(Streams(q, cs))));
    hide *;
    StartShape(q, cs);
    TableCovers(cs, ScoreFrom(q, origin));
    HeapOfDirectories(cs, start.scored, x);
  }

  // ---------- One round ----------

  /** No entry of the heap has a higher score, and among those with an equal score it has the first name. */
  predicate ComesFirst(heap: multiset<Entry>, e: Entry) {
    && e in heap
    && forall other :: other in heap ==>
                         || -other.neg < -e.neg
                         || (other.neg == e.neg && (other.uri == e.uri || Less(e.uri, other.uri)))
  }

  /** Every child ends a quarter of the way from its score to the expanded one; nothing else moves. */
  predicate ScoresMove(cs: seq<Candidate>, e: Entry, before: map<string, real>, after: map<string, real>) {
    && after.Keys == before.Keys
    && (forall u :: u in before ==>
          if HasChild(cs, e.uri, u) then 4.0 * after[u] == 3.0 * before[u] + -e.neg else after[u] == before[u])
  }

  predicate ReasonsMove(cs: seq<Candidate>, e: Entry, before: map<string, string>, after: map<string, string>) {
    && after.Keys == before.Keys
    && (forall u :: u in before ==> after[u] == if HasChildDir(cs, e.uri, u) then before[u] + "|parent" else before[u])
  }

  /** One entry leaves, and every directory among the children enters once under its new score. */
  ghost predicate HeapMoves(cs: seq<Candidate>, e: Entry, before: State, after: State) {
    forall x: Entry ::
      after.heap[x] + (if x == e then 1 else 0)
      == before.heap[x]
         + if HasChildDir(cs, e.uri, x.uri) && x.uri in after.scored && after.scored[x.uri] == -x.neg then 1 else 0
  }

  ghost predicate Round(cs: seq<Candidate>, e: Entry, before: State, after: State) {
    && ComesFirst(before.heap, e) && e.uri in before.why
    && after.steps == before.steps + 1
    && after.trajectory == before.trajectory + [Visit(e.uri, -e.neg, before.why[e.uri])]
    && ScoresMove(cs, e, before.scored, after.scored)
    && ReasonsMove(cs, e, before.why, after.why)
    && HeapMoves(cs, e, before, after)
  }

  /** Reasons are never empty and have no bar at either end, so marking one only appends to it. */
  predicate Tidy(text: string) { text != "" && text[0] != '|' && text[|text| - 1] != '|' }

  lemma TidyIsMarked(text: string)
    requires Tidy(text)
    ensures StripBars(text + "|parent") == text + "|parent" && Tidy(text + "|parent")
  {
  }

  /** The scores and reasons are those of the candidates, and the heap holds directories only. */
  ghost predicate Steady(cs: seq<Candidate>, st: State) {
    && (forall u :: u in st.scored <==> HasUri(cs, u))
    && (forall u :: u in st.why <==> HasUri(cs, u))
    && (forall u :: u in st.why ==> Tidy(st.why[u]))
    && (forall x :: x in st.heap ==> IsDirectory(cs, x.uri))
  }

  lemma ChildrenAreThere(cs: seq<Candidate>, uri: string, u: string)
    ensures HasChildDir(cs, uri, u) ==> HasChild(cs, uri, u) && IsDirectory(cs, u)
    ensures HasChild(cs, uri, u) || IsDirectory(cs, u) ==> HasUri(cs, u)
  {
  }

  lemma LeastComesFirst(heap: multiset<Entry>)
    requires heap != multiset{}
    ensures ComesFirst(heap, Least(heap))
  {
    assert IsLeast(heap, Least(heap));
  }

  lemma ChildPushes(e: Entry, st: State, c: Candidate, x: Entry)
    ensures ChildEntry(e.uri, -e.neg, st)(c)[x]
            == if c.parent == Some(e.uri) && c.isDir && c.uri == x.uri
                  && 4.0 * -x.neg == 3.0 * ScoreOr0(st.scored, c.uri) + -e.neg then 1 else 0
  {
    hide ScoreOr0;
  }

  lemma ChildrenPush(cs: seq<Candidate>, e: Entry, st: State, scored: map<string, real>, x: Entry)
    requires Distinct(cs)
    requires HasChild(cs, e.uri, x.uri) ==>
               x.uri in scored && 4.0 * scored[x.uri] == 3.0 * ScoreOr0(st.scored, x.uri) + -e.neg
    ensures PushAll(cs, ChildEntry(e.uri, -e.neg, st))[x]
            == if HasChildDir(cs, e.uri, x.uri) && x.uri in scored && scored[x.uri] == -x.neg then 1 else 0
  {
    ChildrenAreThere(cs, e.uri, x.uri);
    hide PushAll, Distinct, HasChildDir, HasChild, IsDirectory, ScoreOr0, ChildEntry;
    var entries := ChildEntry(e.uri, -e.neg, st);
    forall c | c in cs && x in entries(c) ensures c.uri == x.uri { ChildPushes(e, st, c, x); }
    PushedOnce(cs, entries, x);
    if HasUri(cs, x.uri) {
      var c :| c in cs && c.uri == x.uri;
      TheOnlyOne(cs, e.uri, c);
      ChildPushes(e, st, c, x);
    }
  }

  /** The children of one expansion as the heap sees them. */
  lemma ExpansionPushesOnce(cs: seq<Candidate>, e: Entry, st: State, x: Entry)
    requires Distinct(cs)
    ensures var after := Expand(cs, e.uri, -e.neg, st);
            after.heap[x] == st.heap[x] + if HasChildDir(cs, e.uri, x.uri) && x.uri in after.scored
                                             && after.scored[x.uri] == -x.neg then 1 else 0
  {
    hide *;
    ExpandPushes(cs, e.uri, -e.neg, st);
    ExpandAt(cs, e.uri, -e.neg, st, x.uri);
    ChildrenPush(cs, e, st, Expand(cs, e.uri, -e.neg, st).scored, x);
  }

  lemma NotedKeeps(st: State)
    ensures Noted(st) == st.(lastTop := Noted(st).lastTop, stable := Noted(st).stable)
  {
    hide Top;
  }

  lemma ScoresAndReasonsMove(cs: seq<Candidate>, e: Entry, st: State)
    requires Distinct(cs) && Steady(cs, st)
    ensures var after := Expand(cs, e.uri, -e.neg, st);
            ScoresMove(cs, e, st.scored, after.scored) && ReasonsMove(cs, e, st.why, after.why)
            && forall u :: u in after.why ==> Tidy(after.why[u])
  {
    hide Expand, Distinct, StripBars, Tidy;
    forall u
      ensures var after := Expand(cs, e.uri, -e.neg, st);
              && (u in after.scored <==> u in st.scored)
              && (u in st.scored ==>
                    if HasChild(cs, e.uri, u) then 4.0 * after.scored[u] == 3.0 * st.scored[u] + -e.neg
                    else after.scored[u] == st.scored[u])
              && (u in after.why <==> u in st.why)
              && (u in st.why ==>
                    && Tidy(after.why[u])
                    && after.why[u] == if HasChildDir(cs, e.uri, u) then st.why[u] + "|parent" else st.why[u])
    {
      ExpandAt(cs, e.uri, -e.neg, st, u);
      ChildrenAreThere(cs, e.uri, u);
      if u in st.why { TidyIsMarked(st.why[u]); }
      hide HasChild, HasChildDir, HasUri, IsDirectory;
    }
    hide HasChild, HasChildDir;
  }

  lemma HeapRound(cs: seq<Candidate>, e: Entry, st: State, expanded: State)
    requires Distinct(cs) && e in st.heap && expanded == Expand(cs, e.uri, -e.neg, Visited(Popped(st, e), e))
    requires forall x :: x in st.heap ==> IsDirectory(cs, x.uri)
    ensures HeapMoves(cs, e, st, expanded) && forall x :: x in expanded.heap ==> IsDirectory(cs, x.uri)
  {
    hide Expand, Distinct, HasChild, HasChildDir, IsDirectory, HasUri;
    forall x: Entry
      ensures expanded.heap[x] + (if x == e then 1 else 0)
              == st.heap[x] + if HasChildDir(cs, e.uri, x.uri) && x.uri in expanded.scored
                                 && expanded.scored[x.uri] == -x.neg then 1 else 0
      ensures x in expanded.heap ==> IsDirectory(cs, x.uri)
    {
      ExpansionPushesOnce(cs, e, Visited(Popped(st, e), e), x);
      ChildrenAreThere(cs, e.uri, x.uri);
    }
  }

  lemma VisitedShape(st: State, e: Entry)
    requires e.uri in st.why
    ensures var now := Visited(Popped(st, e), e);
            && now.scored == st.scored && now.why == st.why && now.steps == st.steps + 1
            && now.trajectory == st.trajectory + [Visit(e.uri, -e.neg, st.why[e.uri])]
  {
  }

  lemma RoundFrom(cs: seq<Candidate>, e: Entry, st: State, expanded: State, after: State)
    requires ComesFirst(st.heap, e) && e.uri in st.why && expanded.steps == st.steps + 1
    requires expanded.trajectory == st.trajectory + [Visit(e.uri, -e.neg, st.why[e.uri])]
    requires ScoresMove(cs, e, st.scored, expanded.scored) && ReasonsMove(cs, e, st.why, expanded.why)
    requires HeapMoves(cs, e, st, expanded)
    requires after == expanded.(lastTop := after.lastTop, stable := after.stable)
    ensures Round(cs, e, st, after)
  {
    hide ScoresMove, ReasonsMove, ComesFirst, HasChildDir;
  }

  lemma SteadyFrom(cs: seq<Candidate>, e: Entry, st: State, expanded: State, after: State)
    requires Steady(cs, st)
    requires ScoresMove(cs, e, st.scored, expanded.scored) && ReasonsMove(cs, e, st.why, expanded.why)
    requires forall u :: u in expanded.why ==> Tidy(expanded.why[u])
    requires forall x :: x in expanded.heap ==> IsDirectory(cs, x.uri)
    requires after == expanded.(lastTop := after.lastTop, stable := after.stable)
    ensures Steady(cs, after)
  {
    assert expanded.scored.Keys == st.scored.Keys && expanded.why.Keys == st.why.Keys;
    hide ScoresMove, ReasonsMove, Tidy, IsDirectory, HasUri;
    forall u ensures (u in after.scored <==> u in st.scored) && (u in after.why <==> u in st.why) {
      assert u in after.scored.Keys <==> u in st.scored.Keys;
      assert u in after.why.Keys <==> u in st.why.Keys;
    }
  }

  lemma SteadyMeans(cs: seq<Candidate>, st: State)
    requires Steady(cs, st) && st.heap != multiset{}
    ensures Least(st.heap) in st.heap && Least(st.heap).uri in st.why
    ensures forall x :: x in st.heap ==> IsDirectory(cs, x.uri)
  {
    LeastIsThere(st.heap);
    ChildrenAreThere(cs, "", Least(st.heap).uri);
    hide HasUri, IsDirectory, Least, Tidy;
  }

  lemma StepIsRound(cs: seq<Candidate>, st: State)
    requires Distinct(cs) && Steady(cs, st) && st.heap != multiset{}
    ensures var e := Least(st.heap);
            Round(cs, e, st, Step(cs, st, e)) && Steady(cs, Step(cs, st, e))
  {
    var e := Least(st.heap);
    var now := Visited(Popped(st, e), e);
    var expanded := Expand(cs, e.uri, -e.neg, now);
    var after := Step(cs, st, e);
    assert after == Noted(expanded) by { hide Noted, Expand, Visited, Popped; }
    SteadyVisit(cs, st, e);
    hide *;
    SteadyMeans(cs, st);
    VisitedShape(st, e);
    LeastComesFirst(st.heap);
    ExpandKeepsCount(cs, e.uri, -e.neg, now);
    NotedKeeps(expanded);
    ScoresAndReasonsMove(cs, e, now);
    HeapRound(cs, e, st, expanded);
    RoundFrom(cs, e, st, expanded, after);
    SteadyFrom(cs, e, st, expanded, after);
  }

  lemma SteadyVisit(cs: seq<Candidate>, st: State, e: Entry)
    requires Steady(cs, st)
    ensures Steady(cs, Visited(Popped(st, e), e))
  {
    hide HasUri, IsDirectory, Tidy;
    assert forall x :: x in st.heap - multiset{e} ==> x in st.heap;
  }

  // ---------- When the walk stops ----------

  /** The eight best, in order: every candidate left out comes after the last of them. */
  lemma TopIsBest(scored: map<string, real>, u: string)
    requires u in scored
    ensures var top := Top(scored);
            && |top| == (if |scored| < 8 then |scored| else 8)
            && (forall i, j :: 0 <= i < j < |top| ==>
                  && top[i] in scored && top[j] in scored
                  && (scored[top[i]] > scored[top[j]] || (scored[top[i]] == scored[top[j]] && Less(top[i], top[j]))))
            && (u !in top ==>
                  forall i :: 0 <= i < |top| ==>
                                && top[i] in scored
                                && (scored[top[i]] > scored[u] || (scored[top[i]] == scored[u] && Less(top[i], u))))
  {
    var ranked, top := Rank(scored), Top(scored);
    RankListsKeys(scored, u);
    var k :| 0 <= k < |ranked| && ranked[k] == u;
    hide Rank;
    forall i, j | 0 <= i < j < |ranked|
      ensures ranked[i] in scored && ranked[j] in scored
              && (scored[ranked[i]] > scored[ranked[j]]
                  || (scored[ranked[i]] == scored[ranked[j]] && Less(ranked[i], ranked[j])))
    {
      RankIsSorted(scored, i, j);
    }
    assert k < |top| ==> top[k] == u;
  }

  /** After round m the eight best are what they were after each of the three rounds before. */
  predicate Settled(states: seq<State>, m: nat)
    requires m < |states|
  {
    && m >= 4
    && Top(states[m - 3].scored) == Top(states[m - 2].scored) == Top(states[m - 1].scored) == Top(states[m].scored)
  }

  ghost predicate OneRound(cs: seq<Candidate>, before: State, after: State) { exists e :: Round(cs, e, before, after) }

  ghost predicate Rounds(cs: seq<Candidate>, states: seq<State>) {
    forall i :: 0 < i < |states| ==> OneRound(cs, states[i - 1], states[i])
  }

  /** What the counter of stable rounds knows of the states so far. */
  predicate Watched(states: seq<State>)
    requires states != []
  {
    var n := |states| - 1;
    var st := states[n];
    && st.steps == n
    && (n == 0 ==> st.lastTop == None && st.stable == 0)
    && (n > 0 ==>
          && st.lastTop == Some(Top(st.scored)) && st.stable < n
          && (forall i :: n - st.stable <= i <= n ==> Top(states[i].scored) == Top(st.scored))
          && (n - st.stable > 1 ==> Top(states[n - st.stable - 1].scored) != Top(st.scored)))
  }

  lemma NotingWatches(states: seq<State>, st: State)
    requires states != [] && Watched(states) && st.steps == |states|
    requires st.lastTop == states[|states| - 1].lastTop && st.stable == states[|states| - 1].stable
    ensures Watched(states + [Noted(st)])
    ensures Converged(Noted(st)) <==> Noted(st).stable >= 3
  {
    hide Top;
    var all, n := states + [Noted(st)], |states|;
    assert all[n] == Noted(st) && Noted(st).scored == st.scored;
    if n == 1 { assert Noted(st).stable == 0; }
  }

  lemma WatchedIsSettled(states: seq<State>)
    requires states != [] && Watched(states)
    ensures Settled(states, |states| - 1) <==> states[|states| - 1].stable >= 3
  {
    hide Top;
    var n := |states| - 1;
    var s := states[n].stable;
    if s >= 3 { assert n - s <= n - 3 && n >= 4; }
    if s < 3 && n >= 4 { assert n - 3 <= n - s - 1 < n; }
  }

  lemma StepWatches(cs: seq<Candidate>, states: seq<State>, e: Entry)
    requires states != [] && Watched(states)
    ensures var next := Step(cs, states[|states| - 1], e);
            Watched(states + [next]) && (Converged(next) <==> Settled(states + [next], |states|))
  {
    var st := states[|states| - 1];
    var expanded := Expand(cs, e.uri, -e.neg, Visited(Popped(st, e), e));
    ExpandKeepsCount(cs, e.uri, -e.neg, Visited(Popped(st, e), e));
    NotingWatches(states, expanded);
    hide Expand, Noted, Settled, Converged;
    WatchedIsSettled(states + [Noted(expanded)]);
  }

  predicate Unsettled(states: seq<State>, n: nat)
    requires n <= |states|
  {
    forall m :: 0 <= m < n ==> !Settled(states, m)
  }

  lemma SettledBefore(states: seq<State>, next: State)
    requires Unsettled(states, |states|)
    ensures Unsettled(states + [next], |states|)
  {
    hide Top;
    var all := states + [next];
    forall m | 0 <= m < |states| ensures !Settled(all, m) {
      assert !Settled(states, m);
      assert forall i :: 0 <= i <= m ==> all[i] == states[i];
    }
  }

  lemma OneMoreRound(cs: seq<Candidate>, states: seq<State>, e: Entry, next: State)
    requires states != [] && Rounds(cs, states) && Round(cs, e, states[|states| - 1], next)
    ensures Rounds(cs, states + [next])
  {
    assert OneRound(cs, states[|states| - 1], next) by { hide Round; }
    hide OneRound;
    var all := states + [next];
    assert forall i :: 0 <= i < |states| ==> all[i] == states[i];
  }

  lemma WatchedSteps(states: seq<State>)
    requires states != [] && Watched(states)
    ensures states[|states| - 1].steps == |states| - 1
  {
    hide Top;
  }

  /** The loop goes on in rounds until the heap is empty, 32 rounds are done, or the best have settled. */
  lemma {:induction false} LoopGoesOn(cs: seq<Candidate>, byUri: map<string, Candidate>, states: seq<State>)
    returns (all: seq<State>)
    requires Distinct(cs) && forall u :: u in byUri <==> HasUri(cs, u)
    requires states != [] && Rounds(cs, states) && Watched(states) && Steady(cs, states[|states| - 1])
    requires Unsettled(states, |states|) && |states| <= 33
    ensures |states| <= |all| && all[0] == states[0] && all[|all| - 1] == Loop(cs, byUri, states[|states| - 1])
    ensures Rounds(cs, all) && Unsettled(all, |all| - 1)
    ensures var n := |all| - 1;
            n <= 32 && (all[n].heap == multiset{} || n == 32 || Settled(all, n))
    decreases 33 - |states|
  {
    hide *;
    var st := states[|states| - 1];
    all := states;
    LoopEnds(cs, byUri, st);
    WatchedSteps(states);
    TheCap(st);
    if st.heap != multiset{} && st.steps < MAX_EXPANSIONS {
      var e := Least(st.heap);
      var next := Step(cs, st, e);
      LoopUnfolds(cs, byUri, st);
      KnownToAll(cs, byUri, st);
      StepIsRound(cs, st);
      StepWatches(cs, states, e);
      SettledBefore(states, next);
      OneMoreRound(cs, states, e, next);
      all := states + [next];
      assert all[|states|] == next && all[0] == states[0];
      if !Converged(next) {
        StillUnsettled(all);
        all := LoopGoesOn(cs, byUri, all);
      }
    } else {
      UnsettledBefore(all);
    }
  }

  lemma TheCap(st: State)
    ensures st.steps >= MAX_EXPANSIONS <==> st.steps >= 32
  {
  }

  lemma UnsettledBefore(states: seq<State>)
    requires states != [] && Unsettled(states, |states|)
    ensures Unsettled(states, |states| - 1)
  {
    hide Settled;
  }

  lemma StillUnsettled(states: seq<State>)
    requires states != [] && Unsettled(states, |states| - 1) && !Settled(states, |states| - 1)
    ensures Unsettled(states, |states|)
  {
    hide Settled;
  }

  lemma KnownToAll(cs: seq<Candidate>, byUri: map<string, Candidate>, st: State)
    requires Steady(cs, st) && st.heap != multiset{} && forall u :: u in byUri <==> HasUri(cs, u)
    ensures Least(st.heap).uri in byUri
  {
    LeastIsThere(st.heap);
    ChildrenAreThere(cs, "", Least(st.heap).uri);
    hide HasUri, Least;
  }

  lemma StartIsWatched(st: State)
    requires st.lastTop == None && st.stable == st.steps == 0
    ensures Watched([st]) && Unsettled([st], 1)
  {
    hide Top;
  }

  lemma KnownAtStart(q: Query, cs: seq<Candidate>, u: string)
    requires Distinct(cs)
    ensures (u in Start(q, cs).scored <==> HasUri(cs, u)) && (u in Start(q, cs).why <==> HasUri(cs, u))
  {
    hide *;
    StartShape(q, cs);
    TableOf(cs, ScoreFrom(q, Table(cs, OriginOf(q, Fuse(Streams(q, cs))))), u);
    TableOf(cs, WhyFrom(q), u);
  }

  lemma StartIsSteady(q: Query, cs: seq<Candidate>)
    requires Distinct(cs)
    ensures Steady(cs, Start(q, cs))
  {
    var start := Start(q, cs);
    hide Table, Fuse, Streams, PushAll, Start, Distinct, IsDirectory, Tidy, HasUri;
    StartShape(q, cs);
    PushesDirectories(cs, cs, start.scored);
    forall u ensures (u in start.scored <==> HasUri(cs, u)) && (u in start.why <==> HasUri(cs, u)) {
      KnownAtStart(q, cs, u);
    }
    forall u | u in start.why ensures Tidy(start.why[u]) { StartsTidy(q, cs, u); }
  }

  lemma StartsTidy(q: Query, cs: seq<Candidate>, u: string)
    requires Distinct(cs) && HasUri(cs, u) && u in Start(q, cs).why
    ensures Tidy(Start(q, cs).why[u])
  {
    hide Start, Distinct;
    var c :| c in cs && c.uri == u;
    ReasonsStartAs(q, cs, c);
  }

  /**
   * A walk over candidates with distinct URIs, start to end: every round expands a best entry of the heap; it
   * stops after the first round that leaves the eight best as they were for three rounds, after 32 rounds, or
   * when nothing is left to expand.
   */
  lemma WalkIsRounds(q: Query, cs: seq<Candidate>) returns (states: seq<State>)
    requires Distinct(cs)
    ensures states != [] && states[0] == Start(q, cs) && states[|states| - 1] == Finish(q, cs)
    ensures Rounds(cs, states) && Unsettled(states, |states| - 1)
    ensures var n := |states| - 1;
            n <= 32 && (states[n].heap == multiset{} || n == 32 || Settled(states, n))
  {
    hide *;
    var start := Start(q, cs);
    StartShape(q, cs);
    StartIsSteady(q, cs);
    StartIsWatched(start);
    NoRounds(cs, start);
    TableKnowsAll(cs);
    FinishIs(q, cs);
    states := LoopGoesOn(cs, Table(cs, Itself()), [start]);
  }

  lemma NoRounds(cs: seq<Candidate>, st: State)
    ensures Rounds(cs, [st])
  {
  }

  lemma FinishIs(q: Query, cs: seq<Candidate>)
    ensures Finish(q, cs) == Loop(cs, Table(cs, Itself()), Start(q, cs))
  {
    hide Loop, Table, Start;
  }

  lemma TableKnowsAll(cs: seq<Candidate>)
    requires Distinct(cs)
    ensures forall u :: u in Table(cs, Itself()) <==> HasUri(cs, u)
  {
    forall u ensures u in Table(cs, Itself()) <==> HasUri(cs, u) {
      hide *;
      TableOf(cs, Itself(), u);
    }
  }

  // ---------- What the packer is given ----------

  lemma {:induction false} KnownByTable(keys: seq<string>, byUri: map<string, Candidate>)
    requires forall k :: k in keys ==> k in byUri
    ensures |Known(keys, byUri)| == |keys|
    ensures forall i :: 0 <= i < |keys| ==> Known(keys, byUri)[i] == byUri[keys[i]]
  {
    if keys != [] {
      assert keys[0] in keys;
      KnownByTable(keys[1..], byUri);
    }
  }

  lemma RoundKeepsKeys(cs: seq<Candidate>, before: State, after: State)
    requires OneRound(cs, before, after)
    ensures after.scored.Keys == before.scored.Keys
  {
    hide HeapMoves, ReasonsMove, ComesFirst, HasChild, HasChildDir;
  }

  lemma {:induction false} RoundsKeepKeys(cs: seq<Candidate>, states: seq<State>, i: nat)
    requires i < |states| && Rounds(cs, states)
    ensures states[i].scored.Keys == states[0].scored.Keys
  {
    hide OneRound;
    if i > 0 {
      RoundsKeepKeys(cs, states, i - 1);
      RoundKeepsKeys(cs, states[i - 1], states[i]);
    }
  }

  /** The final scores are those of the candidates. */
  lemma ScoredAtEnd(q: Query, cs: seq<Candidate>, u: string)
    requires Distinct(cs)
    ensures u in Finish(q, cs).scored <==> HasUri(cs, u)
  {
    hide *;
    var states := WalkIsRounds(q, cs);
    RoundsKeepKeys(cs, states, |states| - 1);
    KnownAtStart(q, cs, u);
    assert u in states[0].scored.Keys <==> u in states[|states| - 1].scored.Keys;
  }

  lemma OrderedIs(q: Query, cs: seq<Candidate>, i: nat)
    requires Distinct(cs)
    ensures var items, ranked := Ordered(q, cs), Rank(Finish(q, cs).scored);
            && |items| == |ranked| && (i < |items| ==> items[i] in cs && items[i].uri == ranked[i])
  {
    var byUri, ranked := Table(cs, Itself()), Rank(Finish(q, cs).scored);
    assert Ordered(q, cs) == Known(ranked, byUri) by { hide Table, Known, Rank, Finish; }
    hide Table, Rank, Finish, Distinct, Ordered, HasUri, Known;
    forall k | k in ranked ensures k in byUri {
      RankListsKeys(Finish(q, cs).scored, k);
      ScoredAtEnd(q, cs, k);
      TableOf(cs, Itself(), k);
    }
    KnownByTable(ranked, byUri);
    if i < |ranked| {
      TableOf(cs, Itself(), ranked[i]);
      assert ranked[i] in ranked;
      CandidateOf(cs, byUri, ranked[i]);
    }
  }

  lemma CandidateOf(cs: seq<Candidate>, byUri: map<string, Candidate>, u: string)
    requires HasUri(cs, u) && u in byUri && forall c :: c in cs ==> c.uri in byUri && byUri[c.uri] == c
    ensures byUri[u] in cs && byUri[u].uri == u
  {
  }

  /** The packer is given every candidate once, the best final score first and equal ones by name. */
  lemma OrderedByScore(q: Query, cs: seq<Candidate>, i: nat, j: nat, c: Candidate)
    requires Distinct(cs) && c in cs
    ensures var items, scored := Ordered(q, cs), Finish(q, cs).scored;
            && c in items && (i < |items| ==> items[i] in cs)
            && (i < j < |items| ==>
                  var a, b := items[i].uri, items[j].uri;
                  && a in scored && b in scored
                  && (scored[a] > scored[b] || (scored[a] == scored[b] && Less(a, b))))
  {
    var items, scored := Ordered(q, cs), Finish(q, cs).scored;
    var ranked := Rank(scored);
    assert HasUri(cs, c.uri);
    DistinctMeans(cs);
    hide *;
    ScoredAtEnd(q, cs, c.uri);
    RankListsKeys(scored, c.uri);
    OrderedIs(q, cs, 0);
    var k :| 0 <= k < |ranked| && ranked[k] == c.uri;
    OrderedIs(q, cs, k);
    assert items[k] == c;
    if i < |ranked| { OrderedIs(q, cs, i); }
    if i < j < |ranked| {
      OrderedIs(q, cs, j);
      RankIsSorted(scored, i, j);
    }
  }
}
