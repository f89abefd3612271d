/**
 * The retrieval walk: a best-first expansion of directories that blends the scores of children with the
 * score their parent had when it was pushed, so that stale heap entries are expanded again.
 */
module Walk {
  import opened Wrappers
  import opened StringOrder
  import opened Ranking
  import opened Packing

  const MAX_EXPANSIONS := 32
  const CONVERGENCE_ROUNDS := 3
  const TOP_K := 8
  const WALK_ALPHA := 0.75

  /** The term overlap of a text with the query, the final score of an origin score, and the text ranking. */
  datatype Query = Query(overlap: string -> real, finish: (real, Candidate) -> real, fts: seq<string>)

  function FullOverlap(q: Query, c: Candidate): real { q.overlap(c.path + " " + c.l0 + " " + c.l1) }

  function ShortOverlap(q: Query, c: Candidate): real { q.overlap(c.path + " " + c.l0) }

  // ---------- Initial scores ----------

  predicate Ahead(q: Query, a: Candidate, b: Candidate) {
    FullOverlap(q, a) > FullOverlap(q, b) || (FullOverlap(q, a) == FullOverlap(q, b) && Less(a.uri, b.uri))
  }

  function Insert(q: Query, sorted: seq<Candidate>, c: Candidate): seq<Candidate> {
    if sorted == [] || !Ahead(q, c, sorted[|sorted| - 1]) then sorted + [c]
    else Insert(q, sorted[..|sorted| - 1], c) + [sorted[|sorted| - 1]]
  }

  /** The candidates sorted by overlap, then URI; a stable sort. */
  function Sorted(q: Query, cs: seq<Candidate>): seq<Candidate> {
    if cs == [] then [] else Insert(q, Sorted(q, cs[..|cs| - 1]), cs[|cs| - 1])
  }

  function TermIds(q: Query, sorted: seq<Candidate>): seq<string> {
    if sorted == [] then []
    else TermIds(q, sorted[..|sorted| - 1])
         + if ShortOverlap(q, sorted[|sorted| - 1]) != 0.0 then [sorted[|sorted| - 1].uri] else []
  }

  function Streams(q: Query, cs: seq<Candidate>): seq<seq<string>> {
    [TermIds(q, Sorted(q, cs))] + if q.fts != [] then [q.fts] else []
  }

  /** The dictionary that a loop over the candidates fills, the last of equal URIs winning. */
  function Table<T>(cs: seq<Candidate>, entry: Candidate -> T): map<string, T> {
    if cs == [] then map[] else Table(cs[..|cs| - 1], entry)[cs[|cs| - 1].uri := entry(cs[|cs| - 1])]
  }

  function OriginOf(q: Query, fused: map<string, real>): Candidate -> real {
    (c: Candidate) => 0.6 * ScoreOr0(fused, c.uri) + 0.4 * FullOverlap(q, c)
  }

  function ScoreFrom(q: Query, origin: map<string, real>): Candidate -> real {
    (c: Candidate) => q.finish(ScoreOr0(origin, c.uri), c)
  }

  function WhyFrom(q: Query): Candidate -> string {
    (c: Candidate) =>
      if c.uri in q.fts then (if FullOverlap(q, c) > 0.0 then "fts|term" else "fts")
      else if FullOverlap(q, c) > 0.0 then "term" else "prior"
  }

  function Itself(): Candidate -> Candidate { (c: Candidate) => c }

  function InitialScores(q: Query, cs: seq<Candidate>): map<string, real> {
    Table(cs, ScoreFrom(q, Table(cs, OriginOf(q, Fuse(Streams(q, cs))))))
  }

  // ---------- The heap ----------

  /** A directory with the negated score it had when it was pushed. */
  datatype Entry = Entry(neg: real, uri: string)

  predicate Sooner(a: Entry, b: Entry) { a.neg < b.neg || (a.neg == b.neg && Less(a.uri, b.uri)) }

  predicate IsLeast(heap: multiset<Entry>, e: Entry) {
    e in heap && forall other :: other in heap && other != e ==> Sooner(e, other)
  }

  lemma OneLeast(heap: multiset<Entry>, a: Entry, b: Entry)
    requires IsLeast(heap, a) && IsLeast(heap, b)
    ensures a == b
  {
    if a != b && a.neg == b.neg { LessIsStrict(a.uri, b.uri); }
  }

  lemma {:induction false} LeastExists(heap: multiset<Entry>) returns (least: Entry)
    requires heap != multiset{}
    ensures IsLeast(heap, least)
    decreases |heap|
  {
    var e :| e in heap;
    var rest := heap - multiset{e};
    assert forall other :: other in heap && other != e ==> other in rest;
    if rest == multiset{} {
      least := e;
    } else {
      least := LeastExists(rest);
      LessIsTotal(e.uri, least.uri);
      if e != least && !Sooner(least, e) {
        forall other | other in heap && other != e ensures Sooner(e, other) {
          if other != least && e.neg == least.neg == other.neg {
            LessIsTransitive(e.uri, least.uri, other.uri);
          }
        }
        least := e;
      }
    }
  }

  lemma ExactlyOneLeast(heap: multiset<Entry>)
    requires heap != multiset{}
    ensures exists least :: IsLeast(heap, least)
    ensures forall a, b :: IsLeast(heap, a) && IsLeast(heap, b) ==> a == b
  {
    var least := LeastExists(heap);
    forall a, b | IsLeast(heap, a) && IsLeast(heap, b) ensures a == b { OneLeast(heap, a, b); }
  }

  /** What popping the heap returns. */
  function Least(heap: multiset<Entry>): (e: Entry)
    requires heap != multiset{}
    ensures IsLeast(heap, e)
  {
    ExactlyOneLeast(heap);
    var e :| e in heap && IsLeast(heap, e);
    e
  }

  function PushAll(cs: seq<Candidate>, entries: Candidate -> multiset<Entry>): multiset<Entry> {
    if cs == [] then multiset{} else PushAll(cs[..|cs| - 1], entries) + entries(cs[|cs| - 1])
  }

  function DirectoryEntry(scored: map<string, real>): Candidate -> multiset<Entry> {
    (c: Candidate) => if c.isDir then multiset{Entry(-ScoreOr0(scored, c.uri), c.uri)} else multiset{}
  }

  // ---------- The expansion ----------

  datatype Visit = Visit(uri: string, score: real, why: string)

  datatype State = State(
    scored: map<string, real>, why: map<string, string>, heap: multiset<Entry>, trajectory: seq<Visit>,
    lastTop: Option<seq<string>>, stable: nat, steps: nat)

  function StripBars(s: string): string {
    if s != "" && s[0] == '|' then StripBars(s[1..])
    else if s != "" && s[|s| - 1] == '|' then StripBars(s[..|s| - 1])
    else s
  }

  function TextOr(why: map<string, string>, uri: string, default: string): string {
    if uri in why then why[uri] else default
  }

  /** One candidate in the loop over the children of an expanded directory. */
  function Blend(c: Candidate, uri: string, parent: real, st: State): State {
    if c.parent != Some(uri) then st
    else
      var blended := ChildScore(ScoreOr0(st.scored, c.uri), parent, WALK_ALPHA);
      var scored := st.(scored := st.scored[c.uri := blended]);
      if !c.isDir then scored
      else scored.(heap := st.heap + multiset{Entry(-blended, c.uri)},
                   why := st.why[c.uri := StripBars(TextOr(st.why, c.uri, "") + "|parent")])
  }

  function Expand(cs: seq<Candidate>, uri: string, parent: real, st: State): State {
    if cs == [] then st else Blend(cs[|cs| - 1], uri, parent, Expand(cs[..|cs| - 1], uri, parent, st))
  }

  function Visited(st: State, e: Entry): State {
    st.(steps := st.steps + 1,
        trajectory := st.trajectory + [Visit(e.uri, -e.neg, TextOr(st.why, e.uri, "parent"))])
  }

  function Top(scored: map<string, real>): seq<string> {
    var ranked := Rank(scored);
    if |ranked| <= TOP_K then ranked else ranked[..TOP_K]
  }

  function Noted(st: State): State {
    if st.lastTop == Some(Top(st.scored)) then st.(stable := st.stable + 1)
    else st.(stable := 0, lastTop := Some(Top(st.scored)))
  }

  predicate Converged(st: State) { st.lastTop == Some(Top(st.scored)) && st.stable >= CONVERGENCE_ROUNDS }

  function Popped(st: State, e: Entry): State { st.(heap := st.heap - multiset{e}) }

  function Step(cs: seq<Candidate>, st: State, e: Entry): State {
    Noted(Expand(cs, e.uri, -e.neg, Visited(Popped(st, e), e)))
  }

  lemma StepCounts(cs: seq<Candidate>, st: State, e: Entry)
    ensures Step(cs, st, e).steps == st.steps + 1
  {
    ExpandKeepsCount(cs, e.uri, -e.neg, Visited(Popped(st, e), e));
  }

  lemma {:induction false} ExpandKeepsCount(cs: seq<Candidate>, uri: string, parent: real, st: State)
    ensures var after := Expand(cs, uri, parent, st);
            after.steps == st.steps && after.lastTop == st.lastTop && after.stable == st.stable
            && after.trajectory == st.trajectory
  {
    if cs != [] { ExpandKeepsCount(cs[..|cs| - 1], uri, parent, st); }
  }

  function Loop(cs: seq<Candidate>, byUri: map<string, Candidate>, st: State): State
    decreases MAX_EXPANSIONS - st.steps, |st.heap|
  {
    if st.heap == multiset{} || st.steps >= MAX_EXPANSIONS then st
    else
      var e := Least(st.heap);
      if e.uri !in byUri then Loop(cs, byUri, Popped(st, e))
      else
        StepCounts(cs, st, e);
        var after := Step(cs, st, e);
        if Converged(after) then after else Loop(cs, byUri, after)
  }

  function Start(q: Query, cs: seq<Candidate>): State {
    var scored := InitialScores(q, cs);
    State(scored, Table(cs, WhyFrom(q)), PushAll(cs, DirectoryEntry(scored)), [], None, 0, 0)
  }

  function Known(keys: seq<string>, byUri: map<string, Candidate>): seq<Candidate> {
    if keys == [] then []
    else (if keys[0] in byUri then [byUri[keys[0]]] else []) + Known(keys[1..], byUri)
  }

  function Finish(q: Query, cs: seq<Candidate>): State { Loop(cs, Table(cs, Itself()), Start(q, cs)) }

  /** What the walk hands to the packer. */
  function Ordered(q: Query, cs: seq<Candidate>): seq<Candidate> {
    Known(Rank(Finish(q, cs).scored), Table(cs, Itself()))
  }

  // ---------- The walk ----------

  lemma TableGrows<T>(cs: seq<Candidate>, i: nat, entry: Candidate -> T)
    requires i < |cs|
    ensures Table(cs[..i + 1], entry) == Table(cs[..i], entry)[cs[i].uri := entry(cs[i])]
  {
    assert cs[..i + 1][..i] == cs[..i];
  }

  lemma PushGrows(cs: seq<Candidate>, i: nat, entries: Candidate -> multiset<Entry>)
    requires i < |cs|
    ensures PushAll(cs[..i + 1], entries) == PushAll(cs[..i], entries) + entries(cs[i])
  {
    assert cs[..i + 1][..i] == cs[..i];
  }

  method Origins(q: Query, cs: seq<Candidate>, fused: map<string, real>) returns (origin: map<string, real>)
    ensures origin == Table(cs, OriginOf(q, fused))
  {
    ghost var entry := OriginOf(q, fused);
    hide Table, ScoreOr0, FullOverlap;
    origin := map[];
    TableOfNone(entry);
    var i := 0;
    while i < |cs|
      invariant 0 <= i <= |cs| && origin == Table(cs[..i], entry)
    {
      TableGrows(cs, i, entry);
      origin := origin[cs[i].uri := 0.6 * ScoreOr0(fused, cs[i].uri) + 0.4 * FullOverlap(q, cs[i])];
      i := i + 1;
    }
    assert cs[..|cs|] == cs;
  }

  lemma TableOfNone<T>(entry: Candidate -> T)
    ensures Table([], entry) == map[]
  {
  }

  /** The scores that candidates start the walk with. */
  method Score(q: Query, cs: seq<Candidate>) returns (scored: map<string, real>)
    ensures scored == InitialScores(q, cs)
  {
    var streams := [TermIds(q, Sorted(q, cs))];
    if q.fts != [] { streams := streams + [q.fts]; }
    assert streams == Streams(q, cs);
    var fused := RrfFuse(streams);
    var origin := Origins(q, cs, fused);
    ghost var entry := ScoreFrom(q, origin);
    assert InitialScores(q, cs) == Table(cs, entry);
    hide Sorted, TermIds, Streams, Fuse, Table, ScoreOr0, FullOverlap, InitialScores, OriginOf;
    scored := map[];
    TableOfNone(entry);
    var i := 0;
    while i < |cs|
      invariant 0 <= i <= |cs| && scored == Table(cs[..i], entry)
    {
      TableGrows(cs, i, entry);
      scored := scored[cs[i].uri := q.finish(ScoreOr0(origin, cs[i].uri), cs[i])];
      i := i + 1;
    }
    assert cs[..|cs|] == cs;
  }

  method Reasons(q: Query, cs: seq<Candidate>) returns (why: map<string, string>)
    ensures why == Table(cs, WhyFrom(q))
  {
    ghost var entry := WhyFrom(q);
    hide Table, FullOverlap;
    why := map[];
    TableOfNone(entry);
    var i := 0;
    while i < |cs|
      invariant 0 <= i <= |cs| && why == Table(cs[..i], entry)
    {
      TableGrows(cs, i, entry);
      var fts, term := cs[i].uri in q.fts, FullOverlap(q, cs[i]) > 0.0;
      var reasons := if fts && term then "fts|term" else if fts then "fts" else if term then "term" else "";
      why := why[cs[i].uri := if reasons == "" then "prior" else reasons];
      i := i + 1;
    }
    assert cs[..|cs|] == cs;
  }

  method PushDirectories(cs: seq<Candidate>, scored: map<string, real>) returns (heap: multiset<Entry>)
    ensures heap == PushAll(cs, DirectoryEntry(scored))
  {
    ghost var entries := DirectoryEntry(scored);
    heap := multiset{};
    assert heap == PushAll([], entries);
    hide PushAll, ScoreOr0;
    var i := 0;
    while i < |cs|
      invariant 0 <= i <= |cs| && heap == PushAll(cs[..i], entries)
    {
      PushGrows(cs, i, entries);
      if cs[i].isDir {
        heap := heap + multiset{Entry(-ScoreOr0(scored, cs[i].uri), cs[i].uri)};
      } else {
        assert heap + multiset{} == heap;
      }
      i := i + 1;
    }
    assert cs[..|cs|] == cs;
  }

  /** Blends every child of an expanded directory, pushing the directories among them again. */
  method ExpandDirectory(cs: seq<Candidate>, uri: string, parent: real, st: State) returns (after: State)
    ensures after == Expand(cs, uri, parent, st)
  {
    var scored, why, heap := st.scored, st.why, st.heap;
    for i := 0 to |cs|
      invariant st.(scored := scored, why := why, heap := heap) == Expand(cs[..i], uri, parent, st)
    {
      assert cs[..i + 1][..i] == cs[..i];
      var child := cs[i];
      if child.parent == Some(uri) {
        var blended := ChildScore(ScoreOr0(scored, child.uri), parent, WALK_ALPHA);
        scored := scored[child.uri := blended];
        if child.isDir {
          heap := heap + multiset{Entry(-blended, child.uri)};
          why := why[child.uri := StripBars((if child.uri in why then why[child.uri] else "") + "|parent")];
        }
      }
    }
    assert cs[..|cs|] == cs;
    after := st.(scored := scored, why := why, heap := heap);
  }

  lemma LoopUnfolds(cs: seq<Candidate>, byUri: map<string, Candidate>, st: State)
    requires st.heap != multiset{} && st.steps < MAX_EXPANSIONS
    ensures var e := Least(st.heap);
            Loop(cs, byUri, st)
            == if e.uri !in byUri then Loop(cs, byUri, Popped(st, e))
               else if Converged(Step(cs, st, e)) then Step(cs, st, e)
               else Loop(cs, byUri, Step(cs, st, e))
  {
  }

  /** Expands one popped entry; done says that the best candidates have been the same for long enough. */
  method ExpandNext(cs: seq<Candidate>, before: State, e: Entry) returns (st: State, done: bool)
    ensures st == Step(cs, before, e) && (done <==> Converged(st))
  {
    hide Expand, Top;
    st := before.(heap := before.heap - multiset{e}, steps := before.steps + 1,
                  trajectory := before.trajectory + [Visit(e.uri, -e.neg, TextOr(before.why, e.uri, "parent"))]);
    assert st == Visited(Popped(before, e), e);
    st := ExpandDirectory(cs, e.uri, -e.neg, st);
    assert Noted(st) == Step(cs, before, e);
    var top := Top(st.scored);
    if Some(top) == st.lastTop {
      st := st.(stable := st.stable + 1);
      return st, st.stable >= CONVERGENCE_ROUNDS;
    }
    st := st.(stable := 0, lastTop := Some(top));
    return st, false;
  }

  method Traverse(cs: seq<Candidate>, byUri: map<string, Candidate>, start: State) returns (st: State)
    ensures st == Loop(cs, byUri, start)
  {
    st := start;
    while st.heap != multiset{} && st.steps < MAX_EXPANSIONS
      invariant Loop(cs, byUri, st) == Loop(cs, byUri, start)
      decreases MAX_EXPANSIONS - st.steps, |st.heap|
    {
      hide Loop, Expand, Top, IsLeast, Step, Converged;
      LoopUnfolds(cs, byUri, st);
      var e := Least(st.heap);
      LeastIsThere(st.heap);
      if e.uri !in byUri {
        st := st.(heap := st.heap - multiset{e});
      } else {
        StepCounts(cs, st, e);
        var done;
        st, done := ExpandNext(cs, st, e);
        if done { return; }
      }
    }
    LoopEnds(cs, byUri, st);
  }

  lemma LoopEnds(cs: seq<Candidate>, byUri: map<string, Candidate>, st: State)
    ensures st.heap == multiset{} || st.steps >= MAX_EXPANSIONS ==> Loop(cs, byUri, st) == st
  {
  }

  lemma LeastIsThere(heap: multiset<Entry>)
    requires heap != multiset{}
    ensures Least(heap) in heap
  {
  }

  /** The result of a walk: the final ranking, packed into the budget, and the expansions in order. */
  predicate IsResult(q: Query, cs: seq<Candidate>, budget: int, hits: seq<Hit>, trajectory: seq<Visit>, tokens: int) {
    var end := Finish(q, cs);
    var cap := if budget > 1 then budget else 1;
    && Packed(hits) == Fill(Wishes(Ordered(q, cs)), cap) && tokens == Cost(Packed(hits)) <= cap
    && Labelled(hits, end.scored, end.why) && trajectory == end.trajectory
  }

  method Walk(q: Query, cs: seq<Candidate>, budget: int)
    returns (hits: seq<Hit>, trajectory: seq<Visit>, tokens: int)
    ensures IsResult(q, cs, budget, hits, trajectory, tokens)
  {
    var byUri: map<string, Candidate> := map[];
    for i := 0 to |cs|
      invariant byUri == Table(cs[..i], Itself())
    {
      TableGrows(cs, i, Itself());
      byUri := byUri[cs[i].uri := cs[i]];
    }
    assert cs[..|cs|] == cs;
    var scored := Score(q, cs);
    var why := Reasons(q, cs);
    var heap := PushDirectories(cs, scored);
    var st := Traverse(cs, byUri, State(scored, why, heap, [], None, 0, 0));
    assert st == Finish(q, cs);
    trajectory := st.trajectory;
    hits, tokens := PackBudget(Known(Rank(st.scored), byUri), st.scored, st.why, budget);
  }
}
