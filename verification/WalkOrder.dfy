/**
 * What the walk promises: the order of the candidates does not matter when their URIs differ, and no
 * score leaves the range of the initial scores, however often stale entries are expanded again.
 */
module WalkOrder {
  import opened Wrappers
  import opened StringOrder
  import opened Ranking
  import opened Packing
  import opened Walk

  predicate Distinct(cs: seq<Candidate>) {
    forall i, j :: 0 <= i < j < |cs| ==> cs[i].uri != cs[j].uri
  }

  predicate SameMembers(a: seq<Candidate>, b: seq<Candidate>) {
    (forall c :: c in a ==> c in b) && (forall c :: c in b ==> c in a)
  }

  /** The same candidates, no two with one URI, in another order. */
  predicate Reordered(a: seq<Candidate>, b: seq<Candidate>) { Distinct(a) && Distinct(b) && SameMembers(a, b) }

  // ---------- Sorting ----------

  predicate InOrder(q: Query, s: seq<Candidate>) {
    forall i, j :: 0 <= i < j < |s| ==> Ahead(q, s[i], s[j])
  }

  lemma AheadIsTotal(q: Query, a: Candidate, b: Candidate)
    requires a.uri != b.uri
    ensures Ahead(q, a, b) || Ahead(q, b, a)
  {
    LessIsTotal(a.uri, b.uri);
  }

  lemma AheadIsStrict(q: Query, a: Candidate, b: Candidate)
    requires Ahead(q, a, b)
    ensures !Ahead(q, b, a) && a != b
  {
    if FullOverlap(q, a) == FullOverlap(q, b) { LessIsStrict(a.uri, b.uri); }
  }

  lemma AheadIsTransitive(q: Query, a: Candidate, b: Candidate, c: Candidate)
    requires Ahead(q, a, b) && Ahead(q, b, c)
    ensures Ahead(q, a, c)
  {
    if FullOverlap(q, a) == FullOverlap(q, b) == FullOverlap(q, c) { LessIsTransitive(a.uri, b.uri, c.uri); }
  }

  lemma OrderExtends(q: Query, s: seq<Candidate>, c: Candidate)
    requires InOrder(q, s) && (s != [] ==> Ahead(q, s[|s| - 1], c))
    ensures InOrder(q, s + [c])
  {
    forall i | 0 <= i < |s| ensures Ahead(q, s[i], c) {
      if i < |s| - 1 { AheadIsTransitive(q, s[i], s[|s| - 1], c); }
    }
  }

  lemma {:induction false} InsertKeepsOrder(q: Query, s: seq<Candidate>, c: Candidate)
    requires InOrder(q, s) && forall d :: d in s ==> d.uri != c.uri
    ensures InOrder(q, Insert(q, s, c)) && forall d :: d in Insert(q, s, c) <==> d in s || d == c
  {
    if s == [] || !Ahead(q, c, s[|s| - 1]) {
      if s != [] { AheadIsTotal(q, s[|s| - 1], c); }
      hide Ahead, InOrder;
      OrderExtends(q, s, c);
    } else {
      var before, last := s[..|s| - 1], s[|s| - 1];
      InsertKeepsOrder(q, before, c);
      var inserted := Insert(q, before, c);
      assert s == before + [last] && Insert(q, s, c) == inserted + [last];
      assert forall d :: d in before ==> Ahead(q, d, last);
      assert inserted != [] ==> inserted[|inserted| - 1] in inserted;
      hide Ahead, InOrder, Insert;
      OrderExtends(q, inserted, last);
    }
  }

  lemma {:induction false} SortedIsInOrder(q: Query, cs: seq<Candidate>)
    requires Distinct(cs)
    ensures InOrder(q, Sorted(q, cs)) && SameMembers(Sorted(q, cs), cs)
  {
    if cs != [] {
      var before, last := cs[..|cs| - 1], cs[|cs| - 1];
      SortedIsInOrder(q, before);
      assert cs == before + [last];
      assert forall d :: d in before ==> d.uri != last.uri;
      hide InOrder, Insert, Ahead, Distinct;
      InsertKeepsOrder(q, Sorted(q, before), last);
    }
  }

  lemma InOrderRest(q: Query, s: seq<Candidate>)
    requires InOrder(q, s) && s != []
    ensures InOrder(q, s[1..]) && forall d :: d in s[1..] <==> d in s && d != s[0]
    ensures forall d :: d in s ==> d == s[0] || Ahead(q, s[0], d)
  {
    assert s == [s[0]] + s[1..];
    forall d | d in s[1..] ensures d != s[0] && Ahead(q, s[0], d) {
      AheadIsStrict(q, s[0], d);
    }
  }

  /** Two lists of the same candidates in the same strict order are equal. */
  lemma {:induction false} InOrderOnce(q: Query, a: seq<Candidate>, b: seq<Candidate>)
    requires InOrder(q, a) && InOrder(q, b) && SameMembers(a, b)
    ensures a == b
  {
    assert b != [] ==> b[0] in b;
    if a != [] {
      assert a[0] in a && a[0] in b;
      assert b[0] in b && b[0] in a;
      InOrderRest(q, a);
      InOrderRest(q, b);
      hide InOrder, Ahead;
      if a[0] != b[0] {
        AheadIsStrict(q, a[0], b[0]);
      }
      InOrderOnce(q, a[1..], b[1..]);
      assert a == [a[0]] + a[1..] && b == [b[0]] + b[1..];
    }
  }

  lemma SortingIgnoresOrder(q: Query, a: seq<Candidate>, b: seq<Candidate>)
    requires Reordered(a, b)
    ensures Sorted(q, a) == Sorted(q, b)
  {
    SortedIsInOrder(q, a);
    SortedIsInOrder(q, b);
    hide InOrder, Sorted, Distinct;
    InOrderOnce(q, Sorted(q, a), Sorted(q, b));
  }

  // ---------- Tables and heaps ----------

  predicate HasUri(cs: seq<Candidate>, uri: string) { exists c :: c in cs && c.uri == uri }

  lemma {:induction false} TableOf<T>(cs: seq<Candidate>, entry: Candidate -> T, uri: string)
    requires Distinct(cs)
    ensures forall c :: c in cs ==> c.uri in Table(cs, entry) && Table(cs, entry)[c.uri] == entry(c)
    ensures uri in Table(cs, entry) <==> HasUri(cs, uri)
  {
    if cs != [] {
      var before, last := cs[..|cs| - 1], cs[|cs| - 1];
      TableOf(before, entry, uri);
      assert cs == before + [last];
      if HasUri(before, uri) {
        var c :| c in before && c.uri == uri;
        assert c in cs;
      }
      if uri == last.uri { assert last in cs; }
      forall c | c in cs ensures c.uri in Table(cs, entry) && Table(cs, entry)[c.uri] == entry(c) {
        if c != last { assert c in before; }
      }
    }
  }

  lemma TablesIgnoreOrder<T>(a: seq<Candidate>, b: seq<Candidate>, entry: Candidate -> T)
    requires Reordered(a, b)
    ensures Table(a, entry) == Table(b, entry)
  {
    forall uri ensures uri in Table(a, entry) <==> uri in Table(b, entry) {
      TableOf(a, entry, uri);
      TableOf(b, entry, uri);
    }
    forall uri | uri in Table(a, entry) ensures Table(a, entry)[uri] == Table(b, entry)[uri] {
      TableOf(a, entry, uri);
      TableOf(b, entry, uri);
      var c :| c in a && c.uri == uri;
      assert c in b;
    }
  }

  lemma {:induction false} PushOneOut(cs: seq<Candidate>, i: nat, entries: Candidate -> multiset<Entry>)
    requires i < |cs|
    ensures PushAll(cs, entries) == PushAll(cs[..i] + cs[i + 1..], entries) + entries(cs[i])
  {
    var n := |cs| - 1;
    if i == n {
      assert cs[..i] + cs[i + 1..] == cs[..n];
    } else {
      PushOneOut(cs[..n], i, entries);
      var out := cs[..i] + cs[i + 1..];
      assert out[..n - 1] == cs[..n][..i] + cs[..n][i + 1..] && out[n - 1] == cs[n];
    }
  }

  lemma WithoutOne(cs: seq<Candidate>, i: nat)
    requires Distinct(cs) && i < |cs|
    ensures var out := cs[..i] + cs[i + 1..];
            Distinct(out) && forall c :: c in out <==> c in cs && c != cs[i]
  {
    var out := cs[..i] + cs[i + 1..];
    assert forall j :: 0 <= j < |out| ==> out[j] == cs[if j < i then j else j + 1];
    forall c | c in cs && c != cs[i] ensures c in out {
      var j :| 0 <= j < |cs| && cs[j] == c;
      assert out[if j < i then j else j - 1] == c;
    }
  }

  lemma {:induction false} PushesIgnoreOrder(a: seq<Candidate>, b: seq<Candidate>, entries: Candidate -> multiset<Entry>)
    requires Reordered(a, b)
    ensures PushAll(a, entries) == PushAll(b, entries)
  {
    assert b != [] ==> b[0] in b;
    if a != [] {
      var n := |a| - 1;
      assert a[n] in a;
      var i :| 0 <= i < |b| && b[i] == a[n];
      WithoutOne(a, n);
      WithoutOne(b, i);
      assert a[..n] + a[n + 1..] == a[..n];
      hide Distinct;
      PushOneOut(b, i, entries);
      PushesIgnoreOrder(a[..n], b[..i] + b[i + 1..], entries);
    }
  }

  // ---------- Expanding ----------

  predicate HasChild(cs: seq<Candidate>, parent: string, uri: string) {
    exists c :: c in cs && c.parent == Some(parent) && c.uri == uri
  }

  predicate HasChildDir(cs: seq<Candidate>, parent: string, uri: string) {
    exists c :: c in cs && c.parent == Some(parent) && c.uri == uri && c.isDir
  }

  /** Three quarters of the score so far, and one quarter of the parent's. */
  function Blended(st: State, uri: string, parent: real): real { (3.0 * ScoreOr0(st.scored, uri) + parent) / 4.0 }

  function Marked(st: State, uri: string): string { StripBars(TextOr(st.why, uri, "") + "|parent") }

  /** The entries that the children of a directory push, from the scores before the expansion. */
  function ChildEntry(uri: string, parent: real, st: State): Candidate -> multiset<Entry> {
    (c: Candidate) =>
      if c.parent == Some(uri) && c.isDir then multiset{Entry(-Blended(st, c.uri, parent), c.uri)} else multiset{}
  }

  /**
   * With distinct URIs an expansion is one simultaneous update: every child is blended once, from the
   * score it had before, which weighs three times as much as its parent's.
   */
  lemma {:induction false} ExpandAt(cs: seq<Candidate>, uri: string, parent: real, st: State, u: string)
    requires Distinct(cs)
    ensures var after := Expand(cs, uri, parent, st);
            && (u in after.scored <==> u in st.scored || HasChild(cs, uri, u))
            && (HasChild(cs, uri, u) ==> 4.0 * after.scored[u] == 3.0 * ScoreOr0(st.scored, u) + parent)
            && (u in st.scored && !HasChild(cs, uri, u) ==> after.scored[u] == st.scored[u])
            && (u in after.why <==> u in st.why || HasChildDir(cs, uri, u))
            && (u in after.why ==>
                  after.why[u] == if HasChildDir(cs, uri, u) then Marked(st, u) else TextOr(st.why, u, ""))
  {
    if cs != [] {
      var before, last := cs[..|cs| - 1], cs[|cs| - 1];
      ExpandAt(before, uri, parent, st, u);
      ChildrenGrow(cs, uri, u);
      assert Expand(cs, uri, parent, st) == Blend(last, uri, parent, Expand(before, uri, parent, st));
      ChildScoreIs(ScoreOr0(Expand(before, uri, parent, st).scored, last.uri), parent, WALK_ALPHA);
      hide HasChild, HasChildDir, Distinct, Expand, ChildScore, StripBars;
    }
  }

  lemma ChildrenGrow(cs: seq<Candidate>, uri: string, u: string)
    requires cs != [] && Distinct(cs)
    ensures var before, last := cs[..|cs| - 1], cs[|cs| - 1];
            && Distinct(before)
            && (last.uri == u ==> !HasChild(before, uri, u) && !HasChildDir(before, uri, u))
            && (HasChild(cs, uri, u) <==> HasChild(before, uri, u) || (last.parent == Some(uri) && last.uri == u))
            && (HasChildDir(cs, uri, u)
                <==> HasChildDir(before, uri, u) || (last.parent == Some(uri) && last.uri == u && last.isDir))
  {
    var before, last := cs[..|cs| - 1], cs[|cs| - 1];
    assert cs == before + [last];
    assert last in cs;
    assert forall c :: c in before ==> c in cs && c.uri != last.uri;
    hide Distinct;
  }

  /** A candidate that comes after all its namesakes still has its score from before. */
  lemma ScoreUntouched(cs: seq<Candidate>, uri: string, parent: real, st: State, last: Candidate)
    requires Distinct(cs) && !HasChild(cs, uri, last.uri)
    ensures ScoreOr0(Expand(cs, uri, parent, st).scored, last.uri) == ScoreOr0(st.scored, last.uri)
  {
    ExpandAt(cs, uri, parent, st, last.uri);
    hide Expand, HasChild, Distinct, ChildScore;
  }

  lemma BlendPushes(last: Candidate, uri: string, parent: real, st: State, middle: State)
    requires last.parent == Some(uri) ==> ScoreOr0(middle.scored, last.uri) == ScoreOr0(st.scored, last.uri)
    ensures Blend(last, uri, parent, middle).heap == middle.heap + ChildEntry(uri, parent, st)(last)
  {
    ChildScoreIs(ScoreOr0(middle.scored, last.uri), parent, WALK_ALPHA);
    hide ScoreOr0, ChildScore, StripBars;
  }

  lemma {:induction false} ExpandPushes(cs: seq<Candidate>, uri: string, parent: real, st: State)
    requires Distinct(cs)
    ensures Expand(cs, uri, parent, st).heap == st.heap + PushAll(cs, ChildEntry(uri, parent, st))
  {
    if cs != [] {
      hide HasChild, HasChildDir, Distinct, ChildEntry, Blend, ScoreOr0;
      var before, last := cs[..|cs| - 1], cs[|cs| - 1];
      var middle := Expand(before, uri, parent, st);
      ChildrenGrow(cs, uri, last.uri);
      ExpandPushes(before, uri, parent, st);
      if last.parent == Some(uri) { ScoreUntouched(before, uri, parent, st, last); }
      BlendPushes(last, uri, parent, st, middle);
      assert Expand(cs, uri, parent, st) == Blend(last, uri, parent, middle);
    }
  }

  lemma SameChildren(a: seq<Candidate>, b: seq<Candidate>, parent: string, uri: string)
    requires SameMembers(a, b)
    ensures HasChild(a, parent, uri) <==> HasChild(b, parent, uri)
    ensures HasChildDir(a, parent, uri) <==> HasChildDir(b, parent, uri)
  {
  }

  lemma ExpansionIgnoresOrder(a: seq<Candidate>, b: seq<Candidate>, uri: string, parent: real, st: State)
    requires Reordered(a, b)
    ensures Expand(a, uri, parent, st) == Expand(b, uri, parent, st)
  {
    var after, other := Expand(a, uri, parent, st), Expand(b, uri, parent, st);
    ExpandKeepsCount(a, uri, parent, st);
    ExpandKeepsCount(b, uri, parent, st);
    ExpandPushes(a, uri, parent, st);
    ExpandPushes(b, uri, parent, st);
    PushesIgnoreOrder(a, b, ChildEntry(uri, parent, st));
    hide Expand, HasChild, HasChildDir, PushAll, Blended, Marked;
    forall u ensures (u in after.scored <==> u in other.scored) && (u in after.why <==> u in other.why)
    {
      ExpandAt(a, uri, parent, st, u);
      ExpandAt(b, uri, parent, st, u);
      SameChildren(a, b, uri, u);
    }
    forall u | u in after.scored ensures after.scored[u] == other.scored[u] {
      ExpandAt(a, uri, parent, st, u);
      ExpandAt(b, uri, parent, st, u);
      SameChildren(a, b, uri, u);
    }
    forall u | u in after.why ensures after.why[u] == other.why[u] {
      ExpandAt(a, uri, parent, st, u);
      ExpandAt(b, uri, parent, st, u);
      SameChildren(a, b, uri, u);
    }
    assert after.scored == other.scored && after.why == other.why;
  }

  lemma {:induction false} LoopIgnoresOrder(a: seq<Candidate>, b: seq<Candidate>, byUri: map<string, Candidate>, st: State)
    requires Reordered(a, b)
    ensures Loop(a, byUri, st) == Loop(b, byUri, st)
    decreases MAX_EXPANSIONS - st.steps, |st.heap|
  {
    hide Loop, Expand, Converged, Reordered, IsLeast;
    LoopEnds(a, byUri, st);
    LoopEnds(b, byUri, st);
    if st.heap != multiset{} && st.steps < MAX_EXPANSIONS {
      LoopUnfolds(a, byUri, st);
      LoopUnfolds(b, byUri, st);
      var e := Least(st.heap);
      LeastIsThere(st.heap);
      if e.uri !in byUri {
        LoopIgnoresOrder(a, b, byUri, Popped(st, e));
      } else {
        ExpansionIgnoresOrder(a, b, e.uri, -e.neg, Visited(Popped(st, e), e));
        assert Step(a, st, e) == Step(b, st, e);
        StepCounts(a, st, e);
        LoopIgnoresOrder(a, b, byUri, Step(a, st, e));
      }
    }
  }

  lemma StartIgnoresOrder(q: Query, a: seq<Candidate>, b: seq<Candidate>)
    requires Reordered(a, b)
    ensures Start(q, a) == Start(q, b)
  {
    SortingIgnoresOrder(q, a, b);
    assert Streams(q, a) == Streams(q, b);
    var origin := OriginOf(q, Fuse(Streams(q, a)));
    TablesIgnoreOrder(a, b, origin);
    TablesIgnoreOrder(a, b, ScoreFrom(q, Table(a, origin)));
    TablesIgnoreOrder(a, b, WhyFrom(q));
    var scored := InitialScores(q, a);
    assert scored == InitialScores(q, b);
    PushesIgnoreOrder(a, b, DirectoryEntry(scored));
    hide Table, Streams, Fuse, PushAll, OriginOf, ScoreFrom, WhyFrom, DirectoryEntry, Reordered;
  }

  lemma EndIgnoresOrder(q: Query, a: seq<Candidate>, b: seq<Candidate>)
    requires Reordered(a, b)
    ensures Finish(q, a) == Finish(q, b) && Ordered(q, a) == Ordered(q, b)
  {
    StartIgnoresOrder(q, a, b);
    TablesIgnoreOrder(a, b, Itself());
    LoopIgnoresOrder(a, b, Table(a, Itself()), Start(q, a));
    hide Loop, Start, Table, Reordered;
  }

  /** Any two orderings of candidates with distinct URIs give the same hits, trajectory and token count. */
  lemma WalkIgnoresOrder(q: Query, a: seq<Candidate>, b: seq<Candidate>, budget: int,
                         hits: seq<Hit>, trajectory: seq<Visit>, tokens: int,
                         otherHits: seq<Hit>, otherTrajectory: seq<Visit>, otherTokens: int)
    requires Reordered(a, b)
    ensures IsResult(q, a, budget, hits, trajectory, tokens)
            && IsResult(q, b, budget, otherHits, otherTrajectory, otherTokens) ==>
              hits == otherHits && trajectory == otherTrajectory && tokens == otherTokens
  {
    EndIgnoresOrder(q, a, b);
    hide Finish, Ordered, Fill, Wishes, Cost, Reordered;
    if IsResult(q, a, budget, hits, trajectory, tokens)
       && IsResult(q, b, budget, otherHits, otherTrajectory, otherTokens) {
      SamePackedHits(hits, otherHits, Finish(q, a).scored, Finish(q, a).why);
    }
  }

  lemma SamePackedHits(hits: seq<Hit>, other: seq<Hit>, scores: map<string, real>, why: map<string, string>)
    requires Packed(hits) == Packed(other) && Labelled(hits, scores, why) && Labelled(other, scores, why)
    ensures hits == other
  {
    assert |hits| == |Packed(hits)| == |other|;
    forall i | 0 <= i < |hits| ensures hits[i] == other[i] {
      assert Packed(hits)[i] == Packed(other)[i];
    }
  }

  // ---------- Bounds ----------

  predicate ScoresWithin(scored: map<string, real>, low: real, high: real) {
    forall uri :: uri in scored ==> low <= scored[uri] <= high
  }

  predicate HeapWithin(heap: multiset<Entry>, low: real, high: real) {
    forall e :: e in heap ==> low <= -e.neg <= high
  }

  predicate TrajectoryWithin(trajectory: seq<Visit>, low: real, high: real) {
    forall i :: 0 <= i < |trajectory| ==> low <= trajectory[i].score <= high
  }

  predicate Within(st: State, low: real, high: real) {
    ScoresWithin(st.scored, low, high) && HeapWithin(st.heap, low, high) && TrajectoryWithin(st.trajectory, low, high)
  }

  predicate AllScored(cs: seq<Candidate>, scored: map<string, real>) { forall c :: c in cs ==> c.uri in scored }

  lemma BlendKeepsBounds(c: Candidate, uri: string, parent: real, st: State, low: real, high: real)
    requires Within(st, low, high) && low <= parent <= high && c.uri in st.scored
    ensures Within(Blend(c, uri, parent, st), low, high) && st.scored.Keys == Blend(c, uri, parent, st).scored.Keys
  {
    BlendStaysBetween(st.scored[c.uri], parent, WALK_ALPHA);
    hide ChildScore, StripBars;
  }

  lemma {:induction false} ExpandKeepsBounds(cs: seq<Candidate>, uri: string, parent: real, st: State, low: real, high: real)
    requires Within(st, low, high) && low <= parent <= high && AllScored(cs, st.scored)
    ensures Within(Expand(cs, uri, parent, st), low, high)
    ensures st.scored.Keys == Expand(cs, uri, parent, st).scored.Keys
  {
    if cs != [] {
      var before, last := cs[..|cs| - 1], cs[|cs| - 1];
      assert last in cs;
      ExpandKeepsBounds(before, uri, parent, st, low, high);
      hide Within, Blend;
      BlendKeepsBounds(last, uri, parent, Expand(before, uri, parent, st), low, high);
    }
  }

  lemma PoppedKeepsBounds(st: State, low: real, high: real)
    requires Within(st, low, high) && st.heap != multiset{}
    ensures var e := Least(st.heap);
            && low <= -e.neg <= high && Within(Popped(st, e), low, high)
            && Within(Visited(Popped(st, e), e), low, high)
  {
    var e := Least(st.heap);
    LeastIsThere(st.heap);
    hide Least, IsLeast;
    assert forall other :: other in st.heap - multiset{e} ==> other in st.heap;
  }

  lemma {:induction false} LoopKeepsBounds(cs: seq<Candidate>, byUri: map<string, Candidate>, st: State, low: real, high: real)
    requires Within(st, low, high) && AllScored(cs, st.scored)
    ensures Within(Loop(cs, byUri, st), low, high)
    decreases MAX_EXPANSIONS - st.steps, |st.heap|
  {
    hide Loop, Expand, Converged, IsLeast, Within;
    LoopEnds(cs, byUri, st);
    if st.heap != multiset{} && st.steps < MAX_EXPANSIONS {
      LoopUnfolds(cs, byUri, st);
      var e := Least(st.heap);
      LeastIsThere(st.heap);
      PoppedKeepsBounds(st, low, high);
      if e.uri !in byUri {
        LoopKeepsBounds(cs, byUri, Popped(st, e), low, high);
      } else {
        var now := Visited(Popped(st, e), e);
        ExpandKeepsBounds(cs, e.uri, -e.neg, now, low, high);
        NotedKeepsBounds(Expand(cs, e.uri, -e.neg, now), low, high);
        StepCounts(cs, st, e);
        LoopKeepsBounds(cs, byUri, Step(cs, st, e), low, high);
      }
    }
  }

  lemma NotedKeepsBounds(st: State, low: real, high: real)
    requires Within(st, low, high)
    ensures Within(Noted(st), low, high)
  {
    hide Top;
  }

  lemma {:induction false} TableCovers<T>(cs: seq<Candidate>, entry: Candidate -> T)
    ensures forall c :: c in cs ==> c.uri in Table(cs, entry)
  {
    if cs != [] {
      TableCovers(cs[..|cs| - 1], entry);
      assert cs == cs[..|cs| - 1] + [cs[|cs| - 1]];
    }
  }

  lemma {:induction false} PushesStayWithin(cs: seq<Candidate>, scored: map<string, real>, low: real, high: real)
    requires AllScored(cs, scored) && ScoresWithin(scored, low, high)
    ensures HeapWithin(PushAll(cs, DirectoryEntry(scored)), low, high)
  {
    if cs != [] {
      assert cs[|cs| - 1] in cs;
      PushesStayWithin(cs[..|cs| - 1], scored, low, high);
    }
  }

  /** Whatever bounds hold of the initial scores hold of every final score and of every score on the way. */
  lemma ScoresStayInRange(q: Query, cs: seq<Candidate>, low: real, high: real)
    requires ScoresWithin(InitialScores(q, cs), low, high)
    ensures ScoresWithin(Finish(q, cs).scored, low, high) && TrajectoryWithin(Finish(q, cs).trajectory, low, high)
  {
    var origin := Table(cs, OriginOf(q, Fuse(Streams(q, cs))));
    TableCovers(cs, ScoreFrom(q, origin));
    var scored := InitialScores(q, cs);
    assert scored == Table(cs, ScoreFrom(q, origin));
    hide Table, InitialScores, Streams;
    PushesStayWithin(cs, scored, low, high);
    assert Within(Start(q, cs), low, high);
    hide Loop, PushAll;
    LoopKeepsBounds(cs, Table(cs, Itself()), Start(q, cs), low, high);
  }

  // ---------- Termination ----------

  predicate IsDirectory(cs: seq<Candidate>, uri: string) { exists c :: c in cs && c.uri == uri && c.isDir }

  /** The heap and the trajectory hold directories only, and each expansion is counted. */
  predicate Counted(cs: seq<Candidate>, st: State) {
    && (forall e :: e in st.heap ==> IsDirectory(cs, e.uri))
    && (forall i :: 0 <= i < |st.trajectory| ==> IsDirectory(cs, st.trajectory[i].uri))
    && |st.trajectory| == st.steps <= MAX_EXPANSIONS
  }

  lemma {:induction false} ExpandPushesDirectories(some: seq<Candidate>, cs: seq<Candidate>, uri: string, parent: real, st: State)
    requires Counted(cs, st) && forall c :: c in some ==> c in cs
    ensures Counted(cs, Expand(some, uri, parent, st))
  {
    ExpandKeepsCount(some, uri, parent, st);
    if some != [] {
      var last := some[|some| - 1];
      assert last in some;
      ExpandPushesDirectories(some[..|some| - 1], cs, uri, parent, st);
      hide ChildScore, StripBars;
    }
  }

  lemma {:induction false} LoopCounts(cs: seq<Candidate>, byUri: map<string, Candidate>, st: State)
    requires Counted(cs, st)
    ensures Counted(cs, Loop(cs, byUri, st))
    decreases MAX_EXPANSIONS - st.steps, |st.heap|
  {
    hide Loop, Expand, Converged, IsLeast, IsDirectory;
    LoopEnds(cs, byUri, st);
    if st.heap != multiset{} && st.steps < MAX_EXPANSIONS {
      LoopUnfolds(cs, byUri, st);
      var e := Least(st.heap);
      LeastIsThere(st.heap);
      assert forall other :: other in st.heap - multiset{e} ==> other in st.heap;
      if e.uri !in byUri {
        LoopCounts(cs, byUri, Popped(st, e));
      } else {
        var now := Visited(Popped(st, e), e);
        ExpandPushesDirectories(cs, cs, e.uri, -e.neg, now);
        StepCounts(cs, st, e);
        LoopCounts(cs, byUri, Step(cs, st, e));
      }
    }
  }

  lemma {:induction false} PushesDirectories(some: seq<Candidate>, cs: seq<Candidate>, scored: map<string, real>)
    requires forall c :: c in some ==> c in cs
    ensures forall e :: e in PushAll(some, DirectoryEntry(scored)) ==> IsDirectory(cs, e.uri)
  {
    if some != [] {
      assert some[|some| - 1] in some;
      PushesDirectories(some[..|some| - 1], cs, scored);
    }
  }

  /** A walk expands at most 32 times, stale entries counted, and only directories among its candidates. */
  lemma WalkIsBounded(q: Query, cs: seq<Candidate>)
    ensures |Finish(q, cs).trajectory| <= MAX_EXPANSIONS
    ensures forall i :: 0 <= i < |Finish(q, cs).trajectory| ==> IsDirectory(cs, Finish(q, cs).trajectory[i].uri)
  {
    PushesDirectories(cs, cs, InitialScores(q, cs));
    assert Counted(cs, Start(q, cs));
    hide Loop, PushAll, Table, InitialScores;
    LoopCounts(cs, Table(cs, Itself()), Start(q, cs));
  }
}
