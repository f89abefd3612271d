/** The limiter over any run of calls whose clock readings never go back. */
module LimiterRuns {
  import opened Limiter

  datatype Call = Record(peer: string, now: real) | Clear(peer: string) | RetryAfter(peer: string, now: real)

  /**
   * The table with its history since each peer was last added: the times of its failures that were let
   * pass, and of all its failures. uses lists the peers in the order in which they were used.
   */
  datatype System = System(
    table: Table, now: real, passed: map<string, seq<real>>, failures: map<string, multiset<real>>, uses: seq<string>)

  function Begin(): System { System(Table([], map[]), 0.0, map[], map[], []) }

  predicate Fits(s: System, call: Call) { call.Clear? || s.now <= call.now }

  function Only<T>(m: map<string, T>, keys: set<string>): map<string, T> { map p | p in m && p in keys :: m[p] }

  function PassedOf(s: System, peer: string): seq<real> { if peer in s.passed then s.passed[peer] else [] }

  function FailuresOf(s: System, peer: string): multiset<real> {
    if peer in s.failures then s.failures[peer] else multiset{}
  }

  /** The history of the peers that a new table still knows. */
  function Keep(s: System, table: Table, now: real): System {
    System(table, now, Only(s.passed, table.events.Keys), Only(s.failures, table.events.Keys), s.uses)
  }

  function Next(c: Config, s: System, call: Call): System {
    if !Fits(s, call) then s
    else match call
      case Record(peer, now) =>
        var kept := Keep(s, Recorded(c, s.table, peer, now), now);
        var passed := PassedOf(kept, peer) + (if Refused(c, s.table, peer, now) then [] else [now]);
        kept.(passed := kept.passed[peer := passed],
              failures := kept.failures[peer := FailuresOf(kept, peer) + multiset{now}], uses := s.uses + [peer])
      case Clear(peer) => Keep(s, Cleared(s.table, peer), s.now)
      case RetryAfter(peer, now) => Keep(s, Touched(c, s.table, peer, now), now).(uses := s.uses + [peer])
  }

  function Run(c: Config, calls: seq<Call>): System {
    if calls == [] then Begin()
    else Next(c, Run(c, calls[..|calls| - 1]), calls[|calls| - 1])
  }

  // ---------- Counting ----------

  function CountAfter(times: seq<real>, x: real): nat {
    if times == [] then 0
    else CountAfter(times[..|times| - 1], x) + if times[|times| - 1] > x then 1 else 0
  }

  predicate Ascending(times: seq<real>) { forall i, j :: 0 <= i < j < |times| ==> times[i] <= times[j] }

  lemma {:induction false} CountOfTail(times: seq<real>, x: real)
    requires times != []
    ensures CountAfter(times, x) == CountAfter(times[1..], x) + if times[0] > x then 1 else 0
  {
    if |times| > 1 {
      var n := |times| - 1;
      CountOfTail(times[..n], x);
      assert times[1..][..n - 1] == times[..n][1..] && times[1..][n - 1] == times[n];
    } else {
      assert times[1..] == [] && times[..0] == [];
    }
  }

  /** Dropping old failures keeps the later ones, in order. */
  lemma {:induction false} RecentKeepsCounts(times: seq<real>, cutoff: real, x: real)
    requires cutoff <= x
    ensures CountAfter(Recent(times, cutoff), x) == CountAfter(times, x)
  {
    if times != [] && times[0] <= cutoff {
      RecentKeepsCounts(times[1..], cutoff, x);
      CountOfTail(times, x);
    }
  }

  lemma {:induction false} RecentIsSuffix(times: seq<real>, cutoff: real)
    requires Ascending(times)
    ensures var recent := Recent(times, cutoff);
            && |recent| <= |times| && recent == times[|times| - |recent|..]
            && Ascending(recent) && (forall i :: 0 <= i < |recent| ==> recent[i] > cutoff)
            && multiset(recent) <= multiset(times)
  {
    if times != [] && times[0] <= cutoff {
      RecentIsSuffix(times[1..], cutoff);
      assert times == [times[0]] + times[1..];
    }
  }

  lemma {:induction false} CountIsLength(times: seq<real>, x: real)
    requires forall i :: 0 <= i < |times| ==> times[i] > x
    ensures CountAfter(times, x) == |times|
  {
    if times != [] { CountIsLength(times[..|times| - 1], x); }
  }

  lemma {:induction false} LateOnesCount(times: seq<real>, i: nat, x: real)
    requires Ascending(times) && i < |times| && times[i] > x
    ensures CountAfter(times, x) >= |times| - i
  {
    var n := |times| - 1;
    if i < n {
      LateOnesCount(times[..n], i, x);
    }
  }

  lemma {:induction false} CountShrinks(times: seq<real>, x: real, y: real)
    requires x <= y
    ensures CountAfter(times, y) <= CountAfter(times, x)
  {
    if times != [] { CountShrinks(times[..|times| - 1], x, y); }
  }

  // ---------- The invariant ----------

  /** No span shorter than the window holds more than the limit. */
  predicate Sparse(c: Config, passed: seq<real>) {
    forall i, j :: 0 <= i <= j < |passed| && passed[j] - passed[i] < c.window ==> j - i + 1 <= c.failureLimit
  }

  /** The queue of a peer: sorted, bounded, and only of its own failures. */
  predicate QueueOk(c: Config, events: seq<real>, failures: multiset<real>, now: real) {
    && Ascending(events) && |events| <= c.failureLimit + 1 && multiset(events) <= failures
    && forall i :: 0 <= i < |events| ==> events[i] <= now
  }

  predicate PassedOk(c: Config, passed: seq<real>, now: real) {
    Ascending(passed) && Sparse(c, passed) && forall i :: 0 <= i < |passed| ==> passed[i] <= now
  }

  /** Every failure that was let pass and is still in the window is still in the queue. */
  ghost predicate Backed(c: Config, events: seq<real>, passed: seq<real>, now: real) {
    forall x :: x >= now - c.window ==> CountAfter(passed, x) <= CountAfter(events, x)
  }

  ghost predicate PeerOk(c: Config, events: seq<real>, passed: seq<real>, failures: multiset<real>, now: real) {
    QueueOk(c, events, failures, now) && PassedOk(c, passed, now) && Backed(c, events, passed, now)
  }

  ghost predicate PeersOk(c: Config, s: System) {
    forall p :: p in s.table.events ==> PeerOk(c, s.table.events[p], PassedOf(s, p), FailuresOf(s, p), s.now)
  }

  predicate HistoryOk(s: System) {
    s.passed.Keys <= s.table.events.Keys && s.failures.Keys <= s.table.events.Keys
  }

  ghost predicate Inv(c: Config, s: System) {
    Valid(s.table) && |s.table.order| <= c.peerLimit && HistoryOk(s) && PeersOk(c, s)
  }

  lemma CountOfOneMore(times: seq<real>, t: real, x: real)
    ensures CountAfter(times + [t], x) == CountAfter(times, x) + if t > x then 1 else 0
  {
    assert (times + [t])[..|times|] == times;
  }

  /** Time passing, and old failures being dropped, do no harm. */
  lemma PeerAges(c: Config, events: seq<real>, passed: seq<real>, failures: multiset<real>, now: real, later: real)
    requires PeerOk(c, events, passed, failures, now) && now <= later
    ensures PeerOk(c, events, passed, failures, later)
    ensures PeerOk(c, Recent(events, later - c.window), passed, failures, later)
  {
    QueueAges(c, events, failures, now, later);
    assert PassedOk(c, passed, later);
    assert Backed(c, events, passed, later);
    var recent := Recent(events, later - c.window);
    forall x | x >= later - c.window ensures CountAfter(passed, x) <= CountAfter(recent, x) {
      RecentKeepsCounts(events, later - c.window, x);
    }
    hide QueueOk, PassedOk, CountAfter, Recent;
  }

  lemma QueueAges(c: Config, events: seq<real>, failures: multiset<real>, now: real, later: real)
    requires QueueOk(c, events, failures, now) && now <= later
    ensures QueueOk(c, events, failures, later) && QueueOk(c, Recent(events, later - c.window), failures, later)
  {
    RecentIsSuffix(events, later - c.window);
    hide Recent, Ascending;
    SuffixIsEarlier(events, Recent(events, later - c.window), later);
  }

  lemma SuffixIsEarlier(events: seq<real>, recent: seq<real>, later: real)
    requires |recent| <= |events| && recent == events[|events| - |recent|..]
    requires forall i :: 0 <= i < |events| ==> events[i] <= later
    ensures forall i :: 0 <= i < |recent| ==> recent[i] <= later
  {
  }

  lemma AscendingGrows(times: seq<real>, t: real)
    requires Ascending(times) && forall i :: 0 <= i < |times| ==> times[i] <= t
    ensures Ascending(times + [t])
  {
  }

  /** One more failure that is let pass: fewer than the limit are within the window. */
  lemma SparseGrows(c: Config, recent: seq<real>, passed: seq<real>, now: real)
    requires Ascending(passed) && Sparse(c, passed) && |recent| < c.failureLimit
    requires forall i :: 0 <= i < |passed| ==> passed[i] <= now
    requires CountAfter(passed, now - c.window) <= |recent|
    ensures Sparse(c, passed + [now])
  {
    var all := passed + [now];
    hide CountAfter;
    forall i, j | 0 <= i <= j < |all| && all[j] - all[i] < c.window ensures j - i + 1 <= c.failureLimit {
      if i < j == |passed| {
        LateOnesCount(passed, i, now - c.window);
      }
    }
  }

  /** One more failure of a peer whose old failures have just been dropped. */
  lemma PeerFails(c: Config, recent: seq<real>, passed: seq<real>, failures: multiset<real>, now: real)
    requires PeerOk(c, recent, passed, failures, now)
    requires forall i :: 0 <= i < |recent| ==> recent[i] > now - c.window
    ensures var events := if |recent| <= c.failureLimit then recent + [now] else recent;
            var passed' := if |events| > c.failureLimit then passed else passed + [now];
            PeerOk(c, events, passed', failures + multiset{now}, now)
  {
    hide Sparse, Ascending, CountAfter;
    if |recent| <= c.failureLimit {
      AscendingGrows(recent, now);
      assert multiset(recent + [now]) == multiset(recent) + multiset{now};
      forall x ensures CountAfter(recent + [now], x) == CountAfter(recent, x) + if now > x then 1 else 0 {
        CountOfOneMore(recent, now, x);
      }
      if |recent| < c.failureLimit {
        AscendingGrows(passed, now);
        CountIsLength(recent, now - c.window);
        SparseGrows(c, recent, passed, now);
        forall x ensures CountAfter(passed + [now], x) == CountAfter(passed, x) + if now > x then 1 else 0 {
          CountOfOneMore(passed, now, x);
        }
      }
    }
  }

  lemma NextKeepsInv(c: Config, s: System, call: Call)
    requires Inv(c, s) && c.peerLimit >= 1
    ensures Inv(c, Next(c, s, call))
  {
    if Fits(s, call) {
      match call {
        case Clear(peer) => ClearKeepsInv(c, s, peer);
        case RetryAfter(peer, now) =>
          TouchKeepsInv(c, s, peer, now);
          UsesDoNotMatter(c, Keep(s, Touched(c, s.table, peer, now), now), s.uses + [peer]);
        case Record(peer, now) => RecordKeepsInv(c, s, peer, now);
      }
    }
  }

  /** What a new table keeps of the history. */
  lemma KeepAt(s: System, table: Table, now: real, p: string)
    requires p in table.events
    ensures var kept := Keep(s, table, now);
            && HistoryOk(kept) && kept.table == table && kept.now == now
            && PassedOf(kept, p) == PassedOf(s, p) && FailuresOf(kept, p) == FailuresOf(s, p)
  {
  }

  lemma KeepIsOk(s: System, table: Table, now: real)
    ensures HistoryOk(Keep(s, table, now)) && Keep(s, table, now).table == table && Keep(s, table, now).now == now
  {
  }

  lemma ClearedIsValid(t: Table, peer: string)
    requires Valid(t)
    ensures var after := Cleared(t, peer);
            && Valid(after) && |after.order| <= |t.order|
            && forall p :: p in after.events ==> p in t.events && after.events[p] == t.events[p]
  {
    WithoutPeer(t.order, peer);
    hide NoRepeats, Without;
  }

  lemma UsesDoNotMatter(c: Config, s: System, uses: seq<string>)
    requires Inv(c, s)
    ensures Inv(c, s.(uses := uses))
  {
    var s' := s.(uses := uses);
    hide PeerOk, Valid;
    assert forall p :: PassedOf(s', p) == PassedOf(s, p) && FailuresOf(s', p) == FailuresOf(s, p);
  }

  lemma ClearKeepsInv(c: Config, s: System, peer: string)
    requires Inv(c, s)
    ensures Inv(c, Keep(s, Cleared(s.table, peer), s.now))
  {
    var table := Cleared(s.table, peer);
    ClearedIsValid(s.table, peer);
    KeepIsOk(s, table, s.now);
    hide Cleared, Keep, Valid, PeerOk, HistoryOk, PassedOf, FailuresOf;
    forall p | p in table.events
      ensures PeerOk(c, table.events[p], PassedOf(Keep(s, table, s.now), p), FailuresOf(Keep(s, table, s.now), p), s.now) {
      KeepAt(s, table, s.now, p);
    }
  }

  /** What becomes of a peer's queue and history when some peer is used. */
  lemma PeerAfterTouch(c: Config, s: System, peer: string, now: real, p: string)
    requires Inv(c, s) && s.now <= now && p in Touched(c, s.table, peer, now).events
    ensures var events := Touched(c, s.table, peer, now).events[p];
            && PeerOk(c, events, PassedOf(s, p), FailuresOf(s, p), now)
            && (p == peer ==> forall i :: 0 <= i < |events| ==> events[i] > now - c.window)
  {
    hide *;
    TouchedAt(c, s.table, peer, now, p);
    KnownPeer(c, s, p);
    if p in s.table.events {
      var events := s.table.events[p];
      PeerAges(c, events, PassedOf(s, p), FailuresOf(s, p), s.now, now);
      AscendingQueue(c, events, PassedOf(s, p), FailuresOf(s, p), s.now);
      RecentIsSuffix(events, now - c.window);
    } else {
      NewPeer(c, now);
    }
  }

  lemma TouchedAt(c: Config, t: Table, peer: string, now: real, p: string)
    requires p in Touched(c, t, peer, now).events
    ensures if p == peer
            then Touched(c, t, peer, now).events[p] == Recent(if p in t.events then t.events[p] else [], now - c.window)
            else p in t.events && Touched(c, t, peer, now).events[p] == t.events[p]
  {
  }

  lemma KnownPeer(c: Config, s: System, p: string)
    requires Inv(c, s)
    ensures if p in s.table.events then PeerOk(c, s.table.events[p], PassedOf(s, p), FailuresOf(s, p), s.now)
            else PassedOf(s, p) == [] && FailuresOf(s, p) == multiset{}
  {
    hide PeerOk;
  }

  lemma AscendingQueue(c: Config, events: seq<real>, passed: seq<real>, failures: multiset<real>, now: real)
    requires PeerOk(c, events, passed, failures, now)
    ensures Ascending(events)
  {
  }

  lemma NewPeer(c: Config, now: real)
    ensures PeerOk(c, [], [], multiset{}, now) && Recent([], now - c.window) == []
  {
  }

  lemma TouchKeepsInv(c: Config, s: System, peer: string, now: real)
    requires Inv(c, s) && s.now <= now && c.peerLimit >= 1
    ensures Inv(c, Keep(s, Touched(c, s.table, peer, now), now))
  {
    var table := Touched(c, s.table, peer, now);
    TouchedIsValid(c, s.table, peer, now);
    KeepIsOk(s, table, now);
    hide PeerOk, Touched, Valid, Keep, HistoryOk, PassedOf, FailuresOf;
    forall p | p in table.events
      ensures PeerOk(c, table.events[p], PassedOf(Keep(s, table, now), p), FailuresOf(Keep(s, table, now), p), now) {
      PeerAfterTouch(c, s, peer, now, p);
      KeepAt(s, table, now, p);
    }
  }

  /** A failure is a touch of the peer, followed by its entry in the queue and in the history. */
  lemma RecordUnfolds(c: Config, s: System, peer: string, now: real)
    requires s.now <= now && peer in Touched(c, s.table, peer, now).events
    ensures var s' := Next(c, s, Record(peer, now));
            var kept := Keep(s, Touched(c, s.table, peer, now), now);
            var recent := kept.table.events[peer];
            var events := if |recent| <= c.failureLimit then recent + [now] else recent;
            && peer in kept.table.events
            && s'.table == kept.table.(events := kept.table.events[peer := events]) && s'.now == now
            && (Refused(c, s.table, peer, now) <==> |events| > c.failureLimit)
            && s'.passed == kept.passed[peer := if |events| > c.failureLimit then PassedOf(kept, peer)
                                                else PassedOf(kept, peer) + [now]]
            && s'.failures == kept.failures[peer := FailuresOf(kept, peer) + multiset{now}]
  {
    hide Touched;
    var touched := Touched(c, s.table, peer, now);
    var recorded := Recorded(c, s.table, peer, now);
    var kept := Keep(s, touched, now);
    assert recorded.events.Keys == touched.events.Keys;
    KeepsByPeers(s, touched, recorded, now);
    assert PassedOf(kept, peer) + [] == PassedOf(kept, peer);
    hide Only, Keep, FailuresOf;
  }

  /** The histories kept depend on which peers a table knows, not on their queues. */
  lemma KeepsByPeers(s: System, table: Table, other: Table, now: real)
    requires table.events.Keys == other.events.Keys
    ensures Keep(s, other, now) == Keep(s, table, now).(table := other)
    ensures forall peer :: PassedOf(Keep(s, other, now), peer) == PassedOf(Keep(s, table, now), peer)
    ensures forall peer :: FailuresOf(Keep(s, other, now), peer) == FailuresOf(Keep(s, table, now), peer)
    ensures Keep(s, table, now).table == table && Keep(s, table, now).now == now
  {
    assert Only(s.passed, other.events.Keys) == Only(s.passed, table.events.Keys);
    assert Only(s.failures, other.events.Keys) == Only(s.failures, table.events.Keys);
    hide Only;
  }

  lemma RecordKeepsInv(c: Config, s: System, peer: string, now: real)
    requires Inv(c, s) && s.now <= now && c.peerLimit >= 1
    ensures Inv(c, Next(c, s, Record(peer, now)))
  {
    hide *;
    var s' := Next(c, s, Record(peer, now));
    var table := Touched(c, s.table, peer, now);
    var kept := Keep(s, table, now);
    InvMeans(c, s);
    TouchedIsValid(c, s.table, peer, now);
    TouchKeepsInv(c, s, peer, now);
    InvMeans(c, kept);
    PeerAfterTouch(c, s, peer, now, peer);
    KeepAt(s, table, now, peer);
    RecordUnfolds(c, s, peer, now);
    PeerFails(c, table.events[peer], PassedOf(s, peer), FailuresOf(s, peer), now);
    RecordedPeers(c, kept, s', peer);
    ValidFrame(table, s'.table);
    InvMeans(c, s');
  }

  lemma InvMeans(c: Config, s: System)
    ensures Inv(c, s) <==> Valid(s.table) && |s.table.order| <= c.peerLimit && HistoryOk(s) && PeersOk(c, s)
  {
  }

  /** Only the peer that failed has a new queue and history. */
  lemma RecordedPeers(c: Config, kept: System, s': System, peer: string)
    requires PeersOk(c, kept) && HistoryOk(kept) && peer in kept.table.events && s'.now == kept.now
    requires peer in s'.table.events && s'.table == kept.table.(events := kept.table.events[peer := s'.table.events[peer]])
    requires peer in s'.passed && s'.passed == kept.passed[peer := s'.passed[peer]]
    requires peer in s'.failures && s'.failures == kept.failures[peer := s'.failures[peer]]
    requires PeerOk(c, s'.table.events[peer], s'.passed[peer], s'.failures[peer], s'.now)
    ensures PeersOk(c, s') && HistoryOk(s')
  {
    hide PeerOk;
  }

  lemma ValidFrame(t: Table, other: Table)
    requires Valid(t) && other.order == t.order && other.events.Keys == t.events.Keys
    ensures Valid(other)
  {
  }

  lemma {:induction false} RunKeepsInv(c: Config, calls: seq<Call>)
    requires c.peerLimit >= 1
    ensures Inv(c, Run(c, calls))
  {
    if calls != [] {
      RunKeepsInv(c, calls[..|calls| - 1]);
      NextKeepsInv(c, Run(c, calls[..|calls| - 1]), calls[|calls| - 1]);
    }
  }

  // ---------- What a run can show ----------

  /**
   * As long as a peer is neither cleared nor pushed out, no span shorter than the window holds more than
   * failureLimit failures that were let pass. Queues are sorted and bounded, and so is the table.
   */
  lemma FewFailuresPass(c: Config, calls: seq<Call>, peer: string, i: nat, j: nat)
    requires c.peerLimit >= 1
    ensures var s := Run(c, calls);
            && (i <= j < |PassedOf(s, peer)| && PassedOf(s, peer)[j] - PassedOf(s, peer)[i] < c.window ==>
                  j - i + 1 <= c.failureLimit)
            && Ascending(PassedOf(s, peer)) && Ascending(EventsOf(s.table, peer))
            && |EventsOf(s.table, peer)| <= c.failureLimit + 1 && |s.table.events| <= c.peerLimit
  {
    hide *;
    var s := Run(c, calls);
    RunKeepsInv(c, calls);
    InvMeans(c, s);
    KnownPeer(c, s, peer);
    OneQueueEach(s.table);
    if peer in s.table.events {
      EventsAt(s.table, peer);
      HistoryOf(c, s.table.events[peer], PassedOf(s, peer), FailuresOf(s, peer), s.now, i, j);
    } else {
      NoEvents(s.table, peer);
    }
  }

  lemma HistoryOf(c: Config, events: seq<real>, passed: seq<real>, failures: multiset<real>, now: real, i: nat, j: nat)
    requires PeerOk(c, events, passed, failures, now)
    ensures i <= j < |passed| && passed[j] - passed[i] < c.window ==> j - i + 1 <= c.failureLimit
    ensures Ascending(passed) && Ascending(events) && |events| <= c.failureLimit + 1
  {
  }

  lemma NoEvents(t: Table, peer: string)
    requires peer !in t.events
    ensures EventsOf(t, peer) == [] && Ascending([])
  {
  }

  lemma OneQueueEach(t: Table)
    requires Valid(t)
    ensures |t.events| == |t.order|
  {
    SizeOfOrder(t.order);
    assert t.events.Keys == set p | p in t.order;
  }

  lemma {:induction false} SizeOfOrder(order: seq<string>)
    requires NoRepeats(order)
    ensures |set p | p in order| == |order|
  {
    if order != [] {
      assert order == [order[0]] + order[1..];
      NoRepeatsInFront(order[0], order[1..]);
      SizeOfOrder(order[1..]);
      assert (set p | p in order) == {order[0]} + set p | p in order[1..];
    }
  }

  /** A refusal is backed by failureLimit + 1 failures of the peer, all inside the window. */
  lemma RefusalIsBacked(c: Config, calls: seq<Call>, peer: string, now: real)
    requires c.peerLimit >= 1 && c.window > 0.0 && Fits(Run(c, calls), Record(peer, now))
    requires Refused(c, Run(c, calls).table, peer, now)
    ensures var s' := Next(c, Run(c, calls), Record(peer, now));
            var events := EventsOf(s'.table, peer);
            && |events| == c.failureLimit + 1 && multiset(events) <= FailuresOf(s', peer)
            && forall i :: 0 <= i < |events| ==> now - c.window < events[i] <= now
  {
    var s := Run(c, calls);
    assert s.now <= now;
    hide *;
    RunKeepsInv(c, calls);
    RecordKeepsInv(c, s, peer, now);
    RefusedQueue(c, s, peer, now);
    var s' := Next(c, s, Record(peer, now));
    KnownPeer(c, s', peer);
    QueueOf(c, EventsOf(s'.table, peer), PassedOf(s', peer), FailuresOf(s', peer), now);
  }

  /** The queue that a refusal leaves: the recent failures, and this one if there was room for it. */
  lemma RefusedQueue(c: Config, s: System, peer: string, now: real)
    requires Inv(c, s) && s.now <= now && c.peerLimit >= 1 && c.window > 0.0 && Refused(c, s.table, peer, now)
    ensures var s' := Next(c, s, Record(peer, now));
            var events := EventsOf(s'.table, peer);
            && peer in s'.table.events && events == s'.table.events[peer] && s'.now == now
            && |events| > c.failureLimit && forall i :: 0 <= i < |events| ==> now - c.window < events[i]
  {
    hide *;
    InvMeans(c, s);
    TouchedIsValid(c, s.table, peer, now);
    var table := Touched(c, s.table, peer, now);
    PeerAfterTouch(c, s, peer, now, peer);
    KeepAt(s, table, now, peer);
    RecordUnfolds(c, s, peer, now);
    EventsAt(Next(c, s, Record(peer, now)).table, peer);
  }

  lemma QueueOf(c: Config, events: seq<real>, passed: seq<real>, failures: multiset<real>, now: real)
    requires PeerOk(c, events, passed, failures, now)
    ensures |events| <= c.failureLimit + 1 && multiset(events) <= failures
    ensures forall i :: 0 <= i < |events| ==> events[i] <= now
  {
  }

  lemma EventsAt(t: Table, peer: string)
    requires peer in t.events
    ensures EventsOf(t, peer) == t.events[peer]
  {
  }

  // ---------- Who is pushed out ----------

  /** When a peer was last used; -1 for never. */
  function LastUse(uses: seq<string>, peer: string): int {
    if uses == [] then -1
    else if uses[|uses| - 1] == peer then |uses| - 1
    else LastUse(uses[..|uses| - 1], peer)
  }

  /** The order of the table is the order of last use. */
  predicate ByLastUse(order: seq<string>, uses: seq<string>) {
    order == []
    || (&& 0 <= LastUse(uses, order[0]) < |uses|
        && (forall p :: p in order[1..] ==> LastUse(uses, order[0]) < LastUse(uses, p))
        && ByLastUse(order[1..], uses))
  }

  lemma UsedNow(uses: seq<string>, peer: string, p: string)
    ensures LastUse(uses + [peer], p) == if p == peer then |uses| else LastUse(uses, p)
  {
    assert (uses + [peer])[..|uses|] == uses;
  }

  lemma OrderInFront(first: string, rest: seq<string>, uses: seq<string>)
    ensures ByLastUse([first] + rest, uses)
            <==> (&& ByLastUse(rest, uses) && 0 <= LastUse(uses, first) < |uses|
                  && (forall p :: p in rest ==> LastUse(uses, first) < LastUse(uses, p)))
  {
    assert ([first] + rest)[1..] == rest;
    hide LastUse;
  }

  lemma {:induction false} WithoutKeepsOrder(order: seq<string>, peer: string, uses: seq<string>)
    requires ByLastUse(order, uses)
    ensures ByLastUse(Without(order, peer), uses) && peer !in Without(order, peer)
    ensures forall p :: p in Without(order, peer) ==> p in order
  {
    if order != [] {
      var first, rest := order[0], order[1..];
      assert order == [first] + rest;
      OrderInFront(first, rest, uses);
      hide LastUse, ByLastUse;
      if first != peer {
        WithoutKeepsOrder(rest, peer, uses);
        OrderInFront(first, Without(rest, peer), uses);
      }
    }
  }

  lemma {:induction false} UseGoesLast(order: seq<string>, uses: seq<string>, peer: string)
    requires ByLastUse(order, uses) && peer !in order
    ensures ByLastUse(order + [peer], uses + [peer])
  {
    UsedNow(uses, peer, peer);
    if order == [] {
      OrderInFront(peer, [], uses + [peer]);
      assert [] + [peer] == [peer] + [];
    } else {
      var first, rest := order[0], order[1..];
      assert order == [first] + rest && order + [peer] == [first] + (rest + [peer]);
      OrderInFront(first, rest, uses);
      hide LastUse, ByLastUse;
      UseGoesLast(rest, uses, peer);
      forall p | p in rest + [peer] ensures LastUse(uses + [peer], first) < LastUse(uses + [peer], p) {
        UsedNow(uses, peer, first);
        UsedNow(uses, peer, p);
      }
      UsedNow(uses, peer, first);
      OrderInFront(first, rest + [peer], uses + [peer]);
    }
  }

  lemma TouchKeepsOrder(c: Config, t: Table, peer: string, now: real, uses: seq<string>)
    requires Valid(t) && ByLastUse(t.order, uses)
    ensures ByLastUse(Touched(c, t, peer, now).order, uses + [peer])
  {
    WithoutKeepsOrder(t.order, peer, uses);
    if peer in t.events {
      UseGoesLast(Without(t.order, peer), uses, peer);
    } else {
      UseGoesLast(t.order, uses, peer);
      if t.order != [] { UseGoesLast(t.order[1..], uses, peer); }
    }
    hide LastUse, Without, Recent, NoRepeats;
  }

  lemma {:induction false} RunKeepsOrder(c: Config, calls: seq<Call>)
    requires c.peerLimit >= 1
    ensures ByLastUse(Run(c, calls).table.order, Run(c, calls).uses)
  {
    if calls != [] {
      var s, call := Run(c, calls[..|calls| - 1]), calls[|calls| - 1];
      RunKeepsOrder(c, calls[..|calls| - 1]);
      RunKeepsInv(c, calls[..|calls| - 1]);
      InvMeans(c, s);
      assert Run(c, calls) == Next(c, s, call);
      hide ByLastUse, Inv, Touched, Run, Valid;
      match call {
        case Clear(peer) => WithoutKeepsOrder(s.table.order, peer, s.uses);
        case Record(peer, now) => TouchKeepsOrder(c, s.table, peer, now, s.uses);
        case RetryAfter(peer, now) => TouchKeepsOrder(c, s.table, peer, now, s.uses);
      }
    }
  }

  /**
   * Only the least recently used peer is ever pushed out, and only by a full table: every peer that
   * stays was used after it.
   */
  lemma LeastRecentlyUsedGoes(c: Config, calls: seq<Call>, call: Call, gone: string, p: string)
    requires c.peerLimit >= 1 && gone in Run(c, calls).table.events && !(call.Clear? && call.peer == gone)
    requires gone !in Next(c, Run(c, calls), call).table.events
    ensures var s := Run(c, calls);
            var s' := Next(c, s, call);
            && |s.table.events| == c.peerLimit
            && (p in s'.table.events ==> LastUse(s'.uses, gone) < LastUse(s'.uses, p))
  {
    var s := Run(c, calls);
    hide *;
    RunKeepsOrder(c, calls);
    RunKeepsInv(c, calls);
    InvMeans(c, s);
    OneQueueEach(s.table);
    LosingStep(c, s, call, gone, p);
    UsedNow(s.uses, call.peer, gone);
    UsedNow(s.uses, call.peer, p);
    OrderInFront(gone, s.table.order[1..], s.uses);
  }

  /** A step that loses some other peer uses a new one while the table is full. */
  lemma LosingStep(c: Config, s: System, call: Call, gone: string, p: string)
    requires Valid(s.table) && gone in s.table.events && !(call.Clear? && call.peer == gone)
    requires gone !in Next(c, s, call).table.events
    ensures var s' := Next(c, s, call);
            && s'.uses == s.uses + [call.peer] && gone != call.peer && |s.table.order| >= c.peerLimit
            && s.table.order != [] && s.table.order == [gone] + s.table.order[1..]
            && (p in s'.table.events ==> p == call.peer || p in s.table.order[1..])
  {
    if call.Clear? {
      ClearedIsOther(s.table, call.peer, gone);
    } else {
      var t := Touched(c, s.table, call.peer, call.now);
      assert Fits(s, call);
      assert Next(c, s, call).table.events.Keys == t.events.Keys;
      hide Touched, Valid;
      PushedOut(c, s.table, call.peer, call.now, gone, p);
    }
  }

  lemma ClearedIsOther(t: Table, peer: string, gone: string)
    requires gone in t.events && gone != peer
    ensures gone in Cleared(t, peer).events
  {
  }

  lemma PushedOut(c: Config, t: Table, peer: string, now: real, gone: string, p: string)
    requires Valid(t) && gone in t.events && gone !in Touched(c, t, peer, now).events
    ensures peer !in t.events && gone != peer && |t.order| >= c.peerLimit && t.order != [] && gone == t.order[0]
    ensures p in Touched(c, t, peer, now).events ==> p == peer || p in t.order[1..]
  {
    if peer !in t.events && t.order != [] {
      assert t.order == [t.order[0]] + t.order[1..];
    }
    hide NoRepeats, Recent, Without;
  }
}
