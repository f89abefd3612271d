/**
 * The limiter of failed sign-ins: for each peer a queue of recent failures, and a table of peers that
 * forgets the least recently used one when it is full.
 */
module Limiter {
  import opened Wrappers

  datatype Config = Config(window: real, failureLimit: nat, peerLimit: int)

  /** order lists the peers from the least to the most recently used. */
  datatype Table = Table(order: seq<string>, events: map<string, seq<real>>)

  predicate NoRepeats(order: seq<string>) { forall i, j :: 0 <= i < j < |order| ==> order[i] != order[j] }

  /** Every peer with a queue has exactly one place in the order of use. */
  ghost predicate Valid(t: Table) { NoRepeats(t.order) && forall p :: p in t.order <==> p in t.events }

  function Without(order: seq<string>, peer: string): seq<string> {
    if order == [] then []
    else if order[0] == peer then order[1..]
    else [order[0]] + Without(order[1..], peer)
  }

  /** The failures that are younger than the window. */
  function Recent(events: seq<real>, cutoff: real): seq<real> {
    if events != [] && events[0] <= cutoff then Recent(events[1..], cutoff) else events
  }

  function EventsOf(t: Table, peer: string): seq<real> { if peer in t.events then t.events[peer] else [] }

  /** Makes a peer the most recently used one, with only its recent failures; a new peer may push one out. */
  function Touched(c: Config, t: Table, peer: string, now: real): Table {
    var recent := Recent(EventsOf(t, peer), now - c.window);
    if peer in t.events then Table(Without(t.order, peer) + [peer], t.events[peer := recent])
    else
      var kept := if |t.order| >= c.peerLimit && t.order != [] then Table(t.order[1..], t.events - {t.order[0]}) else t;
      Table(kept.order + [peer], kept.events[peer := recent])
  }

  function Recorded(c: Config, t: Table, peer: string, now: real): Table {
    var touched := Touched(c, t, peer, now);
    var events := touched.events[peer];
    touched.(events := touched.events[peer := if |events| <= c.failureLimit then events + [now] else events])
  }

  /** Whether the peer is to be turned away after this failure. */
  predicate Refused(c: Config, t: Table, peer: string, now: real) {
    |EventsOf(Recorded(c, t, peer, now), peer)| > c.failureLimit
  }

  function Cleared(t: Table, peer: string): Table {
    if peer in t.events then Table(Without(t.order, peer), t.events - {peer}) else t
  }

  /** int(): truncation toward zero. */
  function Truncated(x: real): int { if x >= 0.0 then x.Floor else -((-x).Floor) }

  function RetryAfter(c: Config, t: Table, peer: string, now: real): int {
    var events := EventsOf(Touched(c, t, peer, now), peer);
    if events == [] then 1 else MaxInt(1, Truncated(c.window - (now - events[0]) + 0.999))
  }

  class FailureLimiter {
    const config: Config
    var order: seq<string>
    var failures: map<string, seq<real>>

    function View(): Table
      reads this
    {
      Table(order, failures)
    }

    constructor (config: Config)
      ensures this.config == config && View() == Table([], map[])
    {
      this.config, order, failures := config, [], map[];
    }

    /** An empty table at its limit has no peer to push out and raises KeyError: hence a limit of at least one. */
    method Events(peer: string, now: real) returns (events: seq<real>)
      requires Valid(View()) && config.peerLimit >= 1
      modifies this`order, this`failures
      ensures View() == Touched(config, old(View()), peer, now) && Valid(View())
      ensures peer in failures && events == failures[peer]
    {
      hide Valid, Without, EventsOf;
      ghost var start := View();
      TouchedIsValid(config, start, peer, now);
      assert EventsOf(start, peer) == if peer in failures then failures[peer] else [] by { EventsAre(start, peer); }
      if peer !in failures {
        if |order| >= config.peerLimit {
          failures := failures - {order[0]};
          order := order[1..];
        }
        events := [];
        order := order + [peer];
      } else {
        order := Without(order, peer) + [peer];
        events := failures[peer];
      }
      var cutoff := now - config.window;
      ghost var all := events;
      while events != [] && events[0] <= cutoff
        invariant Recent(events, cutoff) == Recent(all, cutoff)
      {
        events := events[1..];
      }
      failures := failures[peer := events];
    }

    method Record(peer: string, now: real) returns (refused: bool)
      requires Valid(View()) && config.peerLimit >= 1
      modifies this`order, this`failures
      ensures View() == Recorded(config, old(View()), peer, now) && Valid(View())
      ensures refused <==> Refused(config, old(View()), peer, now)
    {
      var events := Events(peer, now);
      if |events| <= config.failureLimit {
        events := events + [now];
      }
      failures := failures[peer := events];
      return |events| > config.failureLimit;
    }

    method Clear(peer: string)
      requires Valid(View())
      modifies this`order, this`failures
      ensures View() == Cleared(old(View()), peer) && Valid(View())
    {
      WithoutPeer(order, peer);
      if peer in failures {
        order := Without(order, peer);
        failures := failures - {peer};
      }
    }

    method RetryAfterSeconds(peer: string, now: real) returns (seconds: int)
      requires Valid(View()) && config.peerLimit >= 1
      modifies this`order, this`failures
      ensures View() == Touched(config, old(View()), peer, now) && Valid(View())
      ensures seconds == RetryAfter(config, old(View()), peer, now)
    {
      var events := Events(peer, now);
      if events == [] { return 1; }
      return MaxInt(1, Truncated(config.window - (now - events[0]) + 0.999));
    }
  }

  // ---------- The table ----------

  lemma EventsAre(t: Table, peer: string)
    ensures EventsOf(t, peer) == if peer in t.events then t.events[peer] else []
  {
  }

  lemma NoRepeatsInFront(first: string, rest: seq<string>)
    ensures NoRepeats([first] + rest) <==> NoRepeats(rest) && first !in rest
  {
    var order := [first] + rest;
    assert forall i :: 0 < i < |order| ==> order[i] == rest[i - 1];
    if NoRepeats(order) {
      forall i, j | 0 <= i < j < |rest| ensures rest[i] != rest[j] { assert order[i + 1] != order[j + 1]; }
      forall i | 0 <= i < |rest| ensures rest[i] != first { assert order[0] != order[i + 1]; }
    }
  }

  lemma {:induction false} WithoutPeer(order: seq<string>, peer: string)
    requires NoRepeats(order)
    ensures forall p :: p in Without(order, peer) <==> p in order && p != peer
    ensures NoRepeats(Without(order, peer))
    ensures |Without(order, peer)| == if peer in order then |order| - 1 else |order|
  {
    if order != [] {
      assert order == [order[0]] + order[1..];
      NoRepeatsInFront(order[0], order[1..]);
      hide NoRepeats;
      if order[0] != peer {
        WithoutPeer(order[1..], peer);
        NoRepeatsInFront(order[0], Without(order[1..], peer));
      }
    }
  }

  lemma NoRepeatsBehind(rest: seq<string>, last: string)
    requires NoRepeats(rest) && last !in rest
    ensures NoRepeats(rest + [last])
  {
  }

  /** The table keeps its shape, and a table within its limit stays within it. */
  lemma TouchedIsValid(c: Config, t: Table, peer: string, now: real)
    requires Valid(t) && c.peerLimit >= 1
    ensures var after := Touched(c, t, peer, now);
            && Valid(after) && peer in after.events && (|t.order| <= c.peerLimit ==> |after.order| <= c.peerLimit)
  {
    hide Recent, Without, NoRepeats;
    if peer in t.events {
      WithoutPeer(t.order, peer);
      NoRepeatsBehind(Without(t.order, peer), peer);
    } else {
      if t.order != [] {
        assert t.order == [t.order[0]] + t.order[1..];
        NoRepeatsInFront(t.order[0], t.order[1..]);
        NoRepeatsBehind(t.order[1..], peer);
      }
      NoRepeatsBehind(t.order, peer);
    }
  }

  /** Clearing forgets one peer, and nothing of any other. */
  lemma ClearedForgets(t: Table, peer: string, other: string)
    requires Valid(t)
    ensures var after := Cleared(t, peer);
            && Valid(after) && peer !in after.events && peer !in after.order
            && (other != peer ==>
                  && (other in after.events <==> other in t.events)
                  && EventsOf(after, other) == EventsOf(t, other))
  {
    WithoutPeer(t.order, peer);
    hide Without, NoRepeats;
  }

  /** What is kept of a queue: everything behind its longest beginning of failures out of the window. */
  lemma {:induction false} RecentIsTheRest(events: seq<real>, cutoff: real)
    ensures var recent := Recent(events, cutoff);
            var gone := |events| - |recent|;
            && 0 <= gone && events[gone..] == recent
            && (forall i :: 0 <= i < gone ==> events[i] <= cutoff)
            && (recent != [] ==> recent[0] > cutoff)
  {
    if events != [] && events[0] <= cutoff {
      RecentIsTheRest(events[1..], cutoff);
      var recent := Recent(events, cutoff);
      var gone := |events| - |recent|;
      assert events[1..][gone - 1..] == events[gone..];
      forall i | 0 <= i < gone ensures events[i] <= cutoff {
        if i > 0 { assert events[1..][i - 1] == events[i]; }
      }
    }
  }

  /**
   * A use makes a peer the last of the order and drops its old failures; of the others, only the first of the
   * order goes, and only for a new peer when the table is full.
   */
  lemma UseTouchesOne(c: Config, t: Table, peer: string, now: real, other: string)
    requires Valid(t) && c.peerLimit >= 1
    ensures var after := Touched(c, t, peer, now);
            && Valid(after) && peer in after.events
            && after.events[peer] == Recent(EventsOf(t, peer), now - c.window)
            && after.order != [] && after.order[|after.order| - 1] == peer
            && (other != peer && other in after.events ==> other in t.events && after.events[other] == t.events[other])
            && (other != peer && other in t.events && other !in after.events ==>
                  peer !in t.events && |t.order| >= c.peerLimit && other == t.order[0])
  {
    TouchedIsValid(c, t, peer, now);
    hide Recent, Without, NoRepeats;
  }

  /** A failure is added behind the recent ones unless they are over the limit already; that alone refuses. */
  lemma FailureIsRecorded(c: Config, t: Table, peer: string, now: real, other: string)
    requires Valid(t) && c.peerLimit >= 1
    ensures var recent := Recent(EventsOf(t, peer), now - c.window);
            var touched, after := Touched(c, t, peer, now), Recorded(c, t, peer, now);
            && peer in after.events
            && after.events[peer] == (if |recent| <= c.failureLimit then recent + [now] else recent)
            && (Refused(c, t, peer, now) <==> |recent| >= c.failureLimit)
            && after.order == touched.order
            && (other != peer ==> EventsOf(after, other) == EventsOf(touched, other))
  {
    hide Recent, Without;
  }

  /** The part of a duration beyond its whole seconds. */
  function Fraction(x: real): real { x - x.Floor as real }

  /**
   * Waiting as long as asked lets the oldest failure leave the window if and only if what was left of it
   * is at most a second, or whole seconds, or at least a millisecond beyond them.
   */
  lemma RetryAfterIsEnough(c: Config, t: Table, peer: string, now: real)
    requires EventsOf(Touched(c, t, peer, now), peer) != []
    ensures var oldest := EventsOf(Touched(c, t, peer, now), peer)[0];
            var left := oldest + c.window - now;
            var later := now + RetryAfter(c, t, peer, now) as real;
            oldest <= later - c.window <==> left <= 1.0 || Fraction(left) == 0.0 || Fraction(left) >= 0.001
  {
    var left := EventsOf(Touched(c, t, peer, now), peer)[0] + c.window - now;
    assert RetryAfter(c, t, peer, now) == MaxInt(1, Truncated(left + 0.999));
    hide Touched, EventsOf, RetryAfter;
    TruncationRoundsUp(left);
  }

  lemma TruncationRoundsUp(left: real)
    ensures MaxInt(1, Truncated(left + 0.999)) as real >= left
            <==> left <= 1.0 || Fraction(left) == 0.0 || Fraction(left) >= 0.001
  {
    var whole := left.Floor;
    if left > 1.0 {
      assert (left + 0.999).Floor == if Fraction(left) >= 0.001 then whole + 1 else whole;
    }
  }

  /** A peer without a recent failure is asked to wait one second. */
  lemma NothingToWaitFor(c: Config, t: Table, peer: string, now: real)
    requires Recent(EventsOf(t, peer), now - c.window) == []
    ensures RetryAfter(c, t, peer, now) == 1
  {
  }

  /** Nobody is asked to wait a second longer than needed, and at least one second is asked for. */
  lemma RetryAfterIsNotLong(c: Config, t: Table, peer: string, now: real)
    requires EventsOf(Touched(c, t, peer, now), peer) != []
    ensures var left := EventsOf(Touched(c, t, peer, now), peer)[0] + c.window - now;
            var seconds := RetryAfter(c, t, peer, now);
            seconds >= 1 && (seconds == 1 || left - 0.001 < seconds as real < left + 1.0)
  {
    var left := EventsOf(Touched(c, t, peer, now), peer)[0] + c.window - now;
    assert RetryAfter(c, t, peer, now) == MaxInt(1, Truncated(left + 0.999));
    hide Touched, EventsOf, RetryAfter;
    assert Truncated(left + 0.999) > 1 ==> (left + 0.999).Floor == Truncated(left + 0.999);
  }

  /** The exception is real: 58.9995 seconds into a window of 60, one second is asked for and 1.0005 are left. */
  lemma RetryAfterCanBeShort(peer: string)
    ensures var c, t, now := Config(60.0, 5, 256), Table([peer], map[peer := [0.0]]), 58.9995;
            && Valid(t) && EventsOf(Touched(c, t, peer, now), peer) == [0.0] && RetryAfter(c, t, peer, now) == 1
            && Recent([0.0], now + 1.0 - c.window) == [0.0]
  {
    var c, t, now := Config(60.0, 5, 256), Table([peer], map[peer := [0.0]]), 58.9995;
    assert EventsOf(Touched(c, t, peer, now), peer) == [0.0];
    assert c.window - (now - 0.0) + 0.999 == 1.9995;
    assert (1.9995).Floor == 1;
  }
}
