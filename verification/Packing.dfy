/**
 * The packer: three layers of texts written into a token budget, in order of score. It is a greedy fill of
 * one wish list, cut off where the budget ends.
 */
module Packing {
  import opened Wrappers
  import opened Text
  import opened Layers

  const MAX_L2 := 2

  datatype Candidate = Candidate(
    uri: string, kind: string, path: string, parent: Option<string>, isDir: bool,
    l0: string, l1: string, body: string, ageDays: real, pinned: bool, tags: set<string>)

  datatype Hit = Hit(uri: string, layer: nat, text: string, score: real, why: string)

  // ---------- The wish list ----------

  /** A text that is not blank, stripped, with the layer it belongs to. */
  datatype Wish = Wish(uri: string, layer: nat, text: string)

  function WishFor(item: Candidate, layer: nat, text: string): seq<Wish> {
    if Strip(text) == "" then [] else [Wish(item.uri, layer, Strip(text))]
  }

  function Summary(item: Candidate): string { if item.l0 != "" then item.l0 else item.path }

  function Layer0(items: seq<Candidate>): seq<Wish> {
    if items == [] then [] else WishFor(items[0], 0, Summary(items[0])) + Layer0(items[1..])
  }

  function Layer1(items: seq<Candidate>): seq<Wish> {
    if items == [] then [] else WishFor(items[0], 1, items[0].l1) + Layer1(items[1..])
  }

  function Layer2(items: seq<Candidate>): seq<Wish> {
    if items == [] then []
    else (if items[0].isDir then [] else WishFor(items[0], 2, items[0].body)) + Layer2(items[1..])
  }

  function First(n: nat, wishes: seq<Wish>): seq<Wish> { if |wishes| <= n then wishes else wishes[..n] }

  /** Every summary, then every overview, then at most two bodies of leaves. */
  function Wishes(items: seq<Candidate>): seq<Wish> {
    Layer0(items) + Layer1(items) + First(MAX_L2, Layer2(items))
  }

  // ---------- The greedy fill ----------

  function Chunk(text: string, room: int): string {
    if EstimateTokens(text) <= room then text else Clip(text, room)
  }

  /** With one token left nothing fits any more: a single word is estimated at two. */
  function Fill(wishes: seq<Wish>, room: int): seq<Wish> {
    if wishes == [] || room <= 1 then []
    else
      var chunk := Chunk(wishes[0].text, room);
      [wishes[0].(text := chunk)] + Fill(wishes[1..], room - EstimateTokens(chunk))
  }

  function Cost(wishes: seq<Wish>): nat {
    if wishes == [] then 0 else Cost(wishes[..|wishes| - 1]) + EstimateTokens(wishes[|wishes| - 1].text)
  }

  function Packed(hits: seq<Hit>): seq<Wish> {
    seq(|hits|, i requires 0 <= i < |hits| => Wish(hits[i].uri, hits[i].layer, hits[i].text))
  }

  function ScoreOf(scores: map<string, real>, uri: string): real { if uri in scores then scores[uri] else 0.0 }

  function WhyOf(why: map<string, string>, uri: string): string { if uri in why then why[uri] else "prior" }

  class Packer {
    const scores: map<string, real>
    const why: map<string, string>
    const cap: int
    var hits: seq<Hit>
    var used: int

    constructor (scores: map<string, real>, why: map<string, string>, budget: int)
      ensures this.scores == scores && this.why == why && cap == (if budget > 1 then budget else 1)
      ensures hits == [] && used == 0
    {
      this.scores, this.why, cap := scores, why, if budget > 1 then budget else 1;
      hits, used := [], 0;
    }

    /** Adds one text, clipped to what is left; it fails on a blank text and when not even a word fits. */
    method Add(item: Candidate, layer: nat, text: string) returns (added: bool)
      modifies this`hits, this`used
      ensures added <==> Strip(text) != "" && cap - old(used) >= 2
      ensures !added ==> hits == old(hits) && used == old(used)
      ensures added ==>
                var chunk := Chunk(Strip(text), cap - old(used));
                && hits == old(hits) + [Hit(item.uri, layer, chunk, ScoreOf(scores, item.uri), WhyOf(why, item.uri))]
                && used == old(used) + EstimateTokens(chunk) <= cap
    {
      var remaining := cap - used;
      if remaining <= 0 { return false; }
      var chunk := Strip(text);
      if chunk == "" { return false; }
      StripWorks(text);
      StrippedHasWords(chunk);
      ChunkFits(chunk, remaining);
      if EstimateTokens(chunk) > remaining {
        chunk := ClipTokens(chunk, remaining);
        if chunk == "" { return false; }
      }
      var cost := EstimateTokens(chunk);
      if used + cost > cap { return false; }
      hits := hits + [Hit(item.uri, layer, chunk, if item.uri in scores then scores[item.uri] else 0.0,
                          if item.uri in why then why[item.uri] else "prior")];
      used := used + cost;
      return true;
    }
  }

  /** A chunk costs at least two tokens, and at most the room when that is two or more. */
  lemma ChunkFits(text: string, room: int)
    requires Split(text) != []
    ensures var chunk := Chunk(text, room);
            && chunk != "" && EstimateTokens(chunk) >= 2 && (room >= 2 ==> EstimateTokens(chunk) <= room)
            && (chunk != text ==> room - EstimateTokens(chunk) <= 1)
  {
    hide Join, FitFrom;
    ClipIsLongestPrefix(text, room);
    hide Clip;
    if EstimateTokens(text) > room {
      var kept := |Split(Clip(text, room))|;
      EstGrows(kept, kept + 1);
      assert kept == |Split(text)| ==> Est(kept) > room;
    }
  }

  /** What is written of a text: all of it when it fits, and otherwise its longest prefix of words that does. */
  lemma ChunkIsLongest(text: string, room: int)
    requires Split(text) != []
    ensures var chunk, words := Chunk(text, room), Split(text);
            && (Est(|words|) <= room ==> chunk == text)
            && (Est(|words|) > room ==>
                  && chunk == Join(Split(chunk)) && Split(chunk) <= words
                  && (forall n :: 1 <= n <= |words| && Est(n) <= room ==> n <= |Split(chunk)|)
                  && (Est(|Split(chunk)|) <= room || |Split(chunk)| == 1))
  {
    ClipIsLongestPrefix(text, room);
    if Est(|Split(text)|) > room {
      var kept := |Split(Clip(text, room))|;
      hide Split, Join, Clip;
      assert forall n :: n > kept ==> Est(n) >= Est(kept + 1);
    }
  }

  lemma FillOneMore(item: Candidate, layer: nat, text: string, rest: seq<Wish>, room: int)
    ensures Fill(WishFor(item, layer, text) + rest, room)
            == if Strip(text) == "" || room < 2 then Fill(rest, room)
               else var chunk := Chunk(Strip(text), room);
                    [Wish(item.uri, layer, chunk)] + Fill(rest, room - EstimateTokens(chunk))
  {
    hide Chunk, Strip, EstimateTokens;
    if Strip(text) == "" {
      assert WishFor(item, layer, text) + rest == rest;
    } else {
      var all := WishFor(item, layer, text) + rest;
      assert all[0] == Wish(item.uri, layer, Strip(text)) && all[1..] == rest;
    }
  }

  /** What is written and the fill of what may still be written make up the fill of the whole wish list. */
  predicate OnTrack(written: seq<Wish>, used: int, cap: int, rest: seq<Wish>, whole: seq<Wish>) {
    written + Fill(rest, cap - used) == Fill(whole, cap) && used == Cost(written) <= cap
  }

  predicate Labelled(hits: seq<Hit>, scores: map<string, real>, why: map<string, string>) {
    forall i :: 0 <= i < |hits| ==>
                  && hits[i].score == (if hits[i].uri in scores then scores[hits[i].uri] else 0.0)
                  && hits[i].why == (if hits[i].uri in why then why[hits[i].uri] else "prior")
  }

  lemma StaysOnTrack(written: seq<Wish>, used: int, cap: int, item: Candidate, layer: nat, text: string,
                     rest: seq<Wish>, whole: seq<Wish>)
    requires OnTrack(written, used, cap, WishFor(item, layer, text) + rest, whole)
    ensures if Strip(text) == "" || cap - used < 2 then OnTrack(written, used, cap, rest, whole)
            else
              var chunk := Wish(item.uri, layer, Chunk(Strip(text), cap - used));
              var cost := EstimateTokens(chunk.text);
              used + cost <= cap ==> OnTrack(written + [chunk], used + cost, cap, rest, whole)
  {
    hide Fill, WishFor, Cost, Chunk, Strip, EstimateTokens;
    FillOneMore(item, layer, text, rest, cap - used);
    if Strip(text) != "" && cap - used >= 2 {
      var chunk := Wish(item.uri, layer, Chunk(Strip(text), cap - used));
      CostOfOneMore(written, chunk);
      var more := Fill(rest, cap - used - EstimateTokens(chunk.text));
      assert written + ([chunk] + more) == (written + [chunk]) + more;
    }
  }

  lemma CostOfOneMore(wishes: seq<Wish>, w: Wish)
    ensures Cost(wishes + [w]) == Cost(wishes) + EstimateTokens(w.text)
  {
    assert (wishes + [w])[..|wishes|] == wishes;
  }

  /** Once there is no room for a word, the rest of the list does not matter. */
  lemma FullAnyway(written: seq<Wish>, used: int, cap: int, rest: seq<Wish>, other: seq<Wish>, whole: seq<Wish>)
    requires OnTrack(written, used, cap, rest, whole) && (rest == other || cap - used <= 1)
    ensures OnTrack(written, used, cap, other, whole)
  {
  }

  /** Adds to the packer and keeps it on track, with one wish less ahead of it. */
  method AddOnTrack(p: Packer, item: Candidate, layer: nat, text: string, ghost rest: seq<Wish>, ghost whole: seq<Wish>)
    returns (added: bool)
    requires OnTrack(Packed(p.hits), p.used, p.cap, WishFor(item, layer, text) + rest, whole)
    requires Labelled(p.hits, p.scores, p.why)
    modifies p`hits, p`used
    ensures OnTrack(Packed(p.hits), p.used, p.cap, rest, whole) && Labelled(p.hits, p.scores, p.why)
    ensures added <==> Strip(text) != "" && p.cap - old(p.used) >= 2
    ensures !added ==> p.used == old(p.used)
  {
    hide OnTrack, WishFor, Chunk, Strip, EstimateTokens, Labelled, Packed;
    ghost var hits, used := p.hits, p.used;
    StaysOnTrack(Packed(hits), used, p.cap, item, layer, text, rest, whole);
    added := p.Add(item, layer, text);
    if added {
      OneMoreHit(hits, p.hits, p.scores, p.why, item, layer, Chunk(Strip(text), p.cap - used));
    }
  }

  lemma OneMoreHit(hits: seq<Hit>, more: seq<Hit>, scores: map<string, real>, why: map<string, string>,
                   item: Candidate, layer: nat, chunk: string)
    requires Labelled(hits, scores, why)
    requires more == hits + [Hit(item.uri, layer, chunk, ScoreOf(scores, item.uri), WhyOf(why, item.uri))]
    ensures Labelled(more, scores, why) && Packed(more) == Packed(hits) + [Wish(item.uri, layer, chunk)]
  {
  }

  method PackSummaries(p: Packer, items: seq<Candidate>, ghost rest: seq<Wish>, ghost whole: seq<Wish>)
    requires OnTrack(Packed(p.hits), p.used, p.cap, Layer0(items) + rest, whole) && Labelled(p.hits, p.scores, p.why)
    modifies p`hits, p`used
    ensures OnTrack(Packed(p.hits), p.used, p.cap, rest, whole) && Labelled(p.hits, p.scores, p.why)
  {
    hide OnTrack, Labelled, Packed, WishFor;
    var i := 0;
    assert items[0..] == items;
    while i < |items|
      invariant 0 <= i <= |items| && Labelled(p.hits, p.scores, p.why)
      invariant OnTrack(Packed(p.hits), p.used, p.cap, Layer0(items[i..]) + rest, whole)
    {
      if p.used >= p.cap { break; }
      assert items[i..][1..] == items[i + 1..];
      assert Layer0(items[i..]) + rest == WishFor(items[i], 0, Summary(items[i])) + (Layer0(items[i + 1..]) + rest);
      var _ := AddOnTrack(p, items[i], 0, if items[i].l0 != "" then items[i].l0 else items[i].path,
                          Layer0(items[i + 1..]) + rest, whole);
      i := i + 1;
    }
    assert i == |items| ==> Layer0(items[i..]) + rest == rest;
    FullAnyway(Packed(p.hits), p.used, p.cap, Layer0(items[i..]) + rest, rest, whole);
  }

  method PackOverviews(p: Packer, items: seq<Candidate>, ghost rest: seq<Wish>, ghost whole: seq<Wish>)
    requires OnTrack(Packed(p.hits), p.used, p.cap, Layer1(items) + rest, whole) && Labelled(p.hits, p.scores, p.why)
    modifies p`hits, p`used
    ensures OnTrack(Packed(p.hits), p.used, p.cap, rest, whole) && Labelled(p.hits, p.scores, p.why)
  {
    hide OnTrack, Labelled, Packed, WishFor;
    var i := 0;
    assert items[0..] == items;
    while i < |items|
      invariant 0 <= i <= |items| && Labelled(p.hits, p.scores, p.why)
      invariant OnTrack(Packed(p.hits), p.used, p.cap, Layer1(items[i..]) + rest, whole)
    {
      if p.used >= p.cap { break; }
      assert items[i..][1..] == items[i + 1..];
      assert Layer1(items[i..]) + rest == WishFor(items[i], 1, items[i].l1) + (Layer1(items[i + 1..]) + rest);
      if items[i].l1 != "" {
        var _ := AddOnTrack(p, items[i], 1, items[i].l1, Layer1(items[i + 1..]) + rest, whole);
      } else {
        NoWish(items[i], 1);
        assert Layer1(items[i..]) + rest == Layer1(items[i + 1..]) + rest;
      }
      i := i + 1;
    }
    assert i == |items| ==> Layer1(items[i..]) + rest == rest;
    FullAnyway(Packed(p.hits), p.used, p.cap, Layer1(items[i..]) + rest, rest, whole);
  }

  method PackBodies(p: Packer, items: seq<Candidate>, ghost whole: seq<Wish>)
    requires OnTrack(Packed(p.hits), p.used, p.cap, First(MAX_L2, Layer2(items)), whole)
    requires Labelled(p.hits, p.scores, p.why)
    modifies p`hits, p`used
    ensures OnTrack(Packed(p.hits), p.used, p.cap, [], whole) && Labelled(p.hits, p.scores, p.why)
  {
    hide OnTrack, Labelled, Packed, WishFor, First;
    var l2Used, i := 0, 0;
    assert items[0..] == items;
    while i < |items|
      invariant 0 <= i <= |items| && 0 <= l2Used <= MAX_L2 && Labelled(p.hits, p.scores, p.why)
      invariant OnTrack(Packed(p.hits), p.used, p.cap, First(MAX_L2 - l2Used, Layer2(items[i..])), whole)
    {
      if p.used >= p.cap || l2Used >= MAX_L2 { break; }
      assert items[i..][1..] == items[i + 1..];
      ghost var later := Layer2(items[i + 1..]);
      if items[i].isDir || items[i].body == "" {
        if !items[i].isDir { NoWish(items[i], 2); }
        assert Layer2(items[i..]) == later;
      } else {
        assert Layer2(items[i..]) == WishFor(items[i], 2, items[i].body) + later;
        ghost var n := if Strip(items[i].body) == "" then MAX_L2 - l2Used else MAX_L2 - l2Used - 1;
        FirstOfWish(items[i], MAX_L2 - l2Used, later);
        var added := AddOnTrack(p, items[i], 2, items[i].body, First(n, later), whole);
        if added {
          l2Used := l2Used + 1;
        } else {
          FullAnyway(Packed(p.hits), p.used, p.cap, First(n, later), First(MAX_L2 - l2Used, later), whole);
        }
      }
      i := i + 1;
    }
    NoneLeft(MAX_L2 - l2Used, items[i..]);
    FullAnyway(Packed(p.hits), p.used, p.cap, First(MAX_L2 - l2Used, Layer2(items[i..])), [], whole);
  }

  lemma NoneLeft(n: nat, items: seq<Candidate>)
    ensures n == 0 || items == [] ==> First(n, Layer2(items)) == []
  {
  }

  method PackBudget(ordered: seq<Candidate>, scores: map<string, real>, why: map<string, string>, budget: int)
    returns (hits: seq<Hit>, used: int)
    ensures var cap := if budget > 1 then budget else 1;
            && Packed(hits) == Fill(Wishes(ordered), cap) && used == Cost(Packed(hits)) <= cap
    ensures Labelled(hits, scores, why)
  {
    var p := new Packer(scores, why, budget);
    ghost var whole := Wishes(ordered);
    ghost var bodies := First(MAX_L2, Layer2(ordered));
    assert whole == Layer0(ordered) + (Layer1(ordered) + bodies);
    assert Packed(p.hits) + Fill(whole, p.cap) == Fill(whole, p.cap);
    assert OnTrack(Packed(p.hits), p.used, p.cap, Layer0(ordered) + (Layer1(ordered) + bodies), whole);
    PackSummaries(p, ordered, Layer1(ordered) + bodies, whole);
    PackOverviews(p, ordered, bodies, whole);
    PackBodies(p, ordered, whole);
    assert Packed(p.hits) + Fill([], p.cap - p.used) == Packed(p.hits);
    return p.hits, p.used;
  }

  lemma NoWish(item: Candidate, layer: nat)
    ensures WishFor(item, layer, "") == []
  {
  }

  lemma FirstOfWish(item: Candidate, n: nat, later: seq<Wish>)
    requires n >= 1
    ensures First(n, WishFor(item, 2, item.body) + later)
            == WishFor(item, 2, item.body) + First(if Strip(item.body) == "" then n else n - 1, later)
  {
  }
}
