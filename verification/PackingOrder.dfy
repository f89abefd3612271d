/** What the packer's fill promises: the budget, the prefix, and the strict order of the layers. */
module PackingOrder {
  import opened Text
  import opened Layers
  import opened Packing

  predicate HaveWords(wishes: seq<Wish>) { forall i :: 0 <= i < |wishes| ==> Split(wishes[i].text) != [] }

  lemma {:induction false} CostOfFirst(w: Wish, rest: seq<Wish>)
    ensures Cost([w] + rest) == EstimateTokens(w.text) + Cost(rest)
  {
    if rest == [] {
      assert [w] + rest == [w] && [w][..0] == [];
    } else {
      CostOfFirst(w, rest[..|rest| - 1]);
      assert ([w] + rest)[..|[w] + rest| - 1] == [w] + rest[..|rest| - 1];
    }
  }

  /** One text of the fill: whole, or cut to the longest prefix that the room left. */
  predicate WellCut(hits: seq<Wish>, wishes: seq<Wish>, room: int)
    requires |hits| <= |wishes|
  {
    hits != [] ==>
      var k := |hits| - 1;
      && hits[k].text == Chunk(wishes[k].text, room - Cost(hits[..k]))
      && (hits[k].text != wishes[k].text ==> room - Cost(hits) <= 1)
  }

  predicate SamePlaces(hits: seq<Wish>, wishes: seq<Wish>)
    requires |hits| <= |wishes|
  {
    && (forall i :: 0 <= i < |hits| ==> hits[i].uri == wishes[i].uri && hits[i].layer == wishes[i].layer)
    && (forall i :: 0 <= i < |hits| - 1 ==> hits[i].text == wishes[i].text)
  }

  /**
   * The fill is a prefix of the wish list within the room. Every text but the last is whole; the last is
   * whole or cut to the longest prefix of its words that the room left; and when a wish is left out, fewer
   * than two tokens were left.
   */
  lemma {:induction false} FillIsPrefix(wishes: seq<Wish>, room: int)
    requires HaveWords(wishes)
    ensures var hits := Fill(wishes, room);
            && |hits| <= |wishes| && (room >= 0 ==> Cost(hits) <= room)
            && SamePlaces(hits, wishes) && WellCut(hits, wishes, room)
            && (|hits| < |wishes| ==> room - Cost(hits) <= 1)
  {
    hide *;
    FillUnfolds(wishes, room);
    EmptyPrefix(wishes, room);
    if wishes != [] && room > 1 {
      var first := wishes[0].(text := Chunk(wishes[0].text, room));
      var left := room - EstimateTokens(first.text);
      ChunkFits(wishes[0].text, room);
      FillIsPrefix(wishes[1..], left);
      var later := Fill(wishes[1..], left);
      CostOfFirst(first, later);
      FillUnfolds(wishes[1..], left);
      OneMoreInFront(first, later, wishes, room, left);
    }
  }

  lemma EmptyPrefix(wishes: seq<Wish>, room: int)
    ensures Cost([]) == 0 && SamePlaces([], wishes) && WellCut([], wishes, room)
  {
  }

  lemma FillUnfolds(wishes: seq<Wish>, room: int)
    requires HaveWords(wishes)
    ensures if wishes == [] || room <= 1 then Fill(wishes, room) == []
            else
              var first := wishes[0].(text := Chunk(wishes[0].text, room));
              Fill(wishes, room) == [first] + Fill(wishes[1..], room - EstimateTokens(first.text))
    ensures wishes != [] ==> HaveWords(wishes[1..]) && Split(wishes[0].text) != []
  {
    hide Split, Chunk, EstimateTokens;
  }

  lemma WellCutInFront(first: Wish, later: seq<Wish>, wishes: seq<Wish>, room: int, left: int)
    requires later != [] && |later| < |wishes| && WellCut(later, wishes[1..], left)
    requires left == room - EstimateTokens(first.text)
    ensures WellCut([first] + later, wishes, room)
  {
    var hits, k := [first] + later, |later|;
    assert hits[k] == later[k - 1] && wishes[k] == wishes[1..][k - 1];
    assert hits[..k] == [first] + later[..k - 1];
    CostOfFirst(first, later[..k - 1]);
    CostOfFirst(first, later);
    hide Cost, Chunk, EstimateTokens;
  }

  lemma OneMoreInFront(first: Wish, later: seq<Wish>, wishes: seq<Wish>, room: int, left: int)
    requires |later| < |wishes| && SamePlaces(later, wishes[1..]) && WellCut(later, wishes[1..], left)
    requires first == wishes[0].(text := Chunk(wishes[0].text, room))
    requires left == room - EstimateTokens(first.text)
    requires later != [] ==> first == wishes[0]
    requires first != wishes[0] ==> left <= 1
    ensures SamePlaces([first] + later, wishes) && WellCut([first] + later, wishes, room)
  {
    var hits := [first] + later;
    assert SamePlaces(hits, wishes) by {
      hide Chunk, EstimateTokens, WellCut;
      forall i | 1 <= i < |hits| ensures hits[i] == later[i - 1] && wishes[i] == wishes[1..][i - 1] { }
    }
    hide SamePlaces;
    if later == [] {
      assert hits == [first] && hits[..0] == [];
      CostOfNone();
      CostOfFirst(first, []);
      assert [first] + [] == [first];
      hide Cost, Chunk, EstimateTokens;
    } else {
      WellCutInFront(first, later, wishes, room, left);
    }
  }

  lemma CostOfNone()
    ensures Cost([]) == 0
  {
  }

  /** The text that each candidate has for a layer: its summary or else its path, its overview, a leaf's body. */
  function TextFor(item: Candidate, layer: nat): string {
    if layer == 0 then (if item.l0 != "" then item.l0 else item.path)
    else if layer == 1 then item.l1
    else if item.isDir then "" else item.body
  }

  function LayerOf(items: seq<Candidate>, layer: nat): seq<Wish> {
    if layer == 0 then Layer0(items) else if layer == 1 then Layer1(items) else Layer2(items)
  }

  /** A candidate at the end adds at the end of every layer its stripped text, unless that is blank. */
  lemma {:induction false} LayersGrow(items: seq<Candidate>, item: Candidate, layer: nat)
    requires layer <= 2
    ensures LayerOf([], layer) == []
    ensures var text := Strip(TextFor(item, layer));
            LayerOf(items + [item], layer)
            == LayerOf(items, layer) + if text == "" then [] else [Wish(item.uri, layer, text)]
  {
    hide Strip;
    NothingIsBlank();
    var all := items + [item];
    if items == [] {
      assert all == [item] && all[1..] == [];
    } else {
      LayersGrow(items[1..], item, layer);
      assert all[0] == items[0] && all[1..] == items[1..] + [item];
      hide TextFor, WishFor, Summary;
    }
  }

  lemma NothingIsBlank()
    ensures Strip("") == ""
  {
  }

  /** The wish list: the three layers one after the other, of the last one only the first two. */
  lemma WishesAre(items: seq<Candidate>)
    ensures var bodies := LayerOf(items, 2);
            Wishes(items) == LayerOf(items, 0) + LayerOf(items, 1) + if |bodies| <= 2 then bodies else bodies[..2]
  {
  }

  /** All wishes of a list are for one layer, and each has a word. */
  predicate Layered(wishes: seq<Wish>, layer: nat) {
    forall i :: 0 <= i < |wishes| ==> wishes[i].layer == layer && Split(wishes[i].text) != []
  }

  lemma OneMoreWish(item: Candidate, layer: nat, text: string, rest: seq<Wish>)
    requires Layered(rest, layer)
    ensures Layered(WishFor(item, layer, text) + rest, layer)
    ensures forall w :: w in rest ==> w in WishFor(item, layer, text) + rest
    ensures Strip(text) != "" ==> Wish(item.uri, layer, Strip(text)) in WishFor(item, layer, text) + rest
  {
    WishHasWords(text);
    hide Strip, Split;
    if Strip(text) != "" {
      assert (WishFor(item, layer, text) + rest)[0] == Wish(item.uri, layer, Strip(text));
    }
  }

  lemma {:induction false} Layer0Wishes(items: seq<Candidate>, item: Candidate)
    ensures Layered(Layer0(items), 0)
    ensures item in items && Strip(Summary(item)) != "" ==> Wish(item.uri, 0, Strip(Summary(item))) in Layer0(items)
  {
    if items != [] {
      Layer0Wishes(items[1..], item);
      OneMoreWish(items[0], 0, Summary(items[0]), Layer0(items[1..]));
      hide Strip, Summary, WishFor, Layered;
    }
  }

  lemma {:induction false} Layer1Wishes(items: seq<Candidate>, item: Candidate)
    ensures Layered(Layer1(items), 1)
    ensures item in items && Strip(item.l1) != "" ==> Wish(item.uri, 1, Strip(item.l1)) in Layer1(items)
  {
    if items != [] {
      Layer1Wishes(items[1..], item);
      OneMoreWish(items[0], 1, items[0].l1, Layer1(items[1..]));
      hide Strip, WishFor, Layered;
    }
  }

  lemma {:induction false} Layer2Wishes(items: seq<Candidate>)
    ensures Layered(Layer2(items), 2)
  {
    if items != [] {
      Layer2Wishes(items[1..]);
      OneMoreWish(items[0], 2, items[0].body, Layer2(items[1..]));
      hide Strip, WishFor;
    }
  }

  lemma WishHasWords(text: string)
    ensures Strip(text) != "" ==> Split(Strip(text)) != []
  {
    StripWorks(text);
    if Strip(text) != "" { StrippedHasWords(Strip(text)); }
  }

  predicate Written(hits: seq<Wish>, uri: string, layer: nat) {
    exists i :: 0 <= i < |hits| && hits[i].uri == uri && hits[i].layer == layer
  }

  function CountLayer(hits: seq<Wish>, layer: nat): nat {
    if hits == [] then 0
    else CountLayer(hits[..|hits| - 1], layer) + if hits[|hits| - 1].layer == layer then 1 else 0
  }

  /** The three parts of a wish list, and the fill of it as a prefix. */
  lemma FillInLayers(items: seq<Candidate>, room: int, item: Candidate)
    ensures var zero, one, two := Layer0(items), Layer1(items), First(MAX_L2, Layer2(items));
            var hits := Fill(Wishes(items), room);
            && Layered(zero, 0) && Layered(one, 1) && Layered(two, 2) && |two| <= MAX_L2
            && |hits| <= |zero + one + two| && SamePlaces(hits, zero + one + two)
  {
    Layer0Wishes(items, item);
    Layer1Wishes(items, item);
    Layer2Wishes(items);
    LayersOf(items);
    assert HaveWords(Wishes(items)) by { hide Layer0, Layer1, Layer2, Wishes, Split; }
    hide Layer0, Layer1, Layer2, Split, HaveWords, Fill, Wishes;
    FillIsPrefix(Wishes(items), room);
  }

  /**
   * Layers come strictly in order: an overview is written only when every summary that is not blank is,
   * a body only when every overview is too, and never more than two bodies.
   */
  lemma LayersInOrder(items: seq<Candidate>, room: int, k: nat, item: Candidate)
    requires k < |Fill(Wishes(items), room)| && item in items
    ensures var hits := Fill(Wishes(items), room);
            && (hits[k].layer >= 1 && Strip(Summary(item)) != "" ==> Written(hits, item.uri, 0))
            && (hits[k].layer == 2 && Strip(item.l1) != "" ==> Written(hits, item.uri, 1))
            && CountLayer(hits, 2) <= MAX_L2
  {
    var zero, one, two := Layer0(items), Layer1(items), First(MAX_L2, Layer2(items));
    var hits := Fill(Wishes(items), room);
    FillInLayers(items, room, item);
    Layer0Wishes(items, item);
    Layer1Wishes(items, item);
    hide *;
    AtMostTwo(hits, zero, one, two);
    if hits[k].layer >= 1 && Strip(Summary(item)) != "" {
      SummariesFirst(hits, zero, one, two, k, Wish(item.uri, 0, Strip(Summary(item))));
    }
    if hits[k].layer == 2 && Strip(item.l1) != "" {
      OverviewsFirst(hits, zero, one, two, k, Wish(item.uri, 1, Strip(item.l1)));
    }
  }

  lemma SummariesFirst(hits: seq<Wish>, zero: seq<Wish>, one: seq<Wish>, two: seq<Wish>, k: nat, wish: Wish)
    requires |hits| <= |zero + one + two| && SamePlaces(hits, zero + one + two)
    requires k < |hits| && hits[k].layer >= 1 && Layered(zero, 0) && wish in zero && wish.layer == 0
    ensures Written(hits, wish.uri, 0)
  {
    assert [] + zero + (one + two) == zero + one + two;
    hide *;
    WrittenBefore(hits, [], zero, one + two, k, wish);
  }

  lemma OverviewsFirst(hits: seq<Wish>, zero: seq<Wish>, one: seq<Wish>, two: seq<Wish>, k: nat, wish: Wish)
    requires |hits| <= |zero + one + two| && SamePlaces(hits, zero + one + two)
    requires k < |hits| && hits[k].layer == 2 && Layered(zero, 0) && Layered(one, 1) && wish in one && wish.layer == 1
    ensures Written(hits, wish.uri, 1)
  {
    LayeredMeans(zero, 0);
    hide *;
    WrittenBefore(hits, zero, one, two, k, wish);
  }

  lemma AtMostTwo(hits: seq<Wish>, zero: seq<Wish>, one: seq<Wish>, two: seq<Wish>)
    requires |hits| <= |zero + one + two| && SamePlaces(hits, zero + one + two)
    requires Layered(zero, 0) && Layered(one, 1) && |two| <= MAX_L2
    ensures CountLayer(hits, 2) <= MAX_L2
  {
    hide Split, CountLayer;
    forall i | 0 <= i < |hits| && i < |zero + one| ensures hits[i].layer != 2 {
      assert (zero + one + two)[i] == if i < |zero| then zero[i] else one[i - |zero|];
    }
    AtMost(hits, |zero + one|, |two|);
  }

  lemma LayeredMeans(wishes: seq<Wish>, layer: nat)
    requires Layered(wishes, layer)
    ensures forall i :: 0 <= i < |wishes| ==> wishes[i].layer == layer
  {
  }

  /** A hit of a later layer comes after every wish of an earlier one. */
  lemma WrittenBefore(hits: seq<Wish>, before: seq<Wish>, layer: seq<Wish>, after: seq<Wish>, k: nat, wish: Wish)
    requires |hits| <= |before + layer + after| && SamePlaces(hits, before + layer + after)
    requires wish in layer && k < |hits|
    requires Layered(layer, wish.layer) && hits[k].layer > wish.layer
    requires forall i :: 0 <= i < |before| ==> before[i].layer <= wish.layer
    ensures Written(hits, wish.uri, wish.layer)
  {
    var wishes := before + layer + after;
    var i :| 0 <= i < |layer| && layer[i] == wish;
    var j := |before| + i;
    assert wishes[j] == wish;
    assert forall m :: 0 <= m < |before| + |layer| ==> wishes[m].layer <= wish.layer;
    assert hits[j].uri == wish.uri;
  }

  lemma LayersOf(items: seq<Candidate>)
    ensures Wishes(items) == Layer0(items) + Layer1(items) + First(MAX_L2, Layer2(items))
  {
  }

  lemma {:induction false} AtMost(hits: seq<Wish>, before: nat, bodies: nat)
    requires forall i :: 0 <= i < |hits| && i < before ==> hits[i].layer != 2
    requires |hits| <= before + bodies
    ensures CountLayer(hits, 2) <= bodies
    decreases |hits|
  {
    if hits != [] {
      if |hits| <= before {
        AtMost(hits[..|hits| - 1], before, 0);
      } else {
        AtMost(hits[..|hits| - 1], before, bodies - 1);
      }
    }
  }
}
