/** Strings as Python treats them: white space, strip, split and join. A char is a Unicode scalar value. */
module Text {

  /** The characters that `str.split()` and `str.strip()` treat as white space. */
  predicate Space(c: char) {
    var n := c as int;
    || 9 <= n <= 13 || 28 <= n <= 32 || n == 0x85 || n == 0xA0 || n == 0x1680 || 0x2000 <= n <= 0x200A
    || n == 0x2028 || n == 0x2029 || n == 0x202F || n == 0x205F || n == 0x3000
  }

  /** There are 29 of them. */
  lemma SpacesAre(c: char)
    ensures Space(c)
            <==> c as int in {
              9, 10, 11, 12, 13, 28, 29, 30, 31, 32, 0x85, 0xA0, 0x1680, 0x2000, 0x2001, 0x2002, 0x2003, 0x2004, 0x2005,
              0x2006, 0x2007, 0x2008, 0x2009, 0x200A, 0x2028, 0x2029, 0x202F, 0x205F, 0x3000}
  {
  }

  predicate NoSpace(s: string) { forall i :: 0 <= i < |s| ==> !Space(s[i]) }

  predicate IsWord(s: string) { s != "" && NoSpace(s) }

  /** The length of the leading run of characters that are not white space. */
  function Run(s: string): (n: nat)
    ensures n <= |s| && NoSpace(s[..n]) && (n < |s| ==> Space(s[n]))
  {
    if s == "" || Space(s[0]) then 0
    else
      var n := Run(s[1..]);
      assert s[..n + 1] == [s[0]] + s[1..][..n];
      n + 1
  }

  /** `s.split()`. */
  function Split(s: string): (words: seq<string>)
    ensures forall w :: w in words ==> IsWord(w)
    decreases |s|
  {
    if s == "" then []
    else if Space(s[0]) then Split(s[1..])
    else
      var n := Run(s);
      [s[..n]] + Split(s[n..])
  }

  /** `" ".join(words)`. */
  function Join(words: seq<string>): string {
    if words == [] then ""
    else if |words| == 1 then words[0]
    else words[0] + " " + Join(words[1..])
  }

  lemma {:induction false} RunOfWord(w: string, rest: string)
    requires NoSpace(w) && (rest == "" || Space(rest[0]))
    ensures Run(w + rest) == |w|
  {
    if w == "" {
      assert w + rest == rest;
    } else {
      assert (w + rest)[1..] == w[1..] + rest;
      RunOfWord(w[1..], rest);
    }
  }

  /** Splitting undoes joining, for words that are not empty and hold no white space. */
  lemma {:induction false} SplitUndoesJoin(words: seq<string>)
    requires forall w :: w in words ==> IsWord(w)
    ensures Split(Join(words)) == words
  {
    assert words != [] ==> words[0] in words;
    if |words| == 1 {
      assert words[0] + "" == words[0];
      RunOfWord(words[0], "");
    } else if |words| > 1 {
      var rest := " " + Join(words[1..]);
      assert words[0] + " " + Join(words[1..]) == words[0] + rest;
      RunOfWord(words[0], rest);
      assert (words[0] + rest)[|words[0]|..] == rest && (words[0] + rest)[..|words[0]|] == words[0];
      assert rest[1..] == Join(words[1..]);
      SplitUndoesJoin(words[1..]);
    }
  }

  lemma SplitFirst(w: string, rest: string)
    requires IsWord(w) && (rest == "" || Space(rest[0]))
    ensures Split(w + rest) == [w] + Split(rest)
  {
    RunOfWord(w, rest);
    assert (w + rest)[|w|..] == rest && (w + rest)[..|w|] == w;
    assert !Space((w + rest)[0]);
    hide Space, Run, NoSpace;
  }

  /** White space separates words wherever it stands, and counts for nothing itself. */
  lemma {:induction false} SplitAcross(a: string, space: char, b: string)
    requires Space(space)
    ensures Split(a + [space] + b) == Split(a) + Split(b)
    decreases |a|
  {
    hide Space, Run, NoSpace;
    if a == "" {
      assert (a + [space] + b)[1..] == b;
    } else if Space(a[0]) {
      assert (a + [space] + b)[1..] == a[1..] + [space] + b;
      SplitAcross(a[1..], space, b);
    } else {
      var w, rest := a[..Run(a)], a[Run(a)..];
      assert a == w + rest;
      hide Split;
      FirstWord(a);
      SplitFirst(w, rest);
      SplitAcross(rest, space, b);
      assert a + [space] + b == w + (rest + [space] + b);
      assert (rest + [space] + b)[0] == if rest == "" then space else rest[0];
      SplitFirst(w, rest + [space] + b);
      assert [w] + Split(rest) + Split(b) == [w] + (Split(rest) + Split(b));
    }
  }

  lemma FirstWord(s: string)
    requires s != "" && !Space(s[0])
    ensures IsWord(s[..Run(s)]) && (Run(s) < |s| ==> Space(s[Run(s)..][0]))
  {
  }

  function LStrip(s: string): string { if s != "" && Space(s[0]) then LStrip(s[1..]) else s }

  function RStrip(s: string): string { if s != "" && Space(s[|s| - 1]) then RStrip(s[..|s| - 1]) else s }

  /** `s.strip()`. */
  function Strip(s: string): string { RStrip(LStrip(s)) }

  predicate Stripped(s: string) { s == "" || (!Space(s[0]) && !Space(s[|s| - 1])) }

  lemma {:induction false} LStripStarts(s: string)
    ensures LStrip(s) == "" || !Space(LStrip(s)[0])
  {
    if s != "" && Space(s[0]) { LStripStarts(s[1..]); }
  }

  lemma {:induction false} RStripEnds(s: string)
    ensures RStrip(s) <= s && (RStrip(s) == "" || !Space(RStrip(s)[|RStrip(s)| - 1]))
  {
    if s != "" && Space(s[|s| - 1]) { RStripEnds(s[..|s| - 1]); }
  }

  /** Stripping leaves no white space at either end, and leaves alone what has none. */
  lemma StripWorks(s: string)
    ensures Stripped(Strip(s)) && (Stripped(s) ==> Strip(s) == s)
  {
    LStripStarts(s);
    RStripEnds(LStrip(s));
  }

  predicate AllSpace(s: string) { forall i :: 0 <= i < |s| ==> Space(s[i]) }

  lemma {:induction false} LStripCuts(s: string) returns (front: string)
    ensures s == front + LStrip(s) && AllSpace(front)
  {
    if s != "" && Space(s[0]) {
      front := LStripCuts(s[1..]);
      front := [s[0]] + front;
    } else {
      front := "";
    }
  }

  lemma {:induction false} RStripCuts(s: string) returns (back: string)
    ensures s == RStrip(s) + back && AllSpace(back)
  {
    if s != "" && Space(s[|s| - 1]) {
      var n := |s| - 1;
      back := RStripCuts(s[..n]);
      assert s == s[..n] + [s[n]];
      back := back + [s[n]];
    } else {
      back := "";
    }
  }

  /** Stripping cuts nothing but white space. */
  lemma StripCuts(s: string) returns (front: string, back: string)
    ensures s == front + Strip(s) + back && AllSpace(front) && AllSpace(back)
  {
    front := LStripCuts(s);
    back := RStripCuts(LStrip(s));
  }

  /** Text that is not blank once stripped has a word. */
  lemma StrippedHasWords(s: string)
    requires Stripped(s) && s != ""
    ensures Split(s) != []
  {
  }
}
