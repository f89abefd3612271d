/** What cabinet URIs promise: formatting and parsing undo each other, and so do parent and child. */
module CabinetUriRoundTrip {
  import opened Wrappers
  import opened Text
  import opened Percent
  import opened CabinetUri

  // ---------- Parts ----------

  predicate PlainParts(parts: seq<string>) { forall i :: 0 <= i < |parts| ==> parts[i] != "" && AllPlain(parts[i]) }

  lemma QuotedIsPlain(s: string)
    ensures AllPlain(Quote(s)) && (s != "" ==> Quote(s) != "")
  {
    QuotedIsWellEncoded(s);
    WellEncodedIsPlain(Quote(s));
  }

  lemma {:induction false} PartsReadBack(parts: seq<string>)
    requires forall i :: 0 <= i < |parts| ==> parts[i] != ""
    ensures var quoted := QuoteAll(parts);
            |quoted| == |parts| && PlainParts(quoted) && NonEmpty(quoted) == quoted && UnquoteAll(quoted) == parts
  {
    if parts != [] {
      hide Quote, Unquote, AllPlain;
      QuotedIsPlain(parts[0]);
      UnquoteUndoesQuote(parts[0]);
      PartsReadBack(parts[1..]);
      PartsPrepend(Quote(parts[0]), QuoteAll(parts[1..]));
      assert [parts[0]] + parts[1..] == parts;
    }
  }

  lemma PartsPrepend(q: string, rest: seq<string>)
    requires q != "" && AllPlain(q) && PlainParts(rest) && NonEmpty(rest) == rest
    ensures PlainParts([q] + rest) && NonEmpty([q] + rest) == [q] + rest
    ensures UnquoteAll([q] + rest) == [Unquote(q)] + UnquoteAll(rest)
  {
    hide AllPlain, Unquote;
    assert ([q] + rest)[1..] == rest;
  }

  predicate AllUnreserved(s: string) { forall i :: 0 <= i < |s| ==> Unreserved(s[i]) }

  lemma {:induction false} QuoteLeavesUnreserved(s: string)
    requires AllUnreserved(s)
    ensures Quote(s) == s
  {
    if s != "" { QuoteLeavesUnreserved(s[1..]); }
  }

  lemma KindsArePlain(kind: string)
    requires IsKind(kind)
    ensures kind != "" && AllPlain(kind) && Unquote(kind) == kind
  {
    assert kind != "" && AllUnreserved(kind);
    hide IsKind;
    QuoteLeavesUnreserved(kind);
    QuotedIsPlain(kind);
    UnquoteUndoesQuote(kind);
  }

  lemma PlainHasNoSlash(s: string)
    requires AllPlain(s)
    ensures NoSlash(s) && NoSpace(s)
  {
  }

  lemma {:induction false} JoinedParts(parts: seq<string>)
    requires parts != [] && PlainParts(parts)
    ensures var body := JoinSlash(parts);
            && body != "" && body[0] != '/' && NoSpace(body) && SplitSlash(body) == parts
  {
    forall p | p in parts ensures NoSlash(p) { PlainHasNoSlash(p); }
    SlashSplitUndoesJoin(parts);
    PlainHasNoSlash(parts[0]);
    if |parts| > 1 {
      JoinedParts(parts[1..]);
    }
  }

  lemma NothingToStrip(s: string)
    requires NoSpace(s)
    ensures Strip(s) == s
  {
    StripWorks(s);
  }

  /** A valid scope is stripped already, and valid again. */
  lemma ScopeIsStable(value: string)
    requires ValidScope(value).Ok?
    ensures ValidScope(value).value == Strip(value) != "" && ValidScope(Strip(value)) == ValidScope(value)
    ensures Strip(Strip(value)) == Strip(value)
  {
    StripWorks(value);
    StripWorks(Strip(value));
  }

  // ---------- The round trip ----------

  /** The parts of a formatted URI behind its scheme. */
  function Parts(u: Uri): seq<string> {
    [Quote(u.scope), u.kind] + if u.path == "" then [] else QuoteAll(SplitSlash(u.path))
  }

  /** What a triple means: scope and kind stripped of white space, the path of its outer slashes. */
  function Normalized(scope: string, kind: string, path: string): Uri {
    Uri(Strip(scope), Strip(kind), StripSlashes(path))
  }

  /** A triple that is normal and that the format accepts. */
  predicate Canonical(u: Uri) {
    && IsKind(u.kind) && ValidScope(u.scope) == Ok(u.scope) && NoOuterSlash(u.path)
    && (u.path != "" ==> |Encode(u.path)| <= PATH_MAX_BYTES && ValidSegments(SplitSlash(u.path)))
  }

  lemma FormatUnfolds(scope: string, kind: string, path: string)
    requires Format(scope, kind, path).Ok?
    ensures var text, rest := Format(scope, kind, path).value, StripSlashes(path);
            && IsKind(Strip(kind)) && ValidScope(Strip(scope)).Ok?
            && (rest != "" ==> |Encode(rest)| <= PATH_MAX_BYTES && ValidSegments(SplitSlash(rest)))
            && text == SCHEME + Quote(ValidScope(Strip(scope)).value) + "/" + Strip(kind)
                       + Tail(rest)
  {
    hide ValidScope, Strip, StripSlashes, Quote, Encode, ValidSegments, IsKind, SplitSlash, QuoteAll, JoinSlash;
  }

  /** The path of a URI as it stands behind its kind. */
  function Tail(path: string): string {
    if path == "" then "" else "/" + JoinSlash(QuoteAll(SplitSlash(path)))
  }

  lemma Bracket(a: string, b: string, c: string, d: string, e: string)
    ensures a + b + c + d + e == a + (b + c + d + e)
  {
  }

  lemma MakeCanonical(scope: string, kind: string, path: string)
    requires IsKind(kind) && ValidScope(scope) == Ok(scope) && NoOuterSlash(path)
    requires path != "" ==> |Encode(path)| <= PATH_MAX_BYTES && ValidSegments(SplitSlash(path))
    ensures Canonical(Uri(scope, kind, path))
  {
  }

  lemma FormatMeans(scope: string, kind: string, path: string)
    requires Format(scope, kind, path).Ok?
    ensures var u := Normalized(scope, kind, path);
            Canonical(u) && Format(scope, kind, path).value == SCHEME + JoinSlash(Parts(u))
  {
    var u := Normalized(scope, kind, path);
    assert u == Uri(Strip(scope), Strip(kind), StripSlashes(path));
    hide *;
    FormatUnfolds(scope, kind, path);
    ScopeIsStable(Strip(scope));
    StripTwice(scope);
    StripSlashesWorks(path);
    MakeCanonical(u.scope, u.kind, u.path);
    JoinOfParts(u);
    Bracket(SCHEME, Quote(u.scope), "/", u.kind, Tail(u.path));
  }

  lemma StripTwice(s: string)
    ensures Strip(Strip(s)) == Strip(s)
  {
    StripWorks(s);
    StripWorks(Strip(s));
  }

  lemma JoinOfParts(u: Uri)
    ensures JoinSlash(Parts(u)) == Quote(u.scope) + "/" + u.kind + Tail(u.path)
  {
    if u.path == "" {
      assert Parts(u) == [Quote(u.scope), u.kind];
      assert Parts(u)[1..] == [u.kind];
    } else {
      var rest := QuoteAll(SplitSlash(u.path));
      assert rest != [];
      assert Parts(u)[1..] == [u.kind] + rest && Parts(u)[1..][1..] == rest;
    }
    hide Quote, SplitSlash, QuoteAll;
  }

  lemma PartsArePlain(u: Uri)
    requires Canonical(u)
    ensures var segs := if u.path == "" then [] else SplitSlash(u.path);
            var parts := Parts(u);
            && |parts| >= 2 && PlainParts(parts) && parts[0] == Quote(u.scope) && parts[1] == u.kind
            && parts[2..] == QuoteAll(segs) && NonEmpty(QuoteAll(segs)) == QuoteAll(segs) && UnquoteAll(QuoteAll(segs)) == segs
  {
    var segs := if u.path == "" then [] else SplitSlash(u.path);
    assert Parts(u) == [Quote(u.scope), u.kind] + QuoteAll(segs);
    assert ValidScope(u.scope) == Ok(u.scope) && IsKind(u.kind);
    hide *;
    ScopeIsStable(u.scope);
    SegmentsOf(u);
    PartsReadBack(segs);
    QuotedIsPlain(u.scope);
    KindsArePlain(u.kind);
    PlainInFront(Quote(u.scope), u.kind, QuoteAll(segs));
  }

  lemma PlainInFront(first: string, second: string, rest: seq<string>)
    requires first != "" && AllPlain(first) && second != "" && AllPlain(second) && PlainParts(rest)
    ensures var parts := [first, second] + rest;
            PlainParts(parts) && parts[0] == first && parts[1] == second && parts[2..] == rest
  {
    hide AllPlain;
  }

  lemma ParseReadsParts(u: Uri)
    requires Canonical(u)
    ensures Parse(SCHEME + JoinSlash(Parts(u))) == Ok(u)
  {
    var segs := if u.path == "" then [] else SplitSlash(u.path);
    var parts := Parts(u);
    var body := JoinSlash(parts);
    assert ValidScope(u.scope) == Ok(u.scope) && IsKind(u.kind);
    hide *;
    PartsArePlain(u);
    SegmentsOf(u);
    UnquoteUndoesQuote(u.scope);
    KindsArePlain(u.kind);
    JoinedParts(parts);
    SchemeInFront(body);
    ParseUnfolds(SCHEME + body, body, parts, u, segs);
  }

  lemma SegmentsOf(u: Uri)
    requires Canonical(u)
    ensures var segs := if u.path == "" then [] else SplitSlash(u.path);
            && ValidSegments(segs) && JoinSlash(segs) == u.path && |Encode(u.path)| <= PATH_MAX_BYTES
            && forall i :: 0 <= i < |segs| ==> segs[i] != ""
  {
    SlashJoinUndoesSplit(u.path);
    hide SplitSlash, ValidScope, IsKind;
  }

  lemma SchemeInFront(body: string)
    requires NoSpace(body)
    ensures var raw := SCHEME + body;
            Strip(raw) == raw && SCHEME <= raw && raw[|SCHEME|..] == body
  {
    assert NoSpace(SCHEME);
    NothingToStrip(SCHEME + body);
  }

  lemma ParseUnfolds(raw: string, body: string, parts: seq<string>, u: Uri, segs: seq<string>)
    requires Strip(raw) == raw && SCHEME <= raw && raw[|SCHEME|..] == body
    requires body != "" && body[0] != '/' && SplitSlash(body) == parts && |parts| >= 2
    requires ValidScope(Unquote(parts[0])) == Ok(u.scope) && Unquote(parts[1]) == u.kind && IsKind(u.kind)
    requires UnquoteAll(NonEmpty(parts[2..])) == segs && ValidSegments(segs) && JoinSlash(segs) == u.path
    requires |Encode(u.path)| <= PATH_MAX_BYTES
    ensures Parse(raw) == Ok(u)
  {
    hide Strip, SplitSlash, ValidScope, Unquote, IsKind, UnquoteAll, NonEmpty, ValidSegments, JoinSlash, Encode;
  }

  /**
   * Parsing undoes formatting: whatever scope, kind and path are accepted, they come back, without the
   * white space around scope and kind and the slashes around the path.
   */
  lemma ParseUndoesFormat(scope: string, kind: string, path: string)
    requires Format(scope, kind, path).Ok?
    ensures Parse(Format(scope, kind, path).value) == Ok(Normalized(scope, kind, path))
  {
    FormatMeans(scope, kind, path);
    hide *;
    ParseReadsParts(Normalized(scope, kind, path));
  }

  /** Formatting is injective on what triples mean. */
  lemma FormatIsInjective(scope: string, kind: string, path: string, scope': string, kind': string, path': string)
    requires Format(scope, kind, path).Ok? && Format(scope, kind, path) == Format(scope', kind', path')
    ensures Normalized(scope, kind, path) == Normalized(scope', kind', path')
  {
    ParseUndoesFormat(scope, kind, path);
    ParseUndoesFormat(scope', kind', path');
    hide Format, Parse, Normalized;
  }

  // ---------- Which triples and URIs are accepted ----------

  /** A triple is accepted exactly when what it means is canonical. */
  lemma FormatAcceptsCanonical(scope: string, kind: string, path: string)
    ensures Format(scope, kind, path).Ok? <==> Canonical(Normalized(scope, kind, path))
  {
    StripTwice(scope);
    ScopeTwice(scope);
    StripSlashesWorks(path);
    if Format(scope, kind, path).Ok? {
      FormatMeans(scope, kind, path);
    }
    hide ValidScope, Strip, StripSlashes, Quote, Encode, ValidSegments, IsKind, SplitSlash, QuoteAll, JoinSlash, NoOuterSlash;
  }

  lemma ScopeTwice(scope: string)
    ensures ValidScope(Strip(scope)).Ok? ==> ValidScope(Strip(scope)) == Ok(Strip(scope))
  {
    StripTwice(scope);
  }

  lemma NormalizedIsNormal(u: Uri)
    requires Canonical(u)
    ensures Normalized(u.scope, u.kind, u.path) == u
  {
    ScopeIsStable(u.scope);
    StripSlashesWorks(u.path);
    KindsArePlain(u.kind);
    PlainHasNoSlash(u.kind);
    NothingToStrip(u.kind);
    hide ValidScope, Strip, StripSlashes, IsKind, SplitSlash, AllPlain, NoOuterSlash;
  }

  lemma {:induction false} JoinHasNoOuterSlash(segs: seq<string>)
    requires forall i :: 0 <= i < |segs| ==> segs[i] != "" && NoSlash(segs[i])
    ensures NoOuterSlash(JoinSlash(segs)) && (JoinSlash(segs) == "" <==> segs == [])
  {
    if |segs| > 1 {
      JoinHasNoOuterSlash(segs[1..]);
      var joined, rest := JoinSlash(segs), JoinSlash(segs[1..]);
      assert joined[0] == segs[0][0] && joined[|joined| - 1] == rest[|rest| - 1];
    }
  }

  lemma ParsedIsCanonical(value: string)
    requires Parse(value).Ok?
    ensures Canonical(Parse(value).value)
  {
    var segs := ParsedSegments(value);
    hide Parse, ValidScope, IsKind, Encode, Strip, Unquote;
    JoinHasNoOuterSlash(segs);
    if segs != [] {
      forall p | p in segs ensures NoSlash(p) { }
      SlashSplitUndoesJoin(segs);
    }
    hide SplitSlash, JoinSlash;
  }

  lemma ParsedSegments(value: string) returns (segs: seq<string>)
    requires Parse(value).Ok?
    ensures var u := Parse(value).value;
            && ValidSegments(segs) && u.path == JoinSlash(segs) && |Encode(u.path)| <= PATH_MAX_BYTES
            && IsKind(u.kind) && ValidScope(u.scope) == Ok(u.scope)
  {
    var parts := SplitSlash(Strip(value)[|SCHEME|..]);
    segs := UnquoteAll(NonEmpty(parts[2..]));
    ScopeIsStable(Unquote(parts[0]));
    hide ValidScope, IsKind, Encode, Strip, Unquote, UnquoteAll, NonEmpty, SplitSlash, JoinSlash, ValidSegments;
  }

  /** Parsing finds the canonical form: what it returns can be formatted, and parses to itself again. */
  lemma ParseIsCanonicalising(value: string)
    requires Parse(value).Ok?
    ensures var u := Parse(value).value;
            && Format(u.scope, u.kind, u.path).Ok?
            && Parse(Format(u.scope, u.kind, u.path).value) == Ok(u)
  {
    var u := Parse(value).value;
    ParsedIsCanonical(value);
    NormalizedIsNormal(u);
    FormatAcceptsCanonical(u.scope, u.kind, u.path);
    hide Parse, Format, Normalized, Canonical;
    ParseUndoesFormat(u.scope, u.kind, u.path);
  }

  /** Behind the scheme, a formatted URI holds only slashes, unreserved characters and upper-case escapes. */
  lemma FormattedIsEncoded(scope: string, kind: string, path: string, i: nat)
    requires Format(scope, kind, path).Ok?
    ensures var u := Normalized(scope, kind, path);
            && Format(scope, kind, path).value == SCHEME + JoinSlash(Parts(u))
            && (i < |Parts(u)| ==> WellEncoded(Parts(u)[i]))
  {
    var u := Normalized(scope, kind, path);
    FormatMeans(scope, kind, path);
    assert IsKind(u.kind);
    hide Format, Normalized;
    KindsAreEncoded(u.kind);
    QuotedIsWellEncoded(u.scope);
    var segs := if u.path == "" then [] else SplitSlash(u.path);
    QuoteAllIsEncoded(segs);
    assert Parts(u) == [Quote(u.scope), u.kind] + QuoteAll(segs);
    hide WellEncoded, Quote, QuoteAll, SplitSlash, JoinSlash;
  }

  lemma {:induction false} QuoteAllIsEncoded(parts: seq<string>)
    ensures forall i :: 0 <= i < |QuoteAll(parts)| ==> WellEncoded(QuoteAll(parts)[i])
  {
    if parts != [] {
      QuotedIsWellEncoded(parts[0]);
      QuoteAllIsEncoded(parts[1..]);
    }
  }

  lemma KindsAreEncoded(kind: string)
    requires IsKind(kind)
    ensures WellEncoded(kind)
  {
    assert AllUnreserved(kind);
    hide IsKind;
    QuoteLeavesUnreserved(kind);
    QuotedIsWellEncoded(kind);
  }

  // ---------- Parent and child ----------

  lemma {:induction false} LastSlashBehind(rest: string, piece: string)
    requires NoSlash(piece)
    ensures LastSlash(rest + "/" + piece) == |rest|
  {
    var s := rest + "/" + piece;
    if piece == "" {
      assert s == rest + "/";
    } else {
      var shorter := piece[..|piece| - 1];
      assert s[..|s| - 1] == rest + "/" + shorter && s[|s| - 1] == piece[|piece| - 1];
      LastSlashBehind(rest, shorter);
    }
  }

  /** The parent of a child is the directory it was made from, without outer slashes. */
  lemma ParentUndoesChild(u: Uri, name: string)
    requires Child(u, name).Ok?
    ensures Parent(Child(u, name).value) == Some(u.(path := StripSlashes(u.path)))
  {
    var rest, piece := StripSlashes(u.path), StripSlashes(Strip(name));
    StripSlashesWorks(u.path);
    StripSlashesWorks(Strip(name));
    var path := if rest != "" then rest + "/" + piece else piece;
    assert NoOuterSlash(path);
    StripSlashesWorks(path);
    hide StripSlashes, Strip;
    if rest != "" {
      LastSlashBehind(rest, piece);
      assert path[..|rest|] == rest;
    }
  }
}
