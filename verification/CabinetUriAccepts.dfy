/** Which triples, URIs, names and texts are accepted, by how they are made up of parts. */
module CabinetUriAccepts {
  import opened Wrappers
  import opened Text
  import opened Percent
  import opened CabinetUri

  // ---------- Slashes ----------

  predicate AllSlashes(s: string) { forall i :: 0 <= i < |s| ==> s[i] == '/' }

  lemma {:induction false} LSlashCuts(s: string) returns (front: string)
    ensures s == front + LSlash(s) && AllSlashes(front)
  {
    if s != "" && s[0] == '/' {
      front := LSlashCuts(s[1..]);
      front := "/" + front;
    } else {
      front := "";
    }
  }

  lemma {:induction false} RSlashCuts(s: string) returns (back: string)
    ensures s == RSlash(s) + back && AllSlashes(back)
  {
    if s != "" && s[|s| - 1] == '/' {
      var n := |s| - 1;
      back := RSlashCuts(s[..n]);
      assert s == s[..n] + [s[n]];
      back := back + "/";
    } else {
      back := "";
    }
  }

  /** What is stripped of a path is slashes, and all of them. */
  lemma StripSlashesCuts(s: string) returns (front: string, back: string)
    ensures s == front + StripSlashes(s) + back && AllSlashes(front) && AllSlashes(back)
    ensures StripSlashes(s) != "" ==> StripSlashes(s)[0] != '/' && StripSlashes(s)[|StripSlashes(s)| - 1] != '/'
  {
    front := LSlashCuts(s);
    back := RSlashCuts(LSlash(s));
    StripSlashesWorks(s);
  }

  /** A text is the join of parts without a slash in one way only: its split. */
  lemma PartsAreSplit(text: string, parts: seq<string>)
    requires parts != [] && (forall p :: p in parts ==> NoSlash(p)) && JoinSlash(parts) == text
    ensures parts == SplitSlash(text)
  {
    SlashSplitUndoesJoin(parts);
  }

  // ---------- Scopes and segments ----------

  /** A name that may stand between slashes: not empty, and neither the directory itself nor its parent. */
  predicate Names(p: string) { p != "" && p != "." && p != ".." && '/' !in p }

  /** A text of names between slashes. */
  ghost predicate JoinsNames(text: string, parts: seq<string>) {
    parts != [] && text == JoinSlash(parts) && forall p :: p in parts ==> Names(p)
  }

  ghost predicate NamesJoined(text: string) { exists parts :: JoinsNames(text, parts) }

  predicate Clean(text: string) { '\0' !in text && '\\' !in text }

  lemma CleanMeans(text: string)
    ensures Clean(text) <==> !Has(text, '\0') && !Has(text, '\\')
    ensures '/' !in text <==> NoSlash(text)
  {
  }

  /** The split of a text holds a bad part exactly if the text does not join names. */
  lemma BadParts(text: string)
    ensures NamesJoined(text) <==> !AnyBadPart(text)
  {
    var split := SplitSlash(text);
    forall p | p in split ensures '/' !in p { CleanMeans(p); }
    SlashJoinUndoesSplit(text);
    hide JoinSlash, SplitSlash;
    if NamesJoined(text) {
      var parts :| JoinsNames(text, parts);
      forall p | p in parts ensures NoSlash(p) { CleanMeans(p); }
      PartsAreSplit(text, parts);
      assert forall p :: p in split ==> Names(p);
    }
    if !AnyBadPart(text) {
      assert forall p :: p in split ==> Names(p);
      assert JoinsNames(text, split);
    }
  }

  /**
   * A scope is accepted, as what is left without outer white space, exactly if that is 1 to 128 characters
   * long, has no NUL and no backslash, and joins names.
   */
  lemma ScopeAccepted(value: string)
    ensures var text := Strip(value);
            ValidScope(value) == if 1 <= |text| <= 128 && Clean(text) && NamesJoined(text) then Ok(text) else Err(BadScope)
  {
    BadParts(Strip(value));
    CleanMeans(Strip(value));
    hide NamesJoined, AnyBadPart, Has, Clean;
  }

  /** A name of the file system: as a scope, but as it stands and of any length; its directory is its quotation. */
  lemma FsSegmentAccepted(text: string)
    ensures FsSegment(text) == if text != "" && Clean(text) && NamesJoined(text) then Ok(Quote(text)) else Err(BadSegment)
  {
    BadParts(text);
    CleanMeans(text);
    hide NamesJoined, AnyBadPart, Has, Clean;
  }

  /** A path of names without NUL or backslash. */
  ghost predicate IsPath(text: string, parts: seq<string>) {
    text == JoinSlash(parts) && forall p :: p in parts ==> Names(p) && Clean(p)
  }

  lemma SegmentMeans(p: string)
    ensures ValidSegment(p) <==> Names(p) && Clean(p)
  {
    CleanMeans(p);
  }

  lemma SegmentsMean(parts: seq<string>)
    ensures ValidSegments(parts) <==> forall p :: p in parts ==> Names(p) && Clean(p)
  {
    forall p ensures ValidSegment(p) <==> Names(p) && Clean(p) { SegmentMeans(p); }
    hide ValidSegment, Names, Clean;
  }

  // ---------- Formatting ----------

  predicate KindKnown(kind: string) { kind in {"memories", "resources", "skills", "peers", "sessions"} }

  lemma KindMeans(kind: string)
    ensures IsKind(kind) <==> KindKnown(kind)
  {
  }

  ghost predicate ScopeOk(text: string) { 1 <= |text| <= 128 && Clean(text) && NamesJoined(text) }

  /** Nothing, or at most 512 bytes of names without NUL or backslash. */
  ghost predicate PathOk(path: string) {
    path == "" || (|Encode(path)| <= 512 && exists parts :: IsPath(path, parts))
  }

  lemma PathMeans(path: string)
    requires path != ""
    ensures ValidSegments(SplitSlash(path)) <==> exists parts :: IsPath(path, parts)
  {
    SlashJoinUndoesSplit(path);
    SegmentsMean(SplitSlash(path));
    hide SplitSlash, ValidSegments, JoinSlash;
    if ValidSegments(SplitSlash(path)) { assert IsPath(path, SplitSlash(path)); }
    if parts :| IsPath(path, parts) {
      assert parts != [] by { NoPartsNoPath(parts); }
      forall p | p in parts ensures NoSlash(p) { CleanMeans(p); }
      PartsAreSplit(path, parts);
    }
  }

  lemma NoPartsNoPath(parts: seq<string>)
    ensures parts == [] ==> JoinSlash(parts) == ""
  {
  }

  lemma ScopeInside(scope: string)
    ensures ValidScope(Strip(scope)) == if ScopeOk(Strip(scope)) then Ok(Strip(scope)) else Err(BadScope)
  {
    ScopeAccepted(Strip(scope));
    StripWorks(scope);
    StripWorks(Strip(scope));
    hide NamesJoined, Clean, ValidScope, Strip;
  }

  /**
   * Formatting accepts a triple exactly if its kind is one of the five, its scope is one, and its path without
   * outer slashes is one; otherwise it says what is wrong, the kind first, then the scope, then the path.
   */
  lemma FormatAccepts(scope: string, kind: string, path: string)
    ensures var k, s, p, r := Strip(kind), Strip(scope), StripSlashes(path), Format(scope, kind, path);
            && (r.Ok? <==> KindKnown(k) && ScopeOk(s) && PathOk(p))
            && (r == Err(BadKind) <==> !KindKnown(k))
            && (r == Err(BadScope) <==> KindKnown(k) && !ScopeOk(s))
            && (r == Err(PathTooLong) <==> KindKnown(k) && ScopeOk(s) && p != "" && |Encode(p)| > 512)
            && (r == Err(BadSegment) <==> KindKnown(k) && ScopeOk(s) && !PathOk(p) && |Encode(p)| <= 512)
  {
    var k, p := Strip(kind), StripSlashes(path);
    KindMeans(k);
    ScopeInside(scope);
    if p != "" { PathMeans(p); }
    hide Strip, StripSlashes, ValidScope, ScopeOk, Encode, ValidSegments, SplitSlash, IsKind, KindKnown, IsPath,
         Quote, QuoteAll, JoinSlash;
  }

  // ---------- Parsing ----------

  /** The segments of a path as they stand in a URI: those that are not empty, decoded. */
  function Decoded(parts: seq<string>): seq<string> {
    if parts == [] then []
    else Decoded(parts[..|parts| - 1]) + if parts[|parts| - 1] == "" then [] else [Unquote(parts[|parts| - 1])]
  }

  lemma {:induction false} DecodedFromFront(p: string, parts: seq<string>)
    ensures Decoded([p] + parts) == (if p == "" then [] else [Unquote(p)]) + Decoded(parts)
  {
    hide Unquote;
    if parts == [] {
      assert [p] + parts == [p] && [p][..0] == [];
    } else {
      var n := |parts| - 1;
      DecodedFromFront(p, parts[..n]);
      assert ([p] + parts)[..n + 1] == [p] + parts[..n] && ([p] + parts)[n + 1] == parts[n];
    }
  }

  lemma {:induction false} DecodedIs(parts: seq<string>)
    ensures Decoded(parts) == UnquoteAll(NonEmpty(parts))
  {
    hide Unquote;
    if parts != [] {
      DecodedIs(parts[1..]);
      DecodedFromFront(parts[0], parts[1..]);
      assert parts == [parts[0]] + parts[1..];
      var later := NonEmpty(parts[1..]);
      if parts[0] == "" {
        assert NonEmpty(parts) == [] + later == later;
      } else {
        assert NonEmpty(parts) == [parts[0]] + later && ([parts[0]] + later)[1..] == later;
      }
    }
  }

  /** A text that is the scheme and then parts between slashes, the first of which is not empty. */
  ghost predicate Reads(text: string, parts: seq<string>) {
    parts != [] && parts[0] != "" && text == "unigrok://" + JoinSlash(parts) && forall p :: p in parts ==> '/' !in p
  }

  lemma {:induction false} FirstPart(parts: seq<string>)
    requires parts != [] && forall p :: p in parts ==> NoSlash(p)
    ensures JoinSlash(parts) == "" || JoinSlash(parts)[0] == '/' <==> parts == [""] || parts[0] == ""
  {
    assert parts[0] in parts;
  }

  /** Where the scheme is there and a scope follows, the parts are those of the body. */
  lemma ReadsBody(text: string)
    ensures (exists parts :: Reads(text, parts))
            <==> SCHEME <= text && text[|SCHEME|..] != "" && text[|SCHEME|..][0] != '/'
    ensures forall parts :: Reads(text, parts) ==> parts == SplitSlash(text[|SCHEME|..])
  {
    forall parts | Reads(text, parts)
      ensures SCHEME <= text && text[|SCHEME|..] != "" && text[|SCHEME|..][0] != '/' && parts == SplitSlash(text[|SCHEME|..])
    {
      ReadsOnce(text, parts);
    }
    if SCHEME <= text && text[|SCHEME|..] != "" && text[|SCHEME|..][0] != '/' {
      BodyReads(text);
    }
    hide Reads, SplitSlash;
  }

  lemma ReadsOnce(text: string, parts: seq<string>)
    requires Reads(text, parts)
    ensures SCHEME <= text && text[|SCHEME|..] != "" && text[|SCHEME|..][0] != '/' && parts == SplitSlash(text[|SCHEME|..])
  {
    forall p | p in parts ensures NoSlash(p) { CleanMeans(p); }
    assert text[|SCHEME|..] == JoinSlash(parts);
    FirstPart(parts);
    PartsAreSplit(JoinSlash(parts), parts);
    hide JoinSlash, SplitSlash;
  }

  lemma BodyReads(text: string)
    requires SCHEME <= text && text[|SCHEME|..] != "" && text[|SCHEME|..][0] != '/'
    ensures Reads(text, SplitSlash(text[|SCHEME|..]))
  {
    var body := text[|SCHEME|..];
    var parts := SplitSlash(body);
    SlashJoinUndoesSplit(body);
    assert text == SCHEME + body;
    forall p | p in parts ensures '/' !in p { CleanMeans(p); }
    FirstPart(parts);
    hide JoinSlash, SplitSlash;
  }

  /** What stands for a scope, a kind and a path in a URI of these parts. */
  function ScopeRead(parts: seq<string>): string
    requires parts != []
  {
    Strip(Unquote(parts[0]))
  }

  ghost predicate SegmentsOk(segs: seq<string>) { forall p :: p in segs ==> Names(p) && Clean(p) }

  /** The parts of a URI that parses, and what it stands for. */
  ghost predicate Stands(parts: seq<string>, u: Uri) {
    && |parts| >= 2
    && u.scope == ScopeRead(parts) && ScopeOk(u.scope)
    && u.kind == Unquote(parts[1]) && KindKnown(u.kind)
    && SegmentsOk(Decoded(parts[2..])) && u.path == JoinSlash(Decoded(parts[2..])) && |Encode(u.path)| <= 512
  }

  /**
   * Parsing accepts exactly the texts that are, without outer white space, the scheme, a scope, a kind and any
   * number of path segments between slashes, empty segments left out and every part decoded by itself.
   */
  lemma ParseAccepts(value: string, u: Uri)
    ensures Parse(value) == Ok(u) <==> exists parts :: Reads(Strip(value), parts) && Stands(parts, u)
  {
    var raw := Strip(value);
    ReadsBody(raw);
    if SCHEME <= raw && raw[|SCHEME|..] != "" && raw[|SCHEME|..][0] != '/' {
      var parts := SplitSlash(raw[|SCHEME|..]);
      assert Reads(raw, parts) by { hide *; BodyReads(raw); }
      assert Parse(value) == ParseParts(parts) by { hide *; ParseOfBody(value); }
      hide *;
      PartsStand(parts, u);
    } else {
      assert !Parse(value).Ok? by { hide Strip; }
      hide *;
    }
  }

  /** The parse of what stands behind the scheme, part by part. */
  function ParseParts(parts: seq<string>): Result<Uri>
    requires parts != []
  {
    if |parts| < 2 then Err(NoKind)
    else if !IsValid(ValidScope(Unquote(parts[0]))) then Err(BadScope)
    else if !IsKind(Unquote(parts[1])) then Err(BadKind)
    else if !ValidSegments(Decoded(parts[2..])) then Err(BadSegment)
    else if |Encode(JoinSlash(Decoded(parts[2..])))| > PATH_MAX_BYTES then Err(PathTooLong)
    else Ok(Uri(ScopeRead(parts), Unquote(parts[1]), JoinSlash(Decoded(parts[2..]))))
  }

  predicate IsValid(r: Result<string>) { r.Ok? }

  lemma ParseOfBody(value: string)
    requires SCHEME <= Strip(value) && Strip(value)[|SCHEME|..] != "" && Strip(value)[|SCHEME|..][0] != '/'
    ensures Parse(value) == ParseParts(SplitSlash(Strip(value)[|SCHEME|..]))
  {
    var parts := SplitSlash(Strip(value)[|SCHEME|..]);
    ScopeAccepted(Unquote(parts[0]));
    if |parts| >= 2 { DecodedIs(parts[2..]); }
    hide Strip, SplitSlash, ValidScope, Unquote, IsKind, ValidSegments, Encode, JoinSlash, Decoded, UnquoteAll, NonEmpty,
         Clean, NamesJoined;
  }

  lemma PartsStand(parts: seq<string>, u: Uri)
    requires parts != []
    ensures ParseParts(parts) == Ok(u) <==> Stands(parts, u)
  {
    ScopeAccepted(Unquote(parts[0]));
    if |parts| >= 2 {
      KindMeans(Unquote(parts[1]));
      SegmentsMean(Decoded(parts[2..]));
    }
    hide Strip, ValidScope, Unquote, IsKind, KindKnown, ValidSegments, Encode, JoinSlash, Decoded, Clean, NamesJoined, Names;
  }

  // ---------- Children ----------

  /** A child is made exactly of one name, without its outer white space and then its outer slashes. */
  lemma ChildAccepts(u: Uri, name: string)
    ensures var piece, rest := StripSlashes(Strip(name)), StripSlashes(u.path);
            && (Child(u, name).Ok? <==> Names(piece))
            && (Child(u, name).Err? ==> Child(u, name).reason == BadChild)
            && (Child(u, name).Ok? ==>
                  && Child(u, name).value.scope == u.scope && Child(u, name).value.kind == u.kind
                  && Child(u, name).value.path == JoinSlash((if rest == "" then [] else [rest]) + [piece]))
  {
    var piece, rest := StripSlashes(Strip(name)), StripSlashes(u.path);
    CleanMeans(piece);
    TwoParts(rest, piece);
    hide StripSlashes, Strip, JoinSlash;
  }

  lemma TwoParts(rest: string, piece: string)
    ensures JoinSlash([rest] + [piece]) == rest + "/" + piece && JoinSlash([] + [piece]) == piece
  {
    assert ([rest] + [piece])[1..] == [piece];
    assert [] + [piece] == [piece];
  }
}
