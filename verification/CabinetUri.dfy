/** Cabinet URIs: a scheme, a percent-encoded scope, a kind, and a path of percent-encoded segments. */
module CabinetUri {
  import opened Wrappers
  import opened Text
  import opened Percent

  datatype Reason = BadKind | BadScope | BadSegment | PathTooLong | NotScheme | NoScope | NoKind | BadChild

  datatype Result<T> = Ok(value: T) | Err(reason: Reason)

  const SCHEME := "unigrok://"
  const PATH_MAX_BYTES := 512
  const SCOPE_MAX_CHARS := 128

  predicate IsKind(kind: string) {
    kind == "memories" || kind == "resources" || kind == "skills" || kind == "peers" || kind == "sessions"
  }

  // ---------- Segments ----------

  predicate NoSlash(s: string) { forall i :: 0 <= i < |s| ==> s[i] != '/' }

  /** How far the first slash is, or the length when there is none. */
  function SlashAt(s: string): (n: nat)
    ensures n <= |s| && NoSlash(s[..n]) && (n < |s| ==> s[n] == '/')
  {
    if s == "" || s[0] == '/' then 0
    else
      var n := SlashAt(s[1..]);
      assert s[..n + 1] == [s[0]] + s[1..][..n];
      n + 1
  }

  /** `s.split("/")`. */
  function SplitSlash(s: string): (parts: seq<string>)
    ensures parts != [] && forall p :: p in parts ==> NoSlash(p)
    decreases |s|
  {
    var n := SlashAt(s);
    if n == |s| then
      assert s[..n] == s;
      [s]
    else [s[..n]] + SplitSlash(s[n + 1..])
  }

  /** `"/".join(parts)`. */
  function JoinSlash(parts: seq<string>): string {
    if parts == [] then ""
    else if |parts| == 1 then parts[0]
    else parts[0] + "/" + JoinSlash(parts[1..])
  }

  function LSlash(s: string): string { if s != "" && s[0] == '/' then LSlash(s[1..]) else s }

  function RSlash(s: string): string { if s != "" && s[|s| - 1] == '/' then RSlash(s[..|s| - 1]) else s }

  /** `s.strip("/")`. */
  function StripSlashes(s: string): string { RSlash(LSlash(s)) }

  predicate NoOuterSlash(s: string) { s == "" || (s[0] != '/' && s[|s| - 1] != '/') }

  predicate Dotted(s: string) { s == "." || s == ".." }

  predicate Has(s: string, c: char) { exists i :: 0 <= i < |s| && s[i] == c }

  // ---------- Validation ----------

  predicate AnyBadPart(text: string) { exists p :: p in SplitSlash(text) && (p == "" || Dotted(p)) }

  function ValidScope(value: string): Result<string> {
    var text := Strip(value);
    if text == "" || Has(text, '\0') || Has(text, '\\') || |text| > SCOPE_MAX_CHARS then Err(BadScope)
    else if AnyBadPart(text) then Err(BadScope)
    else Ok(text)
  }

  predicate ValidSegment(text: string) {
    text != "" && !Dotted(text) && NoSlash(text) && !Has(text, '\\') && !Has(text, '\0')
  }

  predicate ValidSegments(parts: seq<string>) { forall i :: 0 <= i < |parts| ==> ValidSegment(parts[i]) }

  function QuoteAll(parts: seq<string>): seq<string> {
    if parts == [] then [] else [Quote(parts[0])] + QuoteAll(parts[1..])
  }

  function UnquoteAll(parts: seq<string>): seq<string> {
    if parts == [] then [] else [Unquote(parts[0])] + UnquoteAll(parts[1..])
  }

  function NonEmpty(parts: seq<string>): seq<string> {
    if parts == [] then [] else (if parts[0] != "" then [parts[0]] else []) + NonEmpty(parts[1..])
  }

  // ---------- The operations ----------

  datatype Uri = Uri(scope: string, kind: string, path: string)

  function Format(scope: string, kind: string, path: string): Result<string> {
    var kindN := Strip(kind);
    if !IsKind(kindN) then Err(BadKind)
    else
      var scopeN := ValidScope(Strip(scope));
      if scopeN.Err? then Err(scopeN.reason)
      else
        var rest := StripSlashes(path);
        if rest == "" then Ok(SCHEME + Quote(scopeN.value) + "/" + kindN)
        else if |Encode(rest)| > PATH_MAX_BYTES then Err(PathTooLong)
        else if !ValidSegments(SplitSlash(rest)) then Err(BadSegment)
        else Ok(SCHEME + Quote(scopeN.value) + "/" + kindN + "/" + JoinSlash(QuoteAll(SplitSlash(rest))))
  }

  function Parse(value: string): Result<Uri> {
    var raw := Strip(value);
    if !(SCHEME <= raw) then Err(NotScheme)
    else
      var body := raw[|SCHEME|..];
      if body == "" || body[0] == '/' then Err(NoScope)
      else
        var parts := SplitSlash(body);
        if |parts| < 2 then Err(NoKind)
        else
          var scope := ValidScope(Unquote(parts[0]));
          if scope.Err? then Err(scope.reason)
          else
            var kind := Unquote(parts[1]);
            if !IsKind(kind) then Err(BadKind)
            else
              var segs := UnquoteAll(NonEmpty(parts[2..]));
              if !ValidSegments(segs) then Err(BadSegment)
              else if |Encode(JoinSlash(segs))| > PATH_MAX_BYTES then Err(PathTooLong)
              else Ok(Uri(scope.value, kind, JoinSlash(segs)))
  }

  function LastSlash(s: string): (n: int)
    ensures -1 <= n < |s| && (n >= 0 ==> s[n] == '/') && (n == -1 ==> NoSlash(s))
    ensures forall i :: n < i < |s| ==> s[i] != '/'
  {
    if s == "" then -1 else if s[|s| - 1] == '/' then |s| - 1 else LastSlash(s[..|s| - 1])
  }

  function Parent(u: Uri): Option<Uri> {
    var rest := StripSlashes(u.path);
    if rest == "" then None
    else if LastSlash(rest) == -1 then Some(u.(path := ""))
    else Some(u.(path := rest[..LastSlash(rest)]))
  }

  function Child(u: Uri, name: string): Result<Uri> {
    var piece := StripSlashes(Strip(name));
    if piece == "" || !NoSlash(piece) || Dotted(piece) then Err(BadChild)
    else
      var rest := StripSlashes(u.path);
      Ok(u.(path := if rest != "" then rest + "/" + piece else piece))
  }

  /** The directory name of a scope or segment. */
  function FsSegment(text: string): Result<string> {
    if text == "" || Has(text, '\0') || Has(text, '\\') then Err(BadSegment)
    else if AnyBadPart(text) then Err(BadSegment)
    else Ok(Quote(text))
  }

  /** Different names never share a directory. */
  lemma DirectoriesDiffer(text: string, other: string)
    requires FsSegment(text).Ok? && FsSegment(text) == FsSegment(other)
    ensures text == other
  {
    UnquoteUndoesQuote(text);
    UnquoteUndoesQuote(other);
  }

  // ---------- Splitting and joining ----------

  lemma {:induction false} SlashAfter(p: string, rest: string)
    requires NoSlash(p) && (rest == "" || rest[0] == '/')
    ensures SlashAt(p + rest) == |p|
  {
    if p == "" {
      assert p + rest == rest;
    } else {
      assert (p + rest)[1..] == p[1..] + rest;
      SlashAfter(p[1..], rest);
    }
  }

  lemma {:induction false} SlashSplitUndoesJoin(parts: seq<string>)
    requires parts != [] && forall p :: p in parts ==> NoSlash(p)
    ensures SplitSlash(JoinSlash(parts)) == parts
  {
    assert parts[0] in parts;
    if |parts| == 1 {
      assert parts[0] + "" == parts[0];
      SlashAfter(parts[0], "");
    } else {
      var rest := "/" + JoinSlash(parts[1..]);
      var all := parts[0] + rest;
      assert JoinSlash(parts) == all;
      SlashAfter(parts[0], rest);
      assert all[|parts[0]| + 1..] == JoinSlash(parts[1..]) && all[..|parts[0]|] == parts[0];
      SlashSplitUndoesJoin(parts[1..]);
    }
  }

  lemma SlashJoinCons(p: string, parts: seq<string>)
    requires parts != []
    ensures JoinSlash([p] + parts) == p + "/" + JoinSlash(parts)
  {
    assert ([p] + parts)[1..] == parts;
  }

  lemma CutAt(s: string, n: nat)
    requires n < |s| && s[n] == '/'
    ensures s[..n] + "/" + s[n + 1..] == s
  {
  }

  lemma {:induction false} SlashJoinUndoesSplit(s: string)
    ensures JoinSlash(SplitSlash(s)) == s
    decreases |s|
  {
    hide SlashAt, JoinSlash;
    var n := SlashAt(s);
    if n < |s| {
      SlashJoinUndoesSplit(s[n + 1..]);
      SlashJoinCons(s[..n], SplitSlash(s[n + 1..]));
      CutAt(s, n);
    } else {
      SlashJoinOne(s);
    }
  }

  lemma SlashJoinOne(s: string)
    ensures JoinSlash([s]) == s
  {
  }

  lemma {:induction false} LSlashStarts(s: string)
    ensures LSlash(s) == "" || LSlash(s)[0] != '/'
  {
    if s != "" && s[0] == '/' { LSlashStarts(s[1..]); }
  }

  lemma {:induction false} RSlashEnds(s: string)
    ensures RSlash(s) <= s && (RSlash(s) == "" || RSlash(s)[|RSlash(s)| - 1] != '/')
  {
    if s != "" && s[|s| - 1] == '/' { RSlashEnds(s[..|s| - 1]); }
  }

  lemma StripSlashesWorks(s: string)
    ensures NoOuterSlash(StripSlashes(s)) && (NoOuterSlash(s) ==> StripSlashes(s) == s)
  {
    LSlashStarts(s);
    RSlashEnds(LSlash(s));
  }
}
