/**
 * Percent-encoding of text as UTF-8 (RFC 3986, sections 2.1 and 2.3), and decoding that replaces malformed
 * bytes. A char is a Unicode scalar value, so lone surrogates do not occur.
 */
module Percent {

  // ---------- UTF-8 ----------

  function EncodeChar(c: char): (bytes: seq<int>)
    ensures forall i :: 0 <= i < |bytes| ==> 0 <= bytes[i] < 256
  {
    var n := c as int;
    if n < 0x80 then [n]
    else if n < 0x800 then [0xC0 + n / 64, 0x80 + n % 64]
    else if n < 0x10000 then [0xE0 + n / 4096, 0x80 + n / 64 % 64, 0x80 + n % 64]
    else [0xF0 + n / 262144, 0x80 + n / 4096 % 64, 0x80 + n / 64 % 64, 0x80 + n % 64]
  }

  function Encode(s: string): seq<int> { if s == "" then [] else EncodeChar(s[0]) + Encode(s[1..]) }

  predicate Continues(b: int) { 0x80 <= b < 0xC0 }

  /** The second bytes that a lead byte of three or four allows. */
  predicate Second(lead: int, b: int) {
    && Continues(b)
    && (lead == 0xE0 ==> b >= 0xA0) && (lead == 0xED ==> b < 0xA0)
    && (lead == 0xF0 ==> b >= 0x90) && (lead == 0xF4 ==> b < 0x90)
  }

  const REPLACEMENT: char := '\U{FFFD}'

  /** One decoded character and how many bytes it takes; a malformed sequence is cut at its first bad byte. */
  function DecodeFirst(b: seq<int>): (r: (char, nat))
    requires b != []
    ensures 1 <= r.1 <= |b|
  {
    var n := |b|;
    var lead := b[0];
    if 0 <= lead < 0x80 then (lead as char, 1)
    else if 0xC2 <= lead < 0xE0 then
      if n > 1 && Continues(b[1]) then ((64 * (lead - 0xC0) + b[1] - 0x80) as char, 2) else (REPLACEMENT, 1)
    else if 0xE0 <= lead < 0xF0 then
      if n <= 1 || !Second(lead, b[1]) then (REPLACEMENT, 1)
      else if n <= 2 || !Continues(b[2]) then (REPLACEMENT, 2)
      else ((4096 * (lead - 0xE0) + 64 * (b[1] - 0x80) + b[2] - 0x80) as char, 3)
    else if 0xF0 <= lead < 0xF5 then
      if n <= 1 || !Second(lead, b[1]) then (REPLACEMENT, 1)
      else if n <= 2 || !Continues(b[2]) then (REPLACEMENT, 2)
      else if n <= 3 || !Continues(b[3]) then (REPLACEMENT, 3)
      else ((262144 * (lead - 0xF0) + 4096 * (b[1] - 0x80) + 64 * (b[2] - 0x80) + b[3] - 0x80) as char, 4)
    else (REPLACEMENT, 1)
  }

  /** `bytes.decode("utf-8", "replace")`. */
  function Decode(b: seq<int>): string {
    if b == [] then ""
    else
      var (c, n) := DecodeFirst(b);
      [c] + Decode(b[n..])
  }

  /** The base-64 digits of a code point, least significant last. */
  lemma Digits(n: nat)
    ensures var d := n / 64;
            && n == 64 * d + n % 64 && d == 64 * (n / 4096) + d % 64
            && n / 4096 == 64 * (n / 262144) + n / 4096 % 64
  {
    assert n / 4096 == n / 64 / 64;
    assert n / 262144 == n / 4096 / 64;
  }

  lemma DecodeTwo(c: char, rest: seq<int>)
    requires 0x80 <= c as int < 0x800
    ensures DecodeFirst(EncodeChar(c) + rest) == (c, 2)
  {
    var n := c as int;
    Digits(n);
    var b := EncodeChar(c) + rest;
    assert b[0] == 0xC0 + n / 64 && b[1] == 0x80 + n % 64;
    hide EncodeChar;
  }

  lemma DecodeThree(c: char, rest: seq<int>)
    requires 0x800 <= c as int < 0x10000
    ensures DecodeFirst(EncodeChar(c) + rest) == (c, 3)
  {
    var n := c as int;
    Digits(n);
    var b := EncodeChar(c) + rest;
    assert b[0] == 0xE0 + n / 4096 && b[1] == 0x80 + n / 64 % 64 && b[2] == 0x80 + n % 64;
    hide EncodeChar;
    var d0, d1, d2 := n / 4096, n / 64 % 64, n % 64;
    assert n == 4096 * d0 + 64 * d1 + d2;
    assert Second(b[0], b[1]) && Continues(b[2]);
  }

  lemma DecodeFour(c: char, rest: seq<int>)
    requires 0x10000 <= c as int
    ensures DecodeFirst(EncodeChar(c) + rest) == (c, 4)
  {
    var n := c as int;
    Digits(n);
    var b := EncodeChar(c) + rest;
    assert b[0] == 0xF0 + n / 262144 && b[1] == 0x80 + n / 4096 % 64;
    assert b[2] == 0x80 + n / 64 % 64 && b[3] == 0x80 + n % 64;
    hide EncodeChar;
    var d0, d1, d2, d3 := n / 262144, n / 4096 % 64, n / 64 % 64, n % 64;
    assert n == 262144 * d0 + 4096 * d1 + 64 * d2 + d3;
    assert Second(b[0], b[1]) && Continues(b[2]) && Continues(b[3]);
  }

  lemma DecodeFirstOfEncoded(c: char, rest: seq<int>)
    ensures EncodeChar(c) != [] && DecodeFirst(EncodeChar(c) + rest) == (c, |EncodeChar(c)|)
  {
    var n := c as int;
    if n < 0x80 {
      assert (EncodeChar(c) + rest)[0] == n;
    } else if n < 0x800 {
      hide DecodeFirst;
      DecodeTwo(c, rest);
    } else if n < 0x10000 {
      hide DecodeFirst;
      DecodeThree(c, rest);
    } else {
      hide DecodeFirst;
      DecodeFour(c, rest);
    }
  }

  lemma {:induction false} DecodeUndoesEncode(s: string)
    ensures Decode(Encode(s)) == s
  {
    if s != "" {
      var first, rest := EncodeChar(s[0]), Encode(s[1..]);
      DecodeFirstOfEncoded(s[0], rest);
      assert (first + rest)[|first|..] == rest;
      DecodeUndoesEncode(s[1..]);
    }
  }

  // ---------- Quoting ----------

  predicate Letter(c: char) { 'A' <= c <= 'Z' || 'a' <= c <= 'z' }

  predicate Digit(c: char) { '0' <= c <= '9' }

  /** Section 2.3 of RFC 3986. */
  predicate Unreserved(c: char) { Letter(c) || Digit(c) || c == '-' || c == '.' || c == '_' || c == '~' }

  function HexDigit(n: int): char
    requires 0 <= n < 16
  {
    if n < 10 then (48 + n) as char else (55 + n) as char
  }

  function QuoteBytes(bytes: seq<int>): string
    requires forall i :: 0 <= i < |bytes| ==> 0 <= bytes[i] < 256
  {
    if bytes == [] then ""
    else ['%', HexDigit(bytes[0] / 16), HexDigit(bytes[0] % 16)] + QuoteBytes(bytes[1..])
  }

  function QuoteChar(c: char): string { if Unreserved(c) then [c] else QuoteBytes(EncodeChar(c)) }

  /** `quote(text, safe="-._~")`. */
  function Quote(s: string): string { if s == "" then "" else QuoteChar(s[0]) + Quote(s[1..]) }

  predicate IsHex(c: char) { Digit(c) || 'A' <= c <= 'F' || 'a' <= c <= 'f' }

  function HexValue(c: char): int
    requires IsHex(c)
  {
    if Digit(c) then c as int - 48 else if c <= 'F' then c as int - 55 else c as int - 87
  }

  /** `unquote_to_bytes`: a percent sign without two hex digits behind it stands for itself. */
  function PercentBytes(s: string): seq<int> {
    if s == "" then []
    else if s[0] == '%' && |s| >= 3 && IsHex(s[1]) && IsHex(s[2])
    then [16 * HexValue(s[1]) + HexValue(s[2])] + PercentBytes(s[3..])
    else [s[0] as int] + PercentBytes(s[1..])
  }

  predicate Ascii(c: char) { c as int < 0x80 }

  predicate AllAscii(s: string) { forall i :: 0 <= i < |s| ==> Ascii(s[i]) }

  function AsciiRun(s: string): (n: nat)
    ensures n <= |s|
  {
    if s == "" || !Ascii(s[0]) then 0 else 1 + AsciiRun(s[1..])
  }

  /** `unquote(text)`: every run of ASCII characters is decoded by itself. */
  function Unquote(s: string): string
    decreases |s|
  {
    if s == "" then ""
    else if !Ascii(s[0]) then [s[0]] + Unquote(s[1..])
    else Decode(PercentBytes(s[..AsciiRun(s)])) + Unquote(s[AsciiRun(s)..])
  }

  // ---------- The round trip ----------

  /** The escape of one byte, read back. */
  lemma EscapeReadsBack(b: int, rest: string)
    requires 0 <= b < 256
    ensures PercentBytes(['%', HexDigit(b / 16), HexDigit(b % 16)] + rest) == [b] + PercentBytes(rest)
    ensures UpperHex(HexDigit(b / 16)) && UpperHex(HexDigit(b % 16))
    ensures WellEncoded(rest) ==> WellEncoded(['%', HexDigit(b / 16), HexDigit(b % 16)] + rest)
  {
    var all := ['%', HexDigit(b / 16), HexDigit(b % 16)] + rest;
    assert all[0] == '%' && all[1] == HexDigit(b / 16) && all[2] == HexDigit(b % 16) && all[3..] == rest;
    HexReadsBack(b / 16);
    HexReadsBack(b % 16);
    hide HexDigit, HexValue;
  }

  lemma HexReadsBack(n: int)
    requires 0 <= n < 16
    ensures UpperHex(HexDigit(n)) && IsHex(HexDigit(n)) && HexValue(HexDigit(n)) == n
  {
  }

  lemma FirstByte(bytes: seq<int>, more: seq<int>)
    requires bytes != []
    ensures bytes + more == [bytes[0]] + (bytes[1..] + more)
  {
  }

  lemma {:induction false} BytesOfQuotedBytes(bytes: seq<int>, rest: string)
    requires forall i :: 0 <= i < |bytes| ==> 0 <= bytes[i] < 256
    ensures PercentBytes(QuoteBytes(bytes) + rest) == bytes + PercentBytes(rest)
  {
    if bytes == [] {
      assert QuoteBytes(bytes) + rest == rest && bytes + PercentBytes(rest) == PercentBytes(rest);
    } else {
      var b, rest' := bytes[0], QuoteBytes(bytes[1..]) + rest;
      assert QuoteBytes(bytes) + rest == ['%', HexDigit(b / 16), HexDigit(b % 16)] + rest';
      hide *;
      BytesOfQuotedBytes(bytes[1..], rest);
      EscapeReadsBack(b, rest');
      FirstByte(bytes, PercentBytes(rest));
    }
  }

  lemma {:induction false} BytesOfQuoted(s: string)
    ensures PercentBytes(Quote(s)) == Encode(s)
  {
    if s != "" {
      var c, rest := s[0], Quote(s[1..]);
      BytesOfQuoted(s[1..]);
      if Unreserved(c) {
        assert QuoteChar(c) + rest == [c] + rest;
        assert ([c] + rest)[1..] == rest;
        assert EncodeChar(c) == [c as int];
      } else {
        BytesOfQuotedBytes(EncodeChar(c), rest);
      }
    }
  }

  /** An unreserved character or part of an escape in upper case; never white space, never a slash. */
  predicate Plain(c: char) { Unreserved(c) || c == '%' }

  predicate AllPlain(s: string) { forall i :: 0 <= i < |s| ==> Plain(s[i]) }

  /** Percent-encoded text: unreserved characters and upper-case escapes, nothing else. */
  predicate WellEncoded(s: string) {
    s == ""
    || (Unreserved(s[0]) && WellEncoded(s[1..]))
    || (s[0] == '%' && |s| >= 3 && UpperHex(s[1]) && UpperHex(s[2]) && WellEncoded(s[3..]))
  }

  predicate UpperHex(c: char) { Digit(c) || 'A' <= c <= 'F' }

  lemma {:induction false} QuotedBytesAreWellEncoded(bytes: seq<int>, rest: string)
    requires forall i :: 0 <= i < |bytes| ==> 0 <= bytes[i] < 256
    requires WellEncoded(rest)
    ensures WellEncoded(QuoteBytes(bytes) + rest)
  {
    if bytes == [] {
      assert QuoteBytes(bytes) + rest == rest;
    } else {
      var b, rest' := bytes[0], QuoteBytes(bytes[1..]) + rest;
      QuotedBytesAreWellEncoded(bytes[1..], rest);
      assert QuoteBytes(bytes) + rest == ['%', HexDigit(b / 16), HexDigit(b % 16)] + rest';
      hide *;
      EscapeReadsBack(b, rest');
    }
  }

  /** Quoted text consists of unreserved characters and of escapes with upper-case hex digits. */
  lemma {:induction false} QuotedIsWellEncoded(s: string)
    ensures WellEncoded(Quote(s)) && (s != "" ==> Quote(s) != "")
  {
    if s != "" {
      QuotedIsWellEncoded(s[1..]);
      if Unreserved(s[0]) {
        assert Quote(s)[1..] == Quote(s[1..]);
      } else {
        QuotedBytesAreWellEncoded(EncodeChar(s[0]), Quote(s[1..]));
      }
    }
  }

  lemma {:induction false} WellEncodedIsPlain(s: string)
    requires WellEncoded(s)
    ensures AllPlain(s) && AllAscii(s)
    decreases |s|
  {
    if s != "" {
      if Unreserved(s[0]) {
        WellEncodedIsPlain(s[1..]);
        assert s == [s[0]] + s[1..];
      } else {
        WellEncodedIsPlain(s[3..]);
        assert s == [s[0], s[1], s[2]] + s[3..];
      }
    }
  }

  lemma {:induction false} RunOfAscii(s: string)
    requires AllAscii(s)
    ensures AsciiRun(s) == |s|
  {
    if s != "" { RunOfAscii(s[1..]); }
  }

  /** Unquoting undoes quoting, for every text. */
  lemma UnquoteUndoesQuote(s: string)
    ensures Unquote(Quote(s)) == s
  {
    QuotedIsWellEncoded(s);
    WellEncodedIsPlain(Quote(s));
    RunOfAscii(Quote(s));
    BytesOfQuoted(s);
    DecodeUndoesEncode(s);
    if s != "" {
      var q := Quote(s);
      assert q[..|q|] == q && q[|q|..] == "";
      hide Decode, PercentBytes, Encode, Quote;
      assert Unquote(q) == Decode(PercentBytes(q)) + Unquote("");
    }
  }

  // ---------- What stands for what ----------

  lemma {:induction false} QuoteAcross(s: string, t: string)
    ensures Quote(s + t) == Quote(s) + Quote(t)
  {
    if s == "" {
      assert s + t == t;
    } else {
      assert (s + t)[1..] == s[1..] + t;
      QuoteAcross(s[1..], t);
      hide QuoteChar;
    }
  }

  /** A character stands for itself exactly if it is unreserved; any other is all escapes. */
  lemma QuotedChar(c: char)
    ensures Quote([c]) == [c] <==> Unreserved(c)
    ensures !Unreserved(c) ==> Quote([c]) == QuoteBytes(EncodeChar(c))
    ensures !Unreserved(c) ==> Quote([c])[0] == '%' && |Quote([c])| == 3 * |EncodeChar(c)|
  {
    assert Quote([c]) == QuoteChar(c) + Quote([c][1..]) == QuoteChar(c) by { hide QuoteChar; }
    QuotedLength(EncodeChar(c));
    assert EncodeChar(c) != [];
    hide EncodeChar;
  }

  lemma {:induction false} QuotedLength(bytes: seq<int>)
    requires forall i :: 0 <= i < |bytes| ==> 0 <= bytes[i] < 256
    ensures |QuoteBytes(bytes)| == 3 * |bytes| && (bytes != [] ==> QuoteBytes(bytes)[0] == '%')
  {
    if bytes != [] { QuotedLength(bytes[1..]); }
  }

  lemma {:induction false} EncodeAcross(s: string, t: string)
    ensures Encode(s + t) == Encode(s) + Encode(t)
  {
    if s == "" {
      assert s + t == t;
    } else {
      assert (s + t)[1..] == s[1..] + t;
      EncodeAcross(s[1..], t);
      hide EncodeChar;
    }
  }

  /** The examples of section 7 of RFC 3629: one, three, two and four bytes. */
  lemma EncodedExamples()
    ensures EncodeChar('A') == [0x41] && EncodeChar('\U{2262}') == [0xE2, 0x89, 0xA2]
    ensures EncodeChar('\U{0391}') == [0xCE, 0x91] && EncodeChar('\U{233B4}') == [0xF0, 0xA3, 0x8E, 0xB4]
  {
  }

  predicate NoPercent(s: string) { forall i :: 0 <= i < |s| ==> s[i] != '%' }

  lemma {:induction false} BytesAsTheyStand(s: string)
    requires AllAscii(s) && NoPercent(s)
    ensures PercentBytes(s) == Encode(s)
  {
    if s != "" {
      BytesAsTheyStand(s[1..]);
      assert EncodeChar(s[0]) == [s[0] as int];
    }
  }

  lemma {:induction false} RunIsAscii(s: string)
    ensures AllAscii(s[..AsciiRun(s)])
  {
    if s != "" && Ascii(s[0]) {
      RunIsAscii(s[1..]);
      assert s[..AsciiRun(s)] == [s[0]] + s[1..][..AsciiRun(s[1..])];
    }
  }

  /** Text without a percent sign is left alone. */
  lemma {:induction false} UnquoteLeaves(s: string)
    requires NoPercent(s)
    ensures Unquote(s) == s
    decreases |s|
  {
    hide Decode, PercentBytes, Encode;
    if s != "" {
      if !Ascii(s[0]) {
        UnquoteLeaves(s[1..]);
      } else {
        var n := AsciiRun(s);
        RunIsAscii(s);
        BytesAsTheyStand(s[..n]);
        DecodeUndoesEncode(s[..n]);
        UnquoteLeaves(s[n..]);
      }
    }
  }

  /** A text of ASCII characters is decoded from the bytes of its escapes and of its other characters, all at once. */
  lemma UnquoteAscii(s: string)
    requires AllAscii(s)
    ensures Unquote(s) == Decode(PercentBytes(s))
  {
    RunOfAscii(s);
    hide Decode, PercentBytes;
    if s != "" {
      assert s[..|s|] == s && s[|s|..] == "";
      assert Unquote(s) == Decode(PercentBytes(s)) + Unquote("");
    } else {
      NothingDecodes();
    }
  }

  lemma NothingDecodes()
    ensures Decode(PercentBytes("")) == ""
  {
  }

  /** An escape in front of text is one byte, whatever the case of its digits; a stray percent sign is itself. */
  lemma EscapeIsOneByte(high: char, low: char, rest: string)
    ensures IsHex(high) && IsHex(low) ==>
              PercentBytes(['%', high, low] + rest) == [16 * HexValue(high) + HexValue(low)] + PercentBytes(rest)
    ensures !IsHex(high) || !IsHex(low) ==>
              PercentBytes(['%', high, low] + rest) == [0x25] + PercentBytes([high, low] + rest)
    ensures HexValue('a') == HexValue('A') == 10 && HexValue('f') == HexValue('F') == 15
    ensures HexValue('0') == 0 && HexValue('9') == 9
  {
    var all := ['%', high, low] + rest;
    assert all[0] == '%' && all[1] == high && all[2] == low && all[3..] == rest && all[1..] == [high, low] + rest;
    hide IsHex, HexValue;
    HexEnds();
  }

  lemma HexEnds()
    ensures IsHex('a') && IsHex('A') && IsHex('f') && IsHex('F') && IsHex('0') && IsHex('9')
    ensures HexValue('a') == HexValue('A') == 10 && HexValue('f') == HexValue('F') == 15
    ensures HexValue('0') == 0 && HexValue('9') == 9
  {
  }

  /** Bytes that are no UTF-8, a lead byte without its continuation, an overlong form and a surrogate: each is replaced. */
  lemma MalformedBytesAreReplaced()
    ensures Decode([0xFF]) == [REPLACEMENT] && Decode([0xC3]) == [REPLACEMENT]
    ensures Decode([0xC3, 0x41]) == [REPLACEMENT, 'A']
    ensures Decode([0xC0, 0xAF]) == [REPLACEMENT, REPLACEMENT]
    ensures Decode([0xED, 0xA0, 0x80]) == [REPLACEMENT, REPLACEMENT, REPLACEMENT]
    ensures Decode([0xE2, 0x89]) == [REPLACEMENT]
  {
    assert Decode([0xC3, 0x41]) == [REPLACEMENT] + Decode([0xC3, 0x41][1..]);
    assert [0xC0, 0xAF][1..] == [0xAF];
    assert [0xED, 0xA0, 0x80][1..] == [0xA0, 0x80] && [0xA0, 0x80][1..] == [0x80];
    assert [0xE2, 0x89][2..] == [];
  }
}
