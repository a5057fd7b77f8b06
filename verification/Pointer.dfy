/**
 JSON Pointer tokens.  The program escapes a label key by two successive ReplaceAll calls; a
 pointer is read by the two opposite replacements in the opposite order (section 4 of RFC 6901).
 */
module Pointer {

  /** strings.ReplaceAll for a non-empty pattern: leftmost occurrences, not overlapping. */
  function ReplaceAll(s: string, pattern: string, sub: string): string
    requires pattern != []
    decreases |s|
  {
    if |s| < |pattern| then s
    else if s[..|pattern|] == pattern then sub + ReplaceAll(s[|pattern|..], pattern, sub)
    else [s[0]] + ReplaceAll(s[1..], pattern, sub)
  }

  /** escapeJSONPointerToken. */
  function Escape(s: string): string {
    ReplaceAll(ReplaceAll(s, "~", "~0"), "/", "~1")
  }

  /** Evaluation of a reference token. */
  function Unescape(s: string): string {
    ReplaceAll(ReplaceAll(s, "~1", "/"), "~0", "~")
  }

  /** Each character on its own: the escapes of section 3 of RFC 6901. */
  function EscapeChar(c: char): string {
    if c == '~' then "~0" else if c == '/' then "~1" else [c]
  }

  function EscapeEach(s: string): string {
    if s == [] then [] else EscapeChar(s[0]) + EscapeEach(s[1..])
  }

  // ---------------------------------------------------------------- one pass

  /** Replacing a single character works character by character. */
  lemma ReplaceCons(s: string, p: char, sub: string)
    requires s != []
    ensures ReplaceAll(s, [p], sub) == (if s[0] == p then sub else [s[0]]) + ReplaceAll(s[1..], [p], sub)
  {
  }

  lemma {:induction false} ReplaceConcat(s: string, t: string, p: char, sub: string)
    ensures ReplaceAll(s + t, [p], sub) == ReplaceAll(s, [p], sub) + ReplaceAll(t, [p], sub)
    decreases |s|
  {
    if s == [] {
      assert s + t == t;
    } else {
      assert (s + t)[1..] == s[1..] + t;
      ReplaceCons(s + t, p, sub);
      ReplaceCons(s, p, sub);
      ReplaceConcat(s[1..], t, p, sub);
    }
  }

  lemma ReplaceOne(c: char, p: char, sub: string)
    ensures ReplaceAll([c], [p], sub) == if c == p then sub else [c]
  {
  }

  /** The two successive replacements are the one-pass character map. */
  lemma {:induction false} EscapeIsEscapeEach(s: string)
    ensures Escape(s) == EscapeEach(s)
    decreases |s|
  {
    if s != [] {
      var head := if s[0] == '~' then "~0" else [s[0]];
      ReplaceCons(s, '~', "~0");
      ReplaceConcat(head, ReplaceAll(s[1..], "~", "~0"), '/', "~1");
      EscapeHead(s[0]);
      EscapeIsEscapeEach(s[1..]);
    }
  }

  lemma EscapeHead(c: char)
    ensures ReplaceAll(if c == '~' then "~0" else [c], "/", "~1") == EscapeChar(c)
  {
    if c == '~' {
      ReplaceCons("~0", '/', "~1");
      ReplaceOne('0', '/', "~1");
      assert "~0"[1..] == ['0'];
      assert ['~'] + ['0'] == "~0";
    } else {
      ReplaceOne(c, '/', "~1");
    }
  }

  // ---------------------------------------------------------------- decoding

  /** After "~1" has become "/" only the tildes are still escaped. */
  function EscapeTildes(s: string): string {
    if s == [] then [] else (if s[0] == '~' then "~0" else [s[0]]) + EscapeTildes(s[1..])
  }

  /** A two-character pattern that starts with '~', at the head of a text. */
  lemma DecodeHead(c: char, t: string, digit: char, sub: string)
    requires c != '~'
    ensures ReplaceAll([c] + t, ['~', digit], sub) == [c] + ReplaceAll(t, ['~', digit], sub)
  {
  }

  lemma DecodeMatch(t: string, digit: char, sub: string)
    ensures ReplaceAll(['~', digit] + t, ['~', digit], sub) == sub + ReplaceAll(t, ['~', digit], sub)
  {
  }

  lemma DecodeOther(t: string, d: char, digit: char, sub: string)
    requires d != digit && d != '~'
    ensures ReplaceAll(['~', d] + t, ['~', digit], sub) == ['~', d] + ReplaceAll(t, ['~', digit], sub)
  {
  }

  lemma {:induction false} DecodeSlashes(s: string)
    ensures ReplaceAll(EscapeEach(s), "~1", "/") == EscapeTildes(s)
    decreases |s|
  {
    if s != [] {
      DecodeSlashes(s[1..]);
      if s[0] == '~' {
        DecodeOther(EscapeEach(s[1..]), '0', '1', "/");
      } else if s[0] == '/' {
        DecodeMatch(EscapeEach(s[1..]), '1', "/");
      } else {
        DecodeHead(s[0], EscapeEach(s[1..]), '1', "/");
      }
    }
  }

  lemma {:induction false} DecodeTildes(s: string)
    ensures ReplaceAll(EscapeTildes(s), "~0", "~") == s
    decreases |s|
  {
    if s != [] {
      DecodeTildes(s[1..]);
      if s[0] == '~' {
        DecodeMatch(EscapeTildes(s[1..]), '0', "~");
      } else {
        DecodeHead(s[0], EscapeTildes(s[1..]), '0', "~");
      }
      assert s == [s[0]] + s[1..];
    }
  }

  /** Reading an escaped key gives the key back, whatever characters it has. */
  lemma UnescapeEscape(s: string)
    ensures Unescape(Escape(s)) == s
  {
    EscapeIsEscapeEach(s);
    DecodeSlashes(s);
    DecodeTildes(s);
  }

  /** An escaped key is a single reference token. */
  lemma {:induction false} EscapeHasNoSlash(s: string)
    ensures '/' !in Escape(s)
    decreases |s|
  {
    EscapeIsEscapeEach(s);
    if s != [] {
      EscapeHasNoSlash(s[1..]);
      EscapeIsEscapeEach(s[1..]);
    }
  }

  /** Distinct keys have distinct tokens. */
  lemma EscapeInjective(s: string, t: string)
    requires Escape(s) == Escape(t)
    ensures s == t
  {
    UnescapeEscape(s);
    UnescapeEscape(t);
  }
}
