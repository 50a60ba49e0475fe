/**
 * The string escaper esc of App.java, used to splice the identity fields into
 * the registration body. It escapes backslash and double quote and nothing
 * else: control characters pass through unchanged, so it is not a complete
 * JSON string escaper in the sense of section 7 of RFC 8259.
 */
module Escape {
  import opened Optional

  /** Occurrences of c in s. */
  function Count(s: string, c: char): nat {
    if s == [] then 0 else (if s[0] == c then 1 else 0) + Count(s[1..], c)
  }

  /** String.replace with a one-character target: each occurrence of c, left to right, becomes rep. */
  function ReplaceChar(s: string, c: char, rep: string): (r: string)
    ensures c !in s ==> r == s
  {
    if s == [] then [] else (if s[0] == c then rep else [s[0]]) + ReplaceChar(s[1..], c, rep)
  }

  /** esc: s.replace("\\", "\\\\").replace("\"", "\\\""). */
  function Esc(s: string): string {
    ReplaceChar(ReplaceChar(s, '\\', "\\\\"), '"', "\\\"")
  }

  /** What esc does to one character. */
  function EscChar(c: char): string {
    if c == '\\' then "\\\\" else if c == '"' then "\\\"" else [c]
  }

  /** Reference definition: escape each character on its own and concatenate. */
  function EscapeEach(s: string): string {
    if s == [] then [] else EscChar(s[0]) + EscapeEach(s[1..])
  }

  /**
   * Reads the body of a JSON string literal up to its closing quote,
   * decoding the two escapes esc produces (\\ and \"). Returns the decoded
   * text and what follows the closing quote; None when there is no closing
   * quote or another escape sequence occurs.
   */
  function ReadString(t: string): Option<(string, string)>
    decreases |t|
  {
    if t == [] then None
    else if t[0] == '"' then Some(([], t[1..]))
    else if t[0] == '\\' then
      if |t| >= 2 && (t[1] == '\\' || t[1] == '"') then
        match ReadString(t[2..])
        case None => None
        case Some((v, rest)) => Some(([t[1]] + v, rest))
      else None
    else
      match ReadString(t[1..])
      case None => None
      case Some((v, rest)) => Some(([t[0]] + v, rest))
  }

  lemma {:induction false} ReplaceCharConcat(a: string, b: string, c: char, rep: string)
    ensures ReplaceChar(a + b, c, rep) == ReplaceChar(a, c, rep) + ReplaceChar(b, c, rep)
  {
    if a == [] {
      assert a + b == b;
    } else {
      assert (a + b)[0] == a[0] && (a + b)[1..] == a[1..] + b;
      ReplaceCharConcat(a[1..], b, c, rep);
    }
  }

  /** Each occurrence of c becomes rep, and the text on either side is replaced independently. */
  lemma ReplaceCharAtOccurrence(a: string, c: char, rep: string, b: string)
    ensures ReplaceChar(a + [c] + b, c, rep) == ReplaceChar(a, c, rep) + rep + ReplaceChar(b, c, rep)
  {
    ReplaceCharConcat(a + [c], b, c, rep);
    ReplaceCharConcat(a, [c], c, rep);
    assert ReplaceChar([c], c, rep) == rep + ReplaceChar([], c, rep);
  }

  /**
   * The two passes act character by character: the backslash that the second
   * pass puts before a quote is not doubled by the first.
   */
  lemma {:induction false} EscIsPerCharacter(s: string)
    ensures Esc(s) == EscapeEach(s)
  {
    if s != [] {
      var c := s[0];
      assert s == [c] + s[1..];
      ReplaceCharConcat([c], s[1..], '\\', "\\\\");
      var once := ReplaceChar([c], '\\', "\\\\");
      ReplaceCharConcat(once, ReplaceChar(s[1..], '\\', "\\\\"), '"', "\\\"");
      assert ReplaceChar("\\\\", '"', "\\\"") == "\\\\";
      assert ReplaceChar("\"", '"', "\\\"") == "\\\"";
      EscIsPerCharacter(s[1..]);
    }
  }

  /** esc leaves a string without backslash and double quote unchanged. */
  lemma EscIdentity(s: string)
    requires '\\' !in s && '"' !in s
    ensures Esc(s) == s
  {
  }

  /** Every backslash and every quote grows by one character, nothing else does. */
  lemma {:induction false} EscLength(s: string)
    ensures |Esc(s)| == |s| + Count(s, '\\') + Count(s, '"')
  {
    EscIsPerCharacter(s);
    EscapeEachLength(s);
  }

  lemma {:induction false} EscapeEachLength(s: string)
    ensures |EscapeEach(s)| == |s| + Count(s, '\\') + Count(s, '"')
  {
    if s != [] {
      EscapeEachLength(s[1..]);
    }
  }

  /** Reading one escaped character consumes exactly its escape. */
  lemma ReadEscChar(c: char, tail: string)
    ensures ReadString(EscChar(c) + tail) ==
      match ReadString(tail)
      case None => None
      case Some((v, rest)) => Some(([c] + v, rest))
  {
    var t := EscChar(c) + tail;
    if c == '\\' || c == '"' {
      assert t[0] == '\\' && t[1] == c && t[2..] == tail;
    } else {
      assert t[0] == c && t[1..] == tail;
    }
  }

  lemma {:induction false} ReadEscapeEach(s: string, rest: string)
    ensures ReadString(EscapeEach(s) + "\"" + rest) == Some((s, rest))
  {
    if s == [] {
      assert EscapeEach(s) + "\"" + rest == ['"'] + rest;
    } else {
      var tail := EscapeEach(s[1..]) + "\"" + rest;
      ReadEscapeEach(s[1..], rest);
      assert EscapeEach(s) + "\"" + rest == EscChar(s[0]) + tail;
      ReadEscChar(s[0], tail);
      assert [s[0]] + s[1..] == s;
    }
  }

  /** Decoding \\ to \ and \" to " recovers the escaped text, up to the closing quote. */
  lemma EscRoundTrip(s: string, rest: string)
    ensures ReadString(Esc(s) + "\"" + rest) == Some((s, rest))
  {
    EscIsPerCharacter(s);
    ReadEscapeEach(s, rest);
  }

  /** Distinct strings escape to distinct strings. */
  lemma EscInjective(a: string, b: string)
    requires Esc(a) == Esc(b)
    ensures a == b
  {
    EscRoundTrip(a, "");
    EscRoundTrip(b, "");
  }

  /** Control characters are not escaped: a newline passes through as itself. */
  lemma ControlCharactersPassThrough(c: char)
    requires c < ' '
    ensures Esc([c]) == [c]
  {
  }
}
