/** Decoding the escape sequences of character and string literals. The
    parser decodes a literal with a chain of seven `String.replace` calls;
    `ReplaceChain` is that chain as written and `Unescape` is the one-pass
    decoding every escape is meant to have. */
module Escapes {

  /** The letters that may follow a backslash: b n r t " ' and \. */
  predicate IsEscapeLetter(c: char) {
    c == 'b' || c == 'n' || c == 'r' || c == 't' || c == '"' || c == '\'' || c == '\\'
  }

  /** The character an escape letter stands for. */
  function EscapedChar(c: char): char
    requires IsEscapeLetter(c)
  {
    match c
    case 'b' => '\U{8}'
    case 'n' => '\n'
    case 'r' => '\r'
    case 't' => '\t'
    case _ => c
  }

  /** `s.replace(String.valueOf(a) + b, String.valueOf(rep))`: every
      occurrence of the two characters a b, scanning from the left without
      overlap, becomes rep. */
  function ReplaceAll(s: string, a: char, b: char, rep: char): (r: string)
    ensures |r| <= |s|
    ensures (forall k :: 0 <= k < |s| ==> s[k] != a) ==> r == s
    decreases |s|
  {
    if s == [] then []
    else if |s| >= 2 && s[0] == a && s[1] == b then [rep] + ReplaceAll(s[2..], a, b, rep)
    else [s[0]] + ReplaceAll(s[1..], a, b, rep)
  }

  /** The replace chain of parsePrimaryExpression, in its order: \b, \r, \n,
      \t, \", \\ and \'. */
  function ReplaceChain(s: string): string {
    var s1 := ReplaceAll(s, '\\', 'b', '\U{8}');
    var s2 := ReplaceAll(s1, '\\', 'r', '\r');
    var s3 := ReplaceAll(s2, '\\', 'n', '\n');
    var s4 := ReplaceAll(s3, '\\', 't', '\t');
    var s5 := ReplaceAll(s4, '\\', '"', '"');
    var s6 := ReplaceAll(s5, '\\', '\\', '\\');
    ReplaceAll(s6, '\\', '\'', '\'')
  }

  /** Escapes decoded from left to right: a backslash and an escape letter
      become the character the letter stands for. */
  function Unescape(s: string): (r: string)
    ensures |r| <= |s|
    decreases |s|
  {
    if s == [] then []
    else if |s| >= 2 && s[0] == '\\' && IsEscapeLetter(s[1]) then [EscapedChar(s[1])] + Unescape(s[2..])
    else [s[0]] + Unescape(s[1..])
  }

  /** How a character is written inside a literal: backslash, quotes and the
      control characters with an escape, anything else as itself. */
  function EscapeChar(c: char): (w: string)
    ensures 1 <= |w| <= 2
  {
    if c == '\\' then "\\\\"
    else if c == '"' then "\\\""
    else if c == '\'' then "\\'"
    else if c == '\n' then "\\n"
    else if c == '\r' then "\\r"
    else if c == '\t' then "\\t"
    else if c == '\U{8}' then "\\b"
    else [c]
  }

  function Escape(x: string): string
    decreases |x|
  {
    if x == [] then [] else EscapeChar(x[0]) + Escape(x[1..])
  }

  /** Decoding undoes escaping, for every string, and whatever follows the
      escaped text is decoded on its own. */
  lemma {:induction false} UnescapeEscape(x: string, tail: string)
    ensures Unescape(Escape(x) + tail) == x + Unescape(tail)
    decreases |x|
  {
    if x == [] {
      assert Escape(x) + tail == tail;
    } else {
      UnescapeEscape(x[1..], tail);
      UnescapeEscapeStep(x, tail);
    }
  }

  lemma UnescapeEscapeStep(x: string, tail: string)
    requires x != []
    requires Unescape(Escape(x[1..]) + tail) == x[1..] + Unescape(tail)
    ensures Unescape(Escape(x) + tail) == x + Unescape(tail)
  {
    var rest := Escape(x[1..]) + tail;
    UnescapeFirst(x, tail);
    UnescapeChar(x[0], rest);
    ConsSplit(x, Unescape(tail));
  }

  lemma ConsSplit(x: string, u: string)
    requires x != []
    ensures [x[0]] + (x[1..] + u) == x + u
  {
    assert x == [x[0]] + x[1..];
  }

  lemma UnescapeFirst(x: string, tail: string)
    requires x != []
    ensures Unescape(Escape(x) + tail) == Unescape(EscapeChar(x[0]) + (Escape(x[1..]) + tail))
  {
    EscapeFirst(x, tail);
  }

  lemma EscapeFirst(x: string, tail: string)
    requires x != []
    ensures Escape(x) + tail == EscapeChar(x[0]) + (Escape(x[1..]) + tail)
  {
  }

  lemma UnescapeChar(c: char, rest: string)
    ensures Unescape(EscapeChar(c) + rest) == [c] + Unescape(rest)
  {
    var w := EscapeChar(c);
    var s := w + rest;
    if |w| == 2 {
      assert s[0] == '\\' && s[1] == w[1] && s[2..] == rest;
      assert IsEscapeLetter(w[1]) && EscapedChar(w[1]) == c;
    } else {
      assert s[0] == c && s[1..] == rest;
    }
  }

  /** The literal "\\n" (a quote, two backslashes, an n and a quote) stands
      for a backslash followed by the letter n, but the replace chain turns
      it into a backslash followed by a line feed: the \n pass runs before
      the \\ pass and matches the second backslash. */
  lemma ReplaceChainMisreadsBackslash()
    ensures Unescape("\"\\\\n\"") == "\"\\n\""
    ensures ReplaceChain("\"\\\\n\"") == "\"\\\n\""
  {
    var s := "\"\\\\n\"";
    var t1, t2, t3 := "\\\\n\"", "\\n\"", "n\"";
    assert s[1..] == t1 && t1[1..] == t2 && t2[1..] == t3 && t1[2..] == t3;
    // Only the \n pass changes anything.
    SkipsPair(s, t1, t2, t3, 'b', '\U{8}');
    SkipsPair(s, t1, t2, t3, 'r', '\r');
    var s3 := ReplaceAll(s, '\\', 'n', '\n');
    LineFeedPass(s, t1, t2);
    LoneBackslash(s3, 't', '\t');
    LoneBackslash(s3, '"', '"');
    LoneBackslash(s3, '\\', '\\');
    LoneBackslash(s3, '\'', '\'');
    DecodesBackslashN(s, t1, t3);
  }

  /** The \n pass over the literal matches the second backslash. */
  lemma LineFeedPass(s: string, t1: string, t2: string)
    requires s == "\"\\\\n\"" && t1 == s[1..] && t2 == t1[1..]
    ensures ReplaceAll(s, '\\', 'n', '\n') == "\"\\\n\""
  {
    assert t2[2..] == "\"";
    assert ReplaceAll(t2, '\\', 'n', '\n') == "\n\"";
    assert ReplaceAll(t1, '\\', 'n', '\n') == "\\\n\"";
  }

  /** One-pass decoding reads the two backslashes as one escape. */
  lemma DecodesBackslashN(s: string, t1: string, t3: string)
    requires s == "\"\\\\n\"" && t1 == s[1..] && t3 == t1[2..] && t3 == "n\""
    ensures Unescape(s) == "\"\\n\""
  {
    assert Unescape(t3) == t3;
    assert Unescape(t1) == "\\" + t3;
  }

  lemma SkipsPair(s: string, t1: string, t2: string, t3: string, b: char, rep: char)
    requires s == "\"\\\\n\"" && t1 == s[1..] && t2 == t1[1..] && t3 == t2[1..] && t3 == "n\""
    requires b != '\\' && b != 'n'
    ensures ReplaceAll(s, '\\', b, rep) == s
  {
    assert ReplaceAll(t3, '\\', b, rep) == t3;
    assert ReplaceAll(t2, '\\', b, rep) == t2;
    assert ReplaceAll(t1, '\\', b, rep) == t1;
  }

  lemma LoneBackslash(s3: string, b: char, rep: char)
    requires s3 == "\"\\\n\"" && b != '\n'
    ensures ReplaceAll(s3, '\\', b, rep) == s3
  {
    var u1, u2 := s3[1..], s3[2..];
    assert u2 == "\n\"" && u1 == "\\" + u2;
    assert ReplaceAll(u2, '\\', b, rep) == u2;
    assert ReplaceAll(u1, '\\', b, rep) == u1;
  }
}
