/** What the lexer promises about the tokens it returns: they tile the input
    in order with only whitespace between them, and each token's literal has
    the shape its kind calls for. */
module LexingProperties {
  import opened Outcomes
  import opened Tokens
  import opened Lexing
  import Numbers

  predicate AllMatch(p: CharClass, w: string) {
    forall k :: 0 <= k < |w| ==> Matches(p, w[k])
  }

  predicate IdentifierShape(w: string) {
    |w| >= 1 && Matches(IdentStart, w[0]) && AllMatch(IdentPart, w[1..])
  }

  /** The digits of a number after its optional sign: digits, or digits, a
      '.' and digits. */
  predicate UnsignedShape(kind: TokenType, u: string) {
    if kind == Integer then |u| >= 1 && AllMatch(Digit, u)
    else
      var d := Numbers.IndexOf(u, '.');
      kind == Decimal && 0 < d && d + 1 < |u| && AllMatch(Digit, u[..d]) && AllMatch(Digit, u[d + 1..])
  }

  predicate NumberShape(kind: TokenType, w: string) {
    var u := if |w| > 0 && Matches(Sign, w[0]) then w[1..] else w;
    UnsignedShape(kind, u)
  }

  /** A quoted character: one character other than a quote, a newline or a
      backslash, or a backslash and an escape character. */
  predicate CharacterShape(w: string) {
    (|w| == 3 && w[0] == '\'' && Matches(NotQuoteOrNewline('\''), w[1]) && w[1] != '\\' && w[2] == '\'') ||
    (|w| == 4 && w[0] == '\'' && w[1] == '\\' && IsEscape(w[2]) && w[3] == '\'')
  }

  /** The body of a string literal as the lexer's loop reads it: each
      character other than a quote or a newline may be followed by a
      backslash and an escape character. */
  predicate StringBody(b: string)
    decreases |b|
  {
    b == [] ||
    (Matches(NotQuoteOrNewline('"'), b[0]) &&
      if |b| >= 2 && b[1] == '\\' then |b| >= 3 && IsEscape(b[2]) && StringBody(b[3..])
      else StringBody(b[1..]))
  }

  predicate StringShape(w: string) {
    |w| >= 2 && w[0] == '"' && w[|w| - 1] == '"' && StringBody(w[1..|w| - 1])
  }

  /** An operator: a comparison character and '=', or one character that
      starts no other kind of token. */
  predicate OperatorShape(w: string) {
    (|w| == 2 && Matches(OperatorStart, w[0]) && w[1] == '=') ||
    (|w| == 1 && !IsWhitespace(w[0]) && !Matches(IdentStart, w[0]) && !IsDigit(w[0]) &&
      w[0] != '\'' && w[0] != '"' && w[0] != '\\')
  }

  predicate WellFormed(t: Token) {
    match t.kind
    case Identifier => IdentifierShape(t.literal)
    case Integer => NumberShape(Integer, t.literal)
    case Decimal => NumberShape(Decimal, t.literal)
    case Character => CharacterShape(t.literal)
    case String => StringShape(t.literal)
    case Operator => OperatorShape(t.literal)
  }

  /** The tokens cover the input from i on, in order and without overlap,
      each literal being the text at its index, with only whitespace around
      and between them. */
  predicate Tiles(s: string, i: nat, ts: seq<Token>)
    decreases |ts|
  {
    if ts == [] then forall k :: i <= k < |s| ==> IsWhitespace(s[k])
    else
      var t := ts[0];
      var e := t.index + |t.literal|;
      i <= t.index < e <= |s| && t.literal == s[t.index..e] &&
      (forall k :: i <= k < t.index ==> IsWhitespace(s[k])) &&
      Tiles(s, e, ts[1..])
  }

  // ---------------------------------------------------------------------
  // Runs and numbers

  lemma {:induction false} RunAll(s: string, j: nat, p: CharClass)
    requires j <= |s|
    ensures AllMatch(p, s[j..Run(s, j, p)])
    ensures Run(s, j, p) == |s| || !Matches(p, s[Run(s, j, p)])
    decreases |s| - j
  {
    if j < |s| && Matches(p, s[j]) {
      RunAll(s, j + 1, p);
      var e := Run(s, j, p);
      assert forall k :: 1 <= k < e - j ==> s[j..e][k] == s[j + 1..e][k - 1];
    }
  }

  lemma DigitsExtend(s: string, a: nat, b: nat)
    requires a <= b < |s| && AllMatch(Digit, s[a..b]) && IsDigit(s[b])
    ensures AllMatch(Digit, s[a..b + 1])
  {
    assert s[a..b + 1] == s[a..b] + [s[b]];
  }

  /** Digits, a '.' and a run of digits make a decimal, ending where the
      digits do. */
  lemma DecimalTail(s: string, j0: nat, p: nat)
    requires j0 < p <= |s| && AllMatch(Digit, s[j0..p]) && Peeks(s, p, [Exactly('.'), Digit])
    ensures var e := Run(s, p + 2, Digit);
      UnsignedShape(Decimal, s[j0..e]) && (e == |s| || !IsDigit(s[e]))
  {
    PeeksTwo(s, p, Exactly('.'), Digit);
    var e := Run(s, p + 2, Digit);
    RunAll(s, p + 2, Digit);
    var w := s[j0..e];
    var d := p - j0;
    assert AllMatch(Digit, w[..d]) by {
      assert w[..d] == s[j0..p];
    }
    assert AllMatch(Digit, w[d + 1..]) by {
      var f := w[d + 1..];
      assert f[0] == s[p + 1];
      assert forall k :: 1 <= k < |f| ==> f[k] == s[p + 2..e][k - 1];
    }
    DecimalAssembly(w, d);
  }

  /** Digits, a '.' at d and digits after it make a decimal's shape. */
  lemma DecimalAssembly(w: string, d: nat)
    requires 0 < d && d + 1 < |w| && w[d] == '.'
    requires AllMatch(Digit, w[..d]) && AllMatch(Digit, w[d + 1..])
    ensures UnsignedShape(Decimal, w)
  {
    assert forall k :: 0 <= k < d ==> w[k] == w[..d][k];
    assert Numbers.IndexOf(w, '.') == d;
  }

  /** The digit loop after the digits s[j0..p]: the number's shape, and the
      loop stops where no digit and no '.' followed by a digit comes next. */
  lemma {:induction false} AfterDigitShape(s: string, j0: nat, p: nat)
    requires j0 < p <= |s| && AllMatch(Digit, s[j0..p])
    ensures var (kind, e) := AfterDigit(s, p);
      UnsignedShape(kind, s[j0..e]) && (e == |s| || !IsDigit(s[e]))
    ensures var (kind, e) := AfterDigit(s, p);
      kind == Integer ==> !Peeks(s, e, [Exactly('.'), Digit])
    decreases |s| - p
  {
    PeeksTwo(s, p, Exactly('.'), Digit);
    if Peeks(s, p, [Exactly('.'), Digit]) {
      DecimalTail(s, j0, p);
    } else if p < |s| && IsDigit(s[p]) {
      DigitsExtend(s, j0, p);
      AfterDigitShape(s, j0, p + 1);
    }
  }

  lemma NumberLoopShape(s: string, j: nat)
    requires j < |s| && IsDigit(s[j])
    ensures var (kind, e) := NumberLoop(s, j);
      UnsignedShape(kind, s[j..e]) && (e == |s| || !IsDigit(s[e]))
    ensures var (kind, e) := NumberLoop(s, j);
      kind == Integer ==> !Peeks(s, e, [Exactly('.'), Digit])
  {
    DigitsExtend(s, j, j);
    AfterDigitShape(s, j, j + 1);
  }

  /** lexNumber from a digit or a sign and a digit: the literal has the
      number's shape, no digit follows it, and an INTEGER is never followed
      by a '.' and a digit, which would have made it DECIMAL. */
  lemma ScanNumberShape(s: string, i: nat)
    requires Peeks(s, i, [Sign, Digit]) || Peeks(s, i, [Digit])
    ensures var (kind, e) := ScanNumber(s, i);
      NumberShape(kind, s[i..e]) && (e == |s| || !IsDigit(s[e]))
    ensures var (kind, e) := ScanNumber(s, i);
      kind == Integer ==> !Peeks(s, e, [Exactly('.'), Digit])
  {
    PeeksTwo(s, i, Sign, Digit);
    PeeksOne(s, i, Digit);
    var j := if Matches(Sign, s[i]) then i + 1 else i;
    NumberLoopShape(s, j);
    var e := ScanNumber(s, i).1;
    if j == i + 1 {
      assert s[i..e][1..] == s[j..e];
    } else {
      assert s[i..e] == s[j..e];
    }
  }

  // ---------------------------------------------------------------------
  // Characters and strings

  lemma ScanCharacterShape(s: string, i: nat)
    requires i < |s| && s[i] == '\'' && ScanCharacter(s, i).Ok?
    ensures CharacterShape(s[i..ScanCharacter(s, i).value])
  {
  }

  /** The string loop from j ends just past a closing quote, and what it
      read before the quote is a string body. */
  lemma {:induction false} StringLoopSound(s: string, j: nat)
    requires j <= |s| && StringLoop(s, j).Ok?
    ensures var e := StringLoop(s, j).value;
      j < e && s[e - 1] == '"' && StringBody(s[j..e - 1])
    decreases |s| - j
  {
    var e := StringLoop(s, j).value;
    if j < |s| && Matches(NotQuoteOrNewline('"'), s[j]) {
      var b := s[j..e - 1];
      assert StringLoop(s, j) == AfterStringChar(s, j + 1);
      if j + 1 < |s| && s[j + 1] == '\\' {
        assert StringLoop(s, j) == StringLoop(s, j + 3);
        StringLoopSound(s, j + 3);
        assert b[3..] == s[j + 3..e - 1];
      } else {
        assert StringLoop(s, j) == StringLoop(s, j + 1);
        StringLoopSound(s, j + 1);
        assert b[1..] == s[j + 1..e - 1];
      }
    } else {
      assert s[j..e - 1] == [];
    }
  }

  /** A string body followed by a quote is exactly what the loop reads. */
  lemma {:induction false} StringLoopComplete(s: string, j: nat, e: nat)
    requires j < e <= |s| && s[e - 1] == '"' && StringBody(s[j..e - 1])
    ensures StringLoop(s, j) == Ok(e)
    decreases e - j
  {
    var b := s[j..e - 1];
    if b == [] {
      assert j == e - 1;
    } else {
      assert b[0] == s[j];
      if |b| >= 2 && b[1] == '\\' {
        assert b[1] == s[j + 1] && b[2] == s[j + 2];
        assert b[3..] == s[j + 3..e - 1];
        StringLoopComplete(s, j + 3, e);
      } else {
        assert |b| >= 2 ==> b[1] == s[j + 1];
        assert b[1..] == s[j + 1..e - 1];
        StringLoopComplete(s, j + 1, e);
      }
    }
  }

  /** lexString accepts exactly the quoted string bodies. */
  lemma ScanStringIff(s: string, i: nat, e: nat)
    requires i < |s| && s[i] == '"'
    ensures ScanString(s, i) == Ok(e) <==> i < e <= |s| && StringShape(s[i..e])
  {
    if ScanString(s, i) == Ok(e) {
      ScanStringSound(s, i, e);
    }
    if i < e <= |s| && StringShape(s[i..e]) {
      ScanStringComplete(s, i, e);
    }
  }

  lemma ScanStringSound(s: string, i: nat, e: nat)
    requires i < |s| && s[i] == '"' && ScanString(s, i) == Ok(e)
    ensures i < e <= |s| && StringShape(s[i..e])
  {
    assert StringLoop(s, i + 1) == Ok(e);
    StringLoopSound(s, i + 1);
    var w := s[i..e];
    assert |w| == e - i && w[0] == '"' && w[e - i - 1] == '"';
    SliceOfSlice(s, i, e);
  }

  /** The inside of a slice is the slice of the inside. */
  lemma SliceOfSlice(s: string, i: nat, e: nat)
    requires i + 2 <= e <= |s|
    ensures s[i..e][1..e - i - 1] == s[i + 1..e - 1]
  {
    var inner, middle := s[i..e][1..e - i - 1], s[i + 1..e - 1];
    assert |inner| == |middle|;
    forall k | 0 <= k < |inner|
      ensures inner[k] == middle[k]
    {
      assert inner[k] == s[i + k + 1];
    }
  }

  lemma ScanStringComplete(s: string, i: nat, e: nat)
    requires i < |s| && s[i] == '"' && i < e <= |s| && StringShape(s[i..e])
    ensures ScanString(s, i) == Ok(e)
  {
    var w := s[i..e];
    assert |w| == e - i && |w| >= 2;
    SliceOfSlice(s, i, e);
    assert s[e - 1] == w[e - i - 1];
    StringLoopComplete(s, i + 1, e);
  }

  /** A string literal never holds a carriage return or a line feed. */
  lemma {:induction false} StringBodyNoNewline(b: string)
    requires StringBody(b)
    ensures forall k :: 0 <= k < |b| ==> b[k] != '\r' && b[k] != '\n'
    decreases |b|
  {
    if b != [] {
      if |b| >= 2 && b[1] == '\\' {
        StringBodyNoNewline(b[3..]);
        assert forall k :: 3 <= k < |b| ==> b[k] == b[3..][k - 3];
      } else {
        StringBodyNoNewline(b[1..]);
        assert forall k :: 1 <= k < |b| ==> b[k] == b[1..][k - 1];
      }
    }
  }

  // ---------------------------------------------------------------------
  // Tokens

  /** Every token lexToken makes at a non-whitespace character has the
      shape of its kind; a backslash there never starts one. */
  lemma ScanTokenShape(s: string, i: nat)
    requires i < |s| && !IsWhitespace(s[i]) && ScanToken(s, i).Ok?
    ensures var (kind, e) := ScanToken(s, i).value;
      WellFormed(Token(kind, s[i..e], i))
  {
    var (kind, e) := ScanToken(s, i).value;
    var w := s[i..e];
    PeeksOne(s, i, IdentStart);
    PeeksOne(s, i, Exactly('\''));
    PeeksOne(s, i, Exactly('"'));
    PeeksOne(s, i, Exactly('\\'));
    PeeksOne(s, i, Digit);
    PeeksTwo(s, i, Sign, Digit);
    if Peeks(s, i, [IdentStart]) {
      RunAll(s, i + 1, IdentPart);
      assert w[1..] == s[i + 1..e];
    } else if Peeks(s, i, [Sign, Digit]) || Peeks(s, i, [Digit]) {
      ScanNumberShape(s, i);
    } else if Peeks(s, i, [Exactly('\'')]) {
      ScanCharacterShape(s, i);
    } else if Peeks(s, i, [Exactly('"')]) {
      ScanStringIff(s, i, e);
    } else {
      assert kind == Operator && e == OperatorEnd(s, i);
      assert w[0] == s[i];
    }
  }

  /** lex: the tokens tile the input and each is well formed. */
  lemma {:induction false} LexFromLayout(s: string, i: nat)
    requires i <= |s| + 1 && LexFrom(s, i).Ok?
    ensures Tiles(s, i, LexFrom(s, i).value)
    ensures forall k :: 0 <= k < |LexFrom(s, i).value| ==> WellFormed(LexFrom(s, i).value[k])
    decreases |s| + 1 - i
  {
    var ts := LexFrom(s, i).value;
    if i <= |s| {
      PeeksOne(s, i, NotWhitespace);
      if Peeks(s, i, [NotWhitespace]) {
        var (kind, e) := ScanToken(s, i).value;
        ScanTokenShape(s, i);
        LexFromLayout(s, e);
        var rest := LexFrom(s, e).value;
        assert ts == [Token(kind, s[i..e], i)] + rest;
        assert ts[1..] == rest;
      } else {
        LexFromLayout(s, i + 1);
      }
    }
  }

  /** Lexing a whole input: the layout from its start. */
  lemma LexLayout(s: string)
    requires LexFrom(s, 0).Ok?
    ensures Tiles(s, 0, LexFrom(s, 0).value)
    ensures forall k :: 0 <= k < |LexFrom(s, 0).value| ==> WellFormed(LexFrom(s, 0).value[k])
  {
    LexFromLayout(s, 0);
  }
}
