/** The lexer: a character-level scanner over a CharStream cursor. Each
    `lex*` method of the Lexer class is proved against a scanning function
    over the input string that says where the token it emits ends (or where
    the ParseException it throws is raised), and the lemmas below state what
    those functions promise about the token list. */
module Lexing {
  import opened Outcomes
  import opened Tokens

  /** A ParseException carries the index at which lexing stopped. */
  datatype LexError = ParseException(index: int)

  /** The one-character regular expressions the lexer hands to peek and
      match. */
  datatype CharClass =
    | NotWhitespace             // [^\s\b\r\n\t], \b being the backspace character
    | IdentStart                // [A-Za-z_]
    | IdentStartWide            // [A-za-z_]: the range A-z also holds [ \ ] ^ and `
    | IdentPart                 // [A-za-z0-9_\-]
    | Sign                      // [+\-]
    | Digit                     // [0-9]
    | Exactly(c: char)          // a single literal character
    | NotQuoteOrNewline(q: char) // [^'\r\n] and [^"\r\n]
    | EscapeChar                // [bnrt"'\\]
    | OperatorStart             // [<>!=]

  predicate IsWhitespace(c: char) {
    c == ' ' || c == '\t' || c == '\n' || c == '\U{B}' || c == '\U{C}' || c == '\r' || c == '\U{8}'
  }

  predicate IsEscape(c: char) {
    c == 'b' || c == 'n' || c == 'r' || c == 't' || c == '"' || c == '\'' || c == '\\'
  }

  predicate IsDigit(c: char) {
    '0' <= c <= '9'
  }

  predicate Matches(p: CharClass, c: char) {
    match p
    case NotWhitespace => !IsWhitespace(c)
    case IdentStart => 'A' <= c <= 'Z' || 'a' <= c <= 'z' || c == '_'
    case IdentStartWide => 'A' <= c <= 'z'
    case IdentPart => 'A' <= c <= 'z' || '0' <= c <= '9' || c == '-'
    case Sign => c == '+' || c == '-'
    case Digit => IsDigit(c)
    case Exactly(x) => c == x
    case NotQuoteOrNewline(q) => c != q && c != '\r' && c != '\n'
    case EscapeChar => IsEscape(c)
    case OperatorStart => c == '<' || c == '>' || c == '!' || c == '='
  }

  /** peek(patterns) at position i: every pattern has a character to look at
      and matches it. */
  predicate Peeks(s: string, i: int, patterns: seq<CharClass>)
    decreases |patterns|
  {
    patterns == [] || (0 <= i < |s| && Matches(patterns[0], s[i]) && Peeks(s, i + 1, patterns[1..]))
  }

  lemma {:induction false} PeeksBound(s: string, i: int, patterns: seq<CharClass>)
    requires Peeks(s, i, patterns) && patterns != []
    ensures 0 <= i && i + |patterns| <= |s|
    ensures forall k :: 0 <= k < |patterns| ==> Matches(patterns[k], s[i + k])
    decreases |patterns|
  {
    if |patterns| > 1 {
      PeeksBound(s, i + 1, patterns[1..]);
      assert forall k :: 1 <= k < |patterns| ==> patterns[k] == patterns[1..][k - 1];
    }
  }

  // ---------------------------------------------------------------------
  // Scanning functions: where each lex method stops.

  /** `while (match(p)) {}` from position j: the end of the run of p. */
  function Run(s: string, j: nat, p: CharClass): (e: nat)
    requires j <= |s|
    ensures j <= e <= |s|
    decreases |s| - j
  {
    if j < |s| && Matches(p, s[j]) then Run(s, j + 1, p) else j
  }

  lemma PeeksOne(s: string, i: int, p: CharClass)
    ensures Peeks(s, i, [p]) <==> 0 <= i < |s| && Matches(p, s[i])
  {
    assert [p][1..] == [];
  }

  lemma PeeksTwo(s: string, i: int, p: CharClass, q: CharClass)
    ensures Peeks(s, i, [p, q]) <==> 0 <= i && i + 1 < |s| && Matches(p, s[i]) && Matches(q, s[i + 1])
  {
    assert [p, q][1..] == [q];
    PeeksOne(s, i + 1, q);
  }

  lemma RunStep(s: string, j: nat, p: CharClass)
    requires j <= |s|
    ensures Peeks(s, j, [p]) ==> j < |s| && Run(s, j, p) == Run(s, j + 1, p)
    ensures !Peeks(s, j, [p]) ==> Run(s, j, p) == j
  {
    PeeksOne(s, j, p);
  }

  /** lexIdentifier from i. */
  function ScanIdentifier(s: string, i: nat): (r: Result<nat, LexError>)
    requires i <= |s|
    ensures r.Ok? ==> i < r.value <= |s|
  {
    if i < |s| && Matches(IdentStartWide, s[i]) then Ok(Run(s, i + 1, IdentPart))
    else Err(ParseException(i))
  }

  /** lexNumber from i: the optional sign, then the digit loop. */
  function ScanNumber(s: string, i: nat): (r: (TokenType, nat))
    requires i <= |s|
    ensures i <= r.1 <= |s|
    ensures Peeks(s, i, [Sign, Digit]) || Peeks(s, i, [Digit]) ==> i < r.1
  {
    NumberLoop(s, if i < |s| && Matches(Sign, s[i]) then i + 1 else i)
  }

  /** `while (match([0-9])) { if (match(\., [0-9])) ... }` from j. */
  function NumberLoop(s: string, j: nat): (r: (TokenType, nat))
    requires j <= |s|
    ensures j <= r.1 <= |s|
    ensures j < |s| && IsDigit(s[j]) ==> j < r.1
    decreases |s| - j, 0
  {
    if j < |s| && Matches(Digit, s[j]) then AfterDigit(s, j + 1) else (Integer, j)
  }

  /** The digit loop just after it matched a digit: a '.' and a digit make
      the token DECIMAL and end it after the fraction's digits. */
  function AfterDigit(s: string, p: nat): (r: (TokenType, nat))
    requires 0 < p <= |s|
    ensures p <= r.1 <= |s|
    decreases |s| - p, 1
  {
    if Peeks(s, p, [Exactly('.'), Digit]) then (Decimal, Run(s, p + 2, Digit))
    else NumberLoop(s, p)
  }

  lemma NumberLoopStep(s: string, j: nat)
    requires j <= |s|
    ensures Peeks(s, j, [Digit]) ==> j < |s| && NumberLoop(s, j) == AfterDigit(s, j + 1)
    ensures !Peeks(s, j, [Digit]) ==> NumberLoop(s, j) == (Integer, j)
  {
    PeeksOne(s, j, Digit);
  }

  lemma AfterDigitStep(s: string, p: nat)
    requires 0 < p <= |s|
    ensures Peeks(s, p, [Exactly('.'), Digit]) ==> p + 2 <= |s| && AfterDigit(s, p) == (Decimal, Run(s, p + 2, Digit))
    ensures !Peeks(s, p, [Exactly('.'), Digit]) ==> AfterDigit(s, p) == NumberLoop(s, p)
  {
    PeeksTwo(s, p, Exactly('.'), Digit);
  }

  /** lexEscape from i. */
  function ScanEscape(s: string, i: nat): (r: Result<nat, LexError>)
    requires i <= |s|
    ensures r.Ok? ==> i < r.value <= |s|
  {
    var j := if i < |s| && s[i] == '\\' then i + 1 else i;
    if j < |s| && Matches(EscapeChar, s[j]) then Ok(j + 1) else Err(ParseException(j))
  }

  /** lexCharacter from i. */
  function ScanCharacter(s: string, i: nat): (r: Result<nat, LexError>)
    requires i <= |s|
    ensures r.Ok? ==> i < r.value <= |s|
  {
    var j := if i < |s| && s[i] == '\'' then i + 1 else i;
    if j < |s| && Matches(NotQuoteOrNewline('\''), s[j]) then
      var k :- if s[j] == '\\' then ScanEscape(s, j) else Ok(j + 1);
      if k < |s| && s[k] == '\'' then Ok(k + 1) else Err(ParseException(k))
    else Err(ParseException(j))
  }

  /** lexString from i: the opening quote, then the character loop. */
  function ScanString(s: string, i: nat): (r: Result<nat, LexError>)
    requires i <= |s|
    ensures r.Ok? ==> i < r.value <= |s|
  {
    StringLoop(s, if i < |s| && s[i] == '"' then i + 1 else i)
  }

  /** `while (match([^"\r\n])) { if (match(\\)) { if (!match(escape)) throw } }`
      from j, followed by the closing quote. */
  function StringLoop(s: string, j: nat): (r: Result<nat, LexError>)
    requires j <= |s|
    ensures r.Ok? ==> j < r.value <= |s|
    decreases |s| - j, 0
  {
    if j < |s| && Matches(NotQuoteOrNewline('"'), s[j]) then AfterStringChar(s, j + 1)
    else StringClose(s, j)
  }

  /** The string loop just after it matched a character: a backslash there
      must be followed by an escape character. */
  function AfterStringChar(s: string, p: nat): (r: Result<nat, LexError>)
    requires 0 < p <= |s|
    ensures r.Ok? ==> p <= r.value <= |s|
    decreases |s| - p, 1
  {
    if p < |s| && s[p] == '\\' then
      if p + 1 < |s| && Matches(EscapeChar, s[p + 1]) then StringLoop(s, p + 2)
      else Err(ParseException(p + 1))
    else StringLoop(s, p)
  }

  lemma StringLoopStep(s: string, j: nat)
    requires j <= |s|
    ensures Peeks(s, j, [NotQuoteOrNewline('"')]) ==> j < |s| && StringLoop(s, j) == AfterStringChar(s, j + 1)
    ensures !Peeks(s, j, [NotQuoteOrNewline('"')]) ==> StringLoop(s, j) == StringClose(s, j)
  {
    PeeksOne(s, j, NotQuoteOrNewline('"'));
  }

  lemma AfterStringCharStep(s: string, p: nat)
    requires 0 < p <= |s|
    ensures !Peeks(s, p, [Exactly('\\')]) ==> AfterStringChar(s, p) == StringLoop(s, p)
    ensures Peeks(s, p, [Exactly('\\')]) && Peeks(s, p + 1, [EscapeChar]) ==>
      p + 2 <= |s| && AfterStringChar(s, p) == StringLoop(s, p + 2)
    ensures Peeks(s, p, [Exactly('\\')]) && !Peeks(s, p + 1, [EscapeChar]) ==>
      AfterStringChar(s, p) == Err(ParseException(p + 1))
  {
    PeeksOne(s, p, Exactly('\\'));
    PeeksOne(s, p + 1, EscapeChar);
  }

  function StringClose(s: string, j: nat): (r: Result<nat, LexError>)
    requires j <= |s|
    ensures r.Ok? ==> r.value == j + 1 <= |s|
  {
    if j < |s| && s[j] == '"' then Ok(j + 1) else Err(ParseException(j))
  }

  /** lexOperator at i: one of <, >, !, = and an optional '=', or any other
      single character. */
  function OperatorEnd(s: string, i: nat): (e: nat)
    requires i < |s|
    ensures i < e <= |s|
  {
    if Matches(OperatorStart, s[i]) then
      if i + 1 < |s| && s[i + 1] == '=' then i + 2 else i + 1
    else i + 1
  }

  /** lexToken at i: the kind of token and where it ends, or the exception. */
  function ScanToken(s: string, i: nat): (r: Result<(TokenType, nat), LexError>)
    requires i < |s|
    ensures r.Ok? ==> i < r.value.1 <= |s|
  {
    if Peeks(s, i, [IdentStart]) then
      Tagged(Identifier, ScanIdentifier(s, i))
    else if Peeks(s, i, [Sign, Digit]) || Peeks(s, i, [Digit]) then
      Ok(ScanNumber(s, i))
    else if Peeks(s, i, [Exactly('\'')]) then
      Tagged(Character, ScanCharacter(s, i))
    else if Peeks(s, i, [Exactly('"')]) then
      Tagged(String, ScanString(s, i))
    else if Peeks(s, i, [Exactly('\\')]) then
      var e :- ScanEscape(s, i); Err(ParseException(e))
    else
      Ok((Operator, OperatorEnd(s, i)))
  }

  /** A scan's end position, tagged with the kind of token it makes. */
  function Tagged(kind: TokenType, r: Result<nat, LexError>): (t: Result<(TokenType, nat), LexError>)
    ensures t.Ok? <==> r.Ok?
    ensures t.Ok? ==> t.value == (kind, r.value)
  {
    match r
    case Ok(e) => Ok((kind, e))
    case Err(x) => Err(x)
  }

  /** The token emitted for a scan that started at `start`. */
  function Emitted(s: string, start: nat, r: Result<(TokenType, nat), LexError>): Result<Token, LexError>
    requires r.Ok? ==> start <= r.value.1 <= |s|
  {
    match r
    case Ok((kind, e)) => Ok(Token(kind, s[start..e], start))
    case Err(x) => Err(x)
  }

  /** lex from position i: whitespace is skipped one character at a time, and
      any other character starts a token; the loop ends at |s| + 1. */
  function LexFrom(s: string, i: nat): Result<seq<Token>, LexError>
    requires i <= |s| + 1
    decreases |s| + 1 - i
  {
    if i > |s| then Ok([])
    else if Peeks(s, i, [NotWhitespace]) then
      var scanned :- ScanToken(s, i);
      var rest :- LexFrom(s, scanned.1);
      Ok([Token(scanned.0, s[i..scanned.1], i)] + rest)
    else LexFrom(s, i + 1)
  }

  function Prepend(ts: seq<Token>, r: Result<seq<Token>, LexError>): Result<seq<Token>, LexError> {
    match r
    case Ok(rest) => Ok(ts + rest)
    case Err(x) => Err(x)
  }

  // ---------------------------------------------------------------------
  // The character stream and the lexer

  /** The cursor over the input: `index` is the next character and `length`
      the number of characters taken into the current token. */
  class CharStream {
    const input: string
    var index: int
    var length: int

    constructor(input: string)
      ensures this.input == input && index == 0 && length == 0
    {
      this.input := input;
      index := 0;
      length := 0;
    }

    /** has(offset): a character exists at index + offset. */
    predicate Has(offset: int)
      reads this
    {
      index + offset < |input|
    }

    function Get(offset: int): char
      reads this
      requires 0 <= index + offset < |input|
    {
      input[index + offset]
    }

    method Advance()
      modifies this
      ensures index == old(index) + 1 && length == old(length) + 1
    {
      index := index + 1;
      length := length + 1;
    }

    method Skip()
      modifies this
      ensures index == old(index) && length == 0
    {
      length := 0;
    }

    /** emit(kind): the token spans the last `length` characters before
      `index`; the current token is then empty again. The substring call
      needs index within the input, which every caller in the lexer meets. */
    method Emit(kind: TokenType) returns (t: Token)
      requires 0 <= length <= index <= |input|
      modifies this
      ensures t == Token(kind, input[old(index) - old(length)..old(index)], old(index) - old(length))
      ensures index == old(index) && length == 0
    {
      var start := index - length;
      Skip();
      t := Token(kind, input[start..index], start);
    }
  }

  class Lexer {
    const chars: CharStream

    constructor(input: string)
      ensures fresh(chars) && chars.input == input && chars.index == 0 && chars.length == 0
    {
      chars := new CharStream(input);
    }

    /** The stream is inside the input and the current token starts in it. */
    predicate Ready()
      reads chars
    {
      0 <= chars.length <= chars.index <= |chars.input|
    }

    /** peek(patterns): true iff each pattern matches the character at its
      offset; false as soon as one offset lies past the input. */
    method Peek(patterns: seq<CharClass>) returns (b: bool)
      requires 0 <= chars.index
      ensures b == Peeks(chars.input, chars.index, patterns)
      ensures b && patterns != [] ==> chars.index + |patterns| <= |chars.input|
    {
      var i := 0;
      while i < |patterns|
        invariant 0 <= i <= |patterns|
        invariant Peeks(chars.input, chars.index, patterns) == Peeks(chars.input, chars.index + i, patterns[i..])
      {
        if !chars.Has(i) || !Matches(patterns[i], chars.Get(i)) {
          return false;
        }
        assert patterns[i..][1..] == patterns[i + 1..];
        i := i + 1;
      }
      b := true;
      if patterns != [] {
        PeeksBound(chars.input, chars.index, patterns);
      }
    }

    /** match(patterns): peek, and on success advance past the matched
      characters. */
    method Match(patterns: seq<CharClass>) returns (b: bool)
      requires 0 <= chars.index
      modifies chars
      ensures b == Peeks(chars.input, old(chars.index), patterns)
      ensures b ==> chars.index == old(chars.index) + |patterns| && chars.length == old(chars.length) + |patterns|
      ensures !b ==> chars.index == old(chars.index) && chars.length == old(chars.length)
      ensures b && patterns != [] ==> chars.index <= |chars.input|
    {
      b := Peek(patterns);
      if b {
        for i := 0 to |patterns|
          invariant chars.index == old(chars.index) + i && chars.length == old(chars.length) + i
        {
          chars.Advance();
        }
      }
    }

    /** `while (match(p)) {}` */
    method MatchRun(p: CharClass)
      requires Ready()
      modifies chars
      ensures chars.index == Run(chars.input, old(chars.index), p)
      ensures chars.length == old(chars.length) + (chars.index - old(chars.index))
    {
      ghost var s := chars.input;
      while true
        invariant old(chars.index) <= chars.index <= |s|
        invariant chars.length == old(chars.length) + (chars.index - old(chars.index))
        invariant Run(s, old(chars.index), p) == Run(s, chars.index, p)
        decreases |s| - chars.index
      {
        RunStep(s, chars.index, p);
        var m := Match([p]);
        if !m {
          return;
        }
      }
    }

    method LexIdentifier() returns (r: Result<Token, LexError>)
      requires Ready()
      modifies chars
      ensures r == Emitted(chars.input, old(chars.index) - old(chars.length), Tagged(Identifier, ScanIdentifier(chars.input, old(chars.index))))
      ensures r.Ok? ==> chars.index == ScanIdentifier(chars.input, old(chars.index)).value && chars.length == 0
    {
      var m := Match([IdentStartWide]);
      if m {
        MatchRun(IdentPart);
        var t := chars.Emit(Identifier);
        return Ok(t);
      } else {
        return Err(ParseException(chars.index));
      }
    }

    method LexNumber() returns (t: Token)
      requires Ready()
      modifies chars
      ensures var start := old(chars.index) - old(chars.length);
        Ok(t) == Emitted(chars.input, start, Ok(ScanNumber(chars.input, old(chars.index))))
      ensures chars.index == ScanNumber(chars.input, old(chars.index)).1 && chars.length == 0
    {
      PeeksOne(chars.input, chars.index, Sign);
      var _ := Match([Sign]);
      var kind := LexDigits();
      t := chars.Emit(kind);
    }

    /** The digit loop of lexNumber, which also matches the fraction when a
      '.' and a digit follow a digit; the kind of number it read. */
    method LexDigits() returns (kind: TokenType)
      requires Ready()
      modifies chars
      ensures Ready() && (kind, chars.index) == NumberLoop(chars.input, old(chars.index))
      ensures chars.index - chars.length == old(chars.index) - old(chars.length)
    {
      ghost var s := chars.input;
      ghost var target := NumberLoop(s, chars.index);
      while true
        invariant old(chars.index) <= chars.index <= |s|
        invariant chars.index - chars.length == old(chars.index) - old(chars.length)
        invariant NumberLoop(s, chars.index) == target
        decreases |s| - chars.index
      {
        NumberLoopStep(s, chars.index);
        var more := Match([Digit]);
        if !more {
          return Integer;
        }
        AfterDigitStep(s, chars.index);
        var point := Match([Exactly('.'), Digit]);
        if point {
          MatchRun(Digit);
          return Decimal;
        }
      }
    }

    method LexEscape() returns (r: Result<(), LexError>)
      requires Ready()
      modifies chars
      ensures var scan := ScanEscape(chars.input, old(chars.index));
        (r.Ok? <==> scan.Ok?) && (r.Err? ==> r.error == scan.error)
      ensures r.Ok? ==> chars.index == ScanEscape(chars.input, old(chars.index)).value
      ensures r.Ok? ==> chars.index - chars.length == old(chars.index) - old(chars.length)
    {
      var _ := Match([Exactly('\\')]);
      var e := Match([EscapeChar]);
      if !e {
        return Err(ParseException(chars.index));
      }
      return Ok(());
    }

    method LexCharacter() returns (r: Result<Token, LexError>)
      requires Ready()
      modifies chars
      ensures r == Emitted(chars.input, old(chars.index) - old(chars.length), Tagged(Character, ScanCharacter(chars.input, old(chars.index))))
      ensures r.Ok? ==> chars.index == ScanCharacter(chars.input, old(chars.index)).value && chars.length == 0
    {
      var _ := Match([Exactly('\'')]);
      var p := Peek([NotQuoteOrNewline('\'')]);
      if p {
        var b := Peek([Exactly('\\')]);
        if b {
          var _ :- LexEscape();
        } else {
          chars.Advance();
        }
      } else {
        return Err(ParseException(chars.index));
      }
      var q := Match([Exactly('\'')]);
      if !q {
        return Err(ParseException(chars.index));
      }
      var t := chars.Emit(Character);
      return Ok(t);
    }

    method LexString() returns (r: Result<Token, LexError>)
      requires Ready()
      modifies chars
      ensures r == Emitted(chars.input, old(chars.index) - old(chars.length), Tagged(String, ScanString(chars.input, old(chars.index))))
      ensures r.Ok? ==> chars.index == ScanString(chars.input, old(chars.index)).value && chars.length == 0
    {
      ghost var s := chars.input;
      ghost var start := chars.index - chars.length;
      ghost var target := ScanString(s, chars.index);
      PeeksOne(s, chars.index, Exactly('"'));
      var _ := Match([Exactly('"')]);
      assert target == StringLoop(s, chars.index);
      var ok := LexStringBody(target);
      if !ok {
        return Err(ParseException(chars.index));
      }
      PeeksOne(s, chars.index, Exactly('"'));
      var q := Match([Exactly('"')]);
      if q {
        var t := chars.Emit(String);
        return Ok(t);
      } else {
        return Err(ParseException(chars.index));
      }
    }

    /** The character loop of lexString; false when it throws, at the index
      where it stops. */
    method LexStringBody(ghost target: Result<nat, LexError>) returns (ok: bool)
      requires Ready() && StringLoop(chars.input, chars.index) == target
      modifies chars
      ensures Ready() && old(chars.index) <= chars.index
      ensures chars.index - chars.length == old(chars.index) - old(chars.length)
      ensures !ok ==> target == Err(ParseException(chars.index))
      ensures ok ==> StringClose(chars.input, chars.index) == target
    {
      ghost var s := chars.input;
      while true
        invariant old(chars.index) <= chars.index <= |s|
        invariant chars.index - chars.length == old(chars.index) - old(chars.length)
        invariant StringLoop(s, chars.index) == target
        decreases |s| - chars.index
      {
        StringLoopStep(s, chars.index);
        var m := Match([NotQuoteOrNewline('"')]);
        if !m {
          break;
        }
        AfterStringCharStep(s, chars.index);
        var b := Match([Exactly('\\')]);
        if b {
          var e := Match([EscapeChar]);
          if !e {
            return false;
          }
        }
      }
      return true;
    }

    method LexOperator() returns (t: Token)
      requires Ready() && chars.index < |chars.input|
      modifies chars
      ensures var start := old(chars.index) - old(chars.length);
        Ok(t) == Emitted(chars.input, start, Ok((Operator, OperatorEnd(chars.input, old(chars.index)))))
      ensures chars.index == OperatorEnd(chars.input, old(chars.index)) && chars.length == 0
    {
      var o := Match([OperatorStart]);
      if o {
        var _ := Match([Exactly('=')]);
      } else {
        chars.Advance();
      }
      t := chars.Emit(Operator);
    }

    /** lexToken: dispatch on the next character without consuming it. */
    method LexToken() returns (r: Result<Token, LexError>)
      requires Ready() && chars.index < |chars.input|
      modifies chars
      ensures r == Emitted(chars.input, old(chars.index) - old(chars.length), ScanToken(chars.input, old(chars.index)))
      ensures r.Ok? ==> chars.index == ScanToken(chars.input, old(chars.index)).value.1 && chars.length == 0
    {
      var p := Peek([IdentStart]);
      if p {
        r := LexIdentifier();
        return;
      }
      var signed := Peek([Sign, Digit]);
      var digit := Peek([Digit]);
      if signed || digit {
        var t := LexNumber();
        return Ok(t);
      }
      p := Peek([Exactly('\'')]);
      if p {
        r := LexCharacter();
        return;
      }
      p := Peek([Exactly('"')]);
      if p {
        r := LexString();
        return;
      }
      p := Peek([Exactly('\\')]);
      if p {
        var _ :- LexEscape();
        return Err(ParseException(chars.index));
      }
      var t := LexOperator();
      return Ok(t);
    }

    /** lex: tokens in input order; whitespace is passed over one character
      at a time without emitting anything. */
    method Lex() returns (r: Result<seq<Token>, LexError>)
      requires 0 <= chars.index <= |chars.input| + 1 && chars.length == 0
      modifies chars
      ensures r == LexFrom(chars.input, old(chars.index))
      ensures r.Ok? ==> chars.index == |chars.input| + 1
    {
      var tokens: seq<Token> := [];
      assert Prepend(tokens, LexFrom(chars.input, chars.index)) == LexFrom(chars.input, chars.index) by {
        assert forall ts: seq<Token> :: [] + ts == ts;
      }
      while chars.index <= |chars.input|
        invariant 0 <= chars.index <= |chars.input| + 1 && chars.length == 0
        invariant LexFrom(chars.input, old(chars.index)) == Prepend(tokens, LexFrom(chars.input, chars.index))
        decreases |chars.input| + 1 - chars.index
      {
        ghost var i := chars.index;
        var p := Peek([NotWhitespace]);
        if p {
          PeeksOne(chars.input, i, NotWhitespace);
          LexFromToken(chars.input, i);
          var t :- LexToken();
          PrependStep(tokens, t, LexFrom(chars.input, chars.index));
          tokens := tokens + [t];
        } else {
          LexFromWhitespace(chars.input, i);
          chars.Advance();
          chars.Skip();
        }
      }
      assert tokens + [] == tokens;
      return Ok(tokens);
    }
  }

  /** At a character that is not whitespace, lex scans one token and goes
      on after it, or fails as the scan does. */
  lemma LexFromToken(s: string, i: nat)
    requires i < |s| && Peeks(s, i, [NotWhitespace])
    ensures ScanToken(s, i).Err? ==> LexFrom(s, i) == Err(ScanToken(s, i).error)
    ensures ScanToken(s, i).Ok? ==>
      var (kind, e) := ScanToken(s, i).value;
      LexFrom(s, i) == Prepend([Token(kind, s[i..e], i)], LexFrom(s, e))
  {
  }

  /** At whitespace, lex moves on by one character. */
  lemma LexFromWhitespace(s: string, i: nat)
    requires i <= |s| && !Peeks(s, i, [NotWhitespace])
    ensures LexFrom(s, i) == LexFrom(s, i + 1)
  {
  }

  lemma PrependStep(ts: seq<Token>, t: Token, r: Result<seq<Token>, LexError>)
    ensures Prepend(ts, Prepend([t], r)) == Prepend(ts + [t], r)
  {
    if r.Ok? {
      assert ts + ([t] + r.value) == ts + [t] + r.value;
    }
  }

  /** Lexing a whole input with a fresh lexer. */
  method Lex(input: string) returns (r: Result<seq<Token>, LexError>)
    ensures r == LexFrom(input, 0)
  {
    var lexer := new Lexer(input);
    r := lexer.Lex();
  }
}
