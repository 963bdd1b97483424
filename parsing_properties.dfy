/** What the parser promises about the sources it accepts and the ones it
    rejects, stated over the functions that specify the Parser class. */
module ParsingProperties {
  import opened Outcomes
  import opened Tokens
  import A = Ast
  import Numbers
  import Escapes
  import opened Parsing

  // ---------------------------------------------------------------------
  // The source

  /** An empty token list is a source with no fields and no methods. */
  lemma EmptySource()
    ensures Source([]) == Ok(A.Source([], []))
  {
  }

  /** A token that cannot start a field or a method, where one could
      start, is blamed by its own index. */
  lemma LeftoverToken(toks: seq<Token>, i: nat, fields: seq<A.Field>, methods: seq<A.Method>)
    requires i < |toks| && toks[i].kind != Identifier
    ensures SourceLoop(toks, i, fields, methods) == Err(ParseException(toks[i].index))
  {
  }

  /** Once a method has been parsed, the rest of the source is methods: a
      source whose methods start at i gets no field after i, so a LET after
      a DEF never becomes a field. */
  lemma {:induction false} NoFieldAfterMethod(toks: seq<Token>, i: nat, fields: seq<A.Field>, methods: seq<A.Method>)
    requires At(toks, i, "DEF")
    ensures var r := SourceLoop(toks, i, fields, methods);
      r.Ok? ==> r.value.fields == fields && |methods| < |r.value.methods|
  {
    if AtKind(toks, i, Identifier) {
      assert FieldLoop(toks, i, fields) == Ok((fields, i));
      var m := MethodLoop(toks, i, methods);
      if m.Ok? {
        var (ms, k) := m.value;
        assert k == |toks|;
        MethodLoopGrows(toks, i, methods);
        assert SourceLoop(toks, k, fields, ms) == Ok(A.Source(fields, ms));
      }
    }
  }

  /** A LET right after a parsed method is rejected: the method loop throws
      a ParseException at the LET, and the source fails with it. */
  lemma LetAfterMethod(toks: seq<Token>, i: nat, fields: seq<A.Field>, methods: seq<A.Method>, m: A.Method, j: nat)
    requires At(toks, i, "DEF") && MethodAt(toks, i) == Ok((m, j)) && At(toks, j, "LET")
    ensures MethodLoop(toks, i, methods) == Err(ParseException(toks[j].index))
    ensures AtKind(toks, i, Identifier) ==>
      SourceLoop(toks, i, fields, methods) == Err(ParseException(toks[j].index))
  {
    if AtKind(toks, i, Identifier) {
      assert FieldLoop(toks, i, fields) == Ok((fields, i));
    }
  }

  /** The method loop keeps every method it was given and, at a DEF, adds
      one at least. */
  lemma {:induction false} MethodLoopGrows(toks: seq<Token>, i: nat, methods: seq<A.Method>)
    requires i <= |toks|
    ensures var r := MethodLoop(toks, i, methods);
      r.Ok? ==> |methods| <= |r.value.0| && r.value.0[..|methods|] == methods
    ensures var r := MethodLoop(toks, i, methods);
      r.Ok? && At(toks, i, "DEF") ==> |methods| < |r.value.0|
    decreases |toks| - i
  {
    if At(toks, i, "DEF") {
      var m := MethodAt(toks, i);
      if m.Ok? {
        var (f, j) := m.value;
        if At(toks, j, "DEF") || j == |toks| {
          MethodLoopGrows(toks, j, methods + [f]);
          var r := MethodLoop(toks, j, methods + [f]);
          if r.Ok? {
            assert r.value.0[..|methods|] == (r.value.0[..|methods| + 1])[..|methods|];
          }
        }
      }
    }
  }

  // ---------------------------------------------------------------------
  // Fields and declarations

  /** `LET` with no identifier after it: the exception names the token
      there, or there is none to name. */
  lemma LetMissingName(toks: seq<Token>, i: nat)
    requires At(toks, i, "LET") && !AtKind(toks, i + 1, Identifier)
    ensures i + 1 < |toks| ==> LetParts(toks, i) == Err(ParseException(toks[i + 1].index))
    ensures i + 1 == |toks| ==> LetParts(toks, i) == Err(IndexOutOfBounds)
  {
  }

  /** A `LET` that parses is an identifier, then a value exactly when an
      '=' follows it, then a ';'. */
  lemma LetShape(toks: seq<Token>, i: nat)
    requires At(toks, i, "LET")
    ensures var r := LetParts(toks, i);
      r.Ok? ==>
        var (name, value, k) := r.value;
        AtKind(toks, i + 1, Identifier) && name == toks[i + 1].literal
        && (value.Some? <==> At(toks, i + 2, "="))
        && (value.None? ==> k == i + 3)
        && (value.Some? ==> Expression(toks, i + 3) == Ok((value.value, k - 1)))
        && At(toks, k - 1, ";")
  {
  }

  /** A `LET` whose identifier, or whose value, is not followed by ';'
      fails at the token there. */
  lemma LetMissingSemicolon(toks: seq<Token>, i: nat)
    requires At(toks, i, "LET") && AtKind(toks, i + 1, Identifier)
    ensures !At(toks, i + 2, "=") && !At(toks, i + 2, ";") ==> LetParts(toks, i) == Err(ErrorAt(toks, i + 2, true))
    ensures At(toks, i + 2, "=") && Expression(toks, i + 3).Ok? && !At(toks, Expression(toks, i + 3).value.1, ";") ==>
      LetParts(toks, i) == Err(ErrorAt(toks, Expression(toks, i + 3).value.1, true))
  {
  }

  // ---------------------------------------------------------------------
  // Statements

  predicate Keyworded(toks: seq<Token>, i: nat) {
    At(toks, i, "LET") || At(toks, i, "IF") || At(toks, i, "FOR") || At(toks, i, "WHILE") || At(toks, i, "RETURN")
  }

  /** A statement that no keyword starts is an expression statement or an
      assignment, whichever the token after the first expression says, and
      it ends with a ';'; without the ';' it fails. */
  lemma ExpressionStatementShape(toks: seq<Token>, i: nat)
    requires i <= |toks| && !Keyworded(toks, i)
    ensures var r := Statement(toks, i);
      r.Ok? ==> (Expression(toks, i).Ok? &&
        var (target, j) := Expression(toks, i).value;
        At(toks, r.value.1 - 1, ";") &&
        (r.value.0 == A.Expression(target) <==> !At(toks, j, "=")) &&
        (r.value.0.Assignment? <==> At(toks, j, "=")) &&
        (r.value.0.Assignment? ==> r.value.0.receiver == target))
    ensures Expression(toks, i).Ok? ==>
      var (target, j) := Expression(toks, i).value;
      !At(toks, j, "=") && !At(toks, j, ";") ==> Statement(toks, i) == Err(Missing(toks, j))
  {
  }

  // ---------------------------------------------------------------------
  // The operator ladder

  /** The rule an operator belongs to: 0 logical, 1 equality, 2 additive,
      3 multiplicative; 4 for anything else. */
  function OpTier(op: string): (t: nat)
    ensures t <= 4
    ensures t < 4 ==> op in LevelOps[t]
  {
    if op in LevelOps[0] then 0
    else if op in LevelOps[1] then 1
    else if op in LevelOps[2] then 2
    else if op in LevelOps[3] then 3
    else 4
  }

  /** The tier of a node: its operator's rule for a Binary, 4 (the
      secondary rule) for the rest. */
  function Tier(e: A.Expr): nat {
    if e.Binary? then OpTier(e.operator) else 4
  }

  /** Every Binary node of the operator chain binds looser than its right
      operand and no tighter than its left one: so a run of operators of
      one rule associates to the left (the right operand of `*` in a*b*c
      is c, never b*c), and logical binds loosest, then equality, additive
      and multiplicative. */
  predicate Ladder(e: A.Expr) {
    match e
    case Binary(op, l, r, _) =>
      OpTier(op) < 4 && OpTier(op) <= Tier(l) && OpTier(op) < Tier(r) && Ladder(l) && Ladder(r)
    case _ => true
  }

  lemma OpTierOf(level: nat, op: nat)
    requires level < 4 && op < |LevelOps[level]|
    ensures OpTier(LevelOps[level][op]) == level
  {
  }

  /** What a rule parses is a ladder whose top binds no looser than the
      rule. */
  lemma {:induction false} LevelLadder(toks: seq<Token>, i: nat, level: nat)
    requires i <= |toks| && level <= 4
    ensures var r := Level(toks, i, level);
      r.Ok? ==> Ladder(r.value.0) && level <= Tier(r.value.0)
    decreases |toks| - i, 5 - level, 0
  {
    if level == 4 {
      SecondaryNotBinary(toks, i);
    } else {
      var l := Level(toks, i, level + 1);
      if l.Ok? {
        var (left, j) := l.value;
        LevelLadder(toks, i, level + 1);
        RunsLadder(toks, j, level, 0, left);
      }
    }
  }

  lemma {:induction false} RunsLadder(toks: seq<Token>, j: nat, level: nat, op: nat, left: A.Expr)
    requires j <= |toks| && level < 4 && op <= |LevelOps[level]|
    requires Ladder(left) && level <= Tier(left)
    ensures var r := Runs(toks, j, level, op, left);
      r.Ok? ==> Ladder(r.value.0) && level <= Tier(r.value.0)
    decreases |toks| - j, 0, |LevelOps[level]| - op
  {
    var ops := LevelOps[level];
    if op < |ops| {
      if At(toks, j, ops[op]) {
        var rr := Level(toks, j + 1, level + 1);
        if rr.Ok? {
          var (right, k) := rr.value;
          LevelLadder(toks, j + 1, level + 1);
          OpTierOf(level, op);
          RunsLadder(toks, k, level, op, A.Binary(ops[op], left, right));
        }
      } else {
        RunsLadder(toks, j, level, op + 1, left);
      }
    }
  }

  /** A secondary expression is never a Binary node. */
  lemma SecondaryNotBinary(toks: seq<Token>, i: nat)
    requires i <= |toks|
    ensures var r := Secondary(toks, i);
      r.Ok? ==> !r.value.0.Binary?
  {
    var p := Primary(toks, i);
    var g := GroupOrName(toks, i);
    if p.Ok? {
      var c := Chain(toks, p.value.1, []);
      if c.Ok? {
        BuildNotBinary(p.value.0, c.value.0, c.value.1);
      }
    }
  }

  lemma {:induction false} BuildNotBinary(base: A.Expr, steps: seq<Step>, args: seq<A.Expr>)
    requires !base.Binary?
    ensures !Build(base, steps, args).Binary?
    decreases |steps|
  {
    if steps != [] {
      BuildNotBinary(base, steps[..|steps| - 1], args);
    }
  }

  /** a * b * c parses as (a * b) * c. */
  lemma LeftAssociative()
    ensures
      var toks := [Token(Identifier, "a", 0), Token(Operator, "*", 2), Token(Identifier, "b", 4),
                   Token(Operator, "*", 6), Token(Identifier, "c", 8)];
      Expression(toks, 0)
        == Ok((A.Binary("*", A.Binary("*", A.Access(None, "a"), A.Access(None, "b")), A.Access(None, "c")), 5))
  {
    var toks := [Token(Identifier, "a", 0), Token(Operator, "*", 2), Token(Identifier, "b", 4),
                 Token(Operator, "*", 6), Token(Identifier, "c", 8)];
    var a, b, c := A.Access(None, "a"), A.Access(None, "b"), A.Access(None, "c");
    NameOperand(toks, 0);
    NameOperand(toks, 2);
    NameOperand(toks, 4);
    var e := A.Binary("*", A.Binary("*", a, b), c);
    assert Level(toks, 0, 3) == Ok((e, 5)) by {
      RunsStep(toks, 5, 3, 0, e);
      RunsStep(toks, 5, 3, 1, e);
      RunsStep(toks, 3, 3, 0, A.Binary("*", a, b));
      RunsStep(toks, 1, 3, 0, a);
    }
    assert Level(toks, 0, 2) == Ok((e, 5));
    assert Level(toks, 0, 1) == Ok((e, 5));
  }

  /** A name followed by something other than '(' and '.' is a one-token
      operand at the multiplicative rule. */
  lemma NameOperand(toks: seq<Token>, i: nat)
    requires i < |toks| && toks[i].kind == Identifier
    requires toks[i].literal !in {"NIL", "TRUE", "FALSE", "("}
    requires !At(toks, i + 1, "(") && !At(toks, i + 1, ".")
    ensures Level(toks, i, 4) == Ok((A.Access(None, toks[i].literal), i + 1))
  {
    assert Primary(toks, i) == Ok((A.Access(None, toks[i].literal), i + 1));
    assert Chain(toks, i + 1, []) == Ok(([], [], i + 1));
  }

  // ---------------------------------------------------------------------
  // Primary expressions

  lemma KeywordLiterals(toks: seq<Token>, i: nat)
    requires i < |toks|
    ensures toks[i].literal == "NIL" ==> Primary(toks, i) == Ok((A.Literal(A.Null), i + 1))
    ensures toks[i].literal == "TRUE" ==> Primary(toks, i) == Ok((A.Literal(A.Bool(true)), i + 1))
    ensures toks[i].literal == "FALSE" ==> Primary(toks, i) == Ok((A.Literal(A.Bool(false)), i + 1))
  {
  }

  /** An INTEGER token holds the number its literal spells. */
  lemma IntegerLiteralValue(toks: seq<Token>, i: nat, n: int)
    requires i < |toks| && toks[i] == Token(Integer, Numbers.IntToString(n), toks[i].index)
    ensures Primary(toks, i) == Ok((A.Literal(A.Int(n)), i + 1))
  {
    Numbers.ParseIntToString(n);
    var s := Numbers.IntToString(n);
    assert s[0] == '-' || Numbers.IsDigit(s[0]);
    assert s != "NIL" && s != "TRUE" && s != "FALSE" by {
      assert "NIL"[0] == 'N' && "TRUE"[0] == 'T' && "FALSE"[0] == 'F';
    }
  }

  /** A STRING token holds the text whose escaped form is between its
      quotes; a STRING token right after it is skipped. */
  lemma StringLiteralValue(toks: seq<Token>, i: nat, x: string)
    requires i < |toks| && toks[i] == Token(String, "\"" + Escapes.Escape(x) + "\"", toks[i].index)
    ensures Primary(toks, i) == Ok((A.Literal(A.Str(x)), if AtKind(toks, i + 1, String) then i + 2 else i + 1))
  {
    var lit := toks[i].literal;
    NotKeyword(lit, '"');
    QuotedText(x);
  }

  lemma QuotedText(x: string)
    ensures StringLiteral("\"" + Escapes.Escape(x) + "\"") == Ok(A.Str(x))
  {
    var w := Escapes.Escape(x);
    var lit := "\"" + w + "\"";
    var inner := w + "\"";
    assert lit == "\"" + inner && lit[0] == '"' && lit[1..] == inner;
    Escapes.UnescapeEscape(x, "\"");
    assert Escapes.Unescape("\"") == "\"";
    var text := "\"" + (x + "\"");
    assert Escapes.Unescape(lit) == text;
    assert text[1..|text| - 1] == x;
  }

  /** A literal that starts with a quote is not one of the keywords. */
  lemma NotKeyword(lit: string, q: char)
    requires |lit| > 0 && lit[0] == q && (q == '"' || q == '\'')
    ensures lit != "NIL" && lit != "TRUE" && lit != "FALSE" && lit != "("
  {
    assert "NIL"[0] == 'N' && "TRUE"[0] == 'T' && "FALSE"[0] == 'F' && "("[0] == '(';
  }

  /** A CHARACTER token holds the character whose escaped form is between
      its quotes. */
  lemma CharacterLiteralValue(toks: seq<Token>, i: nat, c: char)
    requires i < |toks| && toks[i] == Token(Character, "'" + Escapes.EscapeChar(c) + "'", toks[i].index)
    ensures Primary(toks, i) == Ok((A.Literal(A.Char(c)), i + 1))
  {
    NotKeyword(toks[i].literal, '\'');
    QuotedChar(c);
  }

  lemma QuotedChar(c: char)
    ensures CharacterLiteral("'" + Escapes.EscapeChar(c) + "'") == Ok(A.Char(c))
  {
    var w := Escapes.EscapeChar(c);
    var lit := "'" + w + "'";
    if |w| == 2 {
      var inner := w + "'";
      assert lit == "'" + inner && lit[0] == '\'' && lit[1..] == inner;
      Escapes.UnescapeChar(c, "'");
      assert Escapes.Unescape("'") == "'";
      assert Escapes.Unescape(lit) == "'" + ([c] + "'");
    } else {
      assert lit[1] == w[0] == c;
    }
  }

  /** A name is an Access without a receiver, unless a '(' follows it;
      then it is a Function without a receiver. */
  lemma NameLiterals(toks: seq<Token>, i: nat)
    requires AtKind(toks, i, Identifier) && toks[i].literal !in {"NIL", "TRUE", "FALSE", "("}
    ensures !At(toks, i + 1, "(") ==> Primary(toks, i) == Ok((A.Access(None, toks[i].literal), i + 1))
    ensures At(toks, i + 1, "(") && Primary(toks, i).Ok? ==>
      var e := Primary(toks, i).value.0;
      e.Function? && e.receiver == None && e.name == toks[i].literal
  {
  }

  /** An argument followed by ',' and then ')' is an error at the ')'. */
  lemma TrailingComma(toks: seq<Token>, i: nat, args: seq<A.Expr>)
    requires i <= |toks| && !At(toks, i, ")") && Expression(toks, i).Ok?
    requires At(toks, Expression(toks, i).value.1, ",") && At(toks, Expression(toks, i).value.1 + 1, ")")
    ensures Arguments(toks, i, args) == Err(ParseException(toks[Expression(toks, i).value.1 + 1].index))
  {
  }

  // ---------------------------------------------------------------------
  // Parameter lists

  /** `()` is the empty parameter list; anything but ')' or ',' after the
      '(' never leaves the loop. */
  lemma ParameterListEnds(toks: seq<Token>, i: nat)
    requires 0 < i <= |toks|
    ensures At(toks, i, ")") ==> Parameters(toks, i) == Ok(([], i + 1))
    ensures !At(toks, i, ")") && !At(toks, i, ",") ==> Parameters(toks, i) == Err(Diverges)
  {
  }

  /** Every entry of a parameter list that parses is the delimiter before
      it, a '(' or a ',', and never a name: `tokens.get(-1)` is read before
      the name is matched. */
  lemma {:induction false} ParametersAreDelimiters(toks: seq<Token>, i: nat)
    requires 0 < i <= |toks| && toks[i - 1].literal in {"(", ","}
    ensures var r := Parameters(toks, i);
      r.Ok? ==> forall k :: 0 <= k < |r.value.0| ==> r.value.0[k] in {"(", ","}
    decreases |toks| - i
  {
    if !At(toks, i, ")") {
      var commas := Commas(toks, i);
      if commas != [] {
        var n := |commas|;
        assert commas[n - 1] == "," && toks[i + (n - 1)].literal == ",";
        ParametersAreDelimiters(toks, i + n);
      }
    }
  }

  /** A method that parses has parameters made of '(' and ',' only. */
  lemma MethodParameters(toks: seq<Token>, i: nat)
    requires At(toks, i, "DEF")
    ensures var r := MethodAt(toks, i);
      r.Ok? ==> forall k :: 0 <= k < |r.value.0.parameters| ==> r.value.0.parameters[k] in {"(", ","}
  {
    if AtKind(toks, i + 1, Identifier) && At(toks, i + 2, "(") {
      ParametersAreDelimiters(toks, i + 3);
      assert MethodAt(toks, i) == MethodRest(toks, i + 3, toks[i + 1].literal);
    }
  }
}
