/** The parser: recursive descent over a TokenStream cursor. Each `parse*`
    method of the Parser class is proved against a function over the token
    list that says which node it builds and the index at which it leaves the
    stream, or which exception it throws. */
module Parsing {
  import opened Outcomes
  import opened Tokens
  import A = Ast
  import Numbers
  import Escapes

  /** What a parse can end in besides a node: the ParseException at an
      index; the IndexOutOfBoundsException of a `tokens.get` past either
      end; the NumberFormatException of BigInteger and BigDecimal; the
      StringIndexOutOfBoundsException of `charAt` and `substring`; and the
      loops that never end, which a Java run would spin in forever. */
  datatype ParseError =
    | ParseException(index: int)
    | IndexOutOfBounds
    | NumberFormat
    | StringIndexOutOfBounds
    | Diverges

  /** A peek pattern: a token type, or a literal the token must spell. */
  datatype Pattern = OfKind(kind: TokenType) | Spelled(literal: string)

  predicate Fits(p: Pattern, t: Token) {
    match p
    case OfKind(k) => t.kind == k
    case Spelled(l) => t.literal == l
  }

  /** peek(patterns) at index i. */
  predicate Peeks(toks: seq<Token>, i: nat, patterns: seq<Pattern>)
    decreases |patterns|
  {
    patterns == [] || (i < |toks| && Fits(patterns[0], toks[i]) && Peeks(toks, i + 1, patterns[1..]))
  }

  lemma {:induction false} PeeksBound(toks: seq<Token>, i: nat, patterns: seq<Pattern>)
    requires Peeks(toks, i, patterns)
    ensures i + |patterns| <= |toks| || patterns == []
    ensures forall k :: 0 <= k < |patterns| ==> Fits(patterns[k], toks[i + k])
    decreases |patterns|
  {
    if patterns != [] {
      PeeksBound(toks, i + 1, patterns[1..]);
      assert forall k :: 1 <= k < |patterns| ==> patterns[k] == patterns[1..][k - 1];
    }
  }

  /** The token at i spells lit. */
  predicate At(toks: seq<Token>, i: nat, lit: string) {
    i < |toks| && toks[i].literal == lit
  }

  /** The token at i has type k. */
  predicate AtKind(toks: seq<Token>, i: nat, k: TokenType) {
    i < |toks| && toks[i].kind == k
  }

  /** parseIndex(present) at stream index i: the index of the current
      token, or (present false) the end of the previous token. Either asks
      `tokens.get` for a token that may not exist. */
  function ErrorAt(toks: seq<Token>, i: nat, present: bool): (e: ParseError)
    ensures e.ParseException? || e == IndexOutOfBounds
  {
    if present then
      if i < |toks| then ParseException(toks[i].index) else IndexOutOfBounds
    else
      if 0 < i <= |toks| then ParseException(toks[i - 1].index + |toks[i - 1].literal|) else IndexOutOfBounds
  }

  /** `tokens.has(0) ? parseIndex(true) : parseIndex(false)`: the exception
      for a missing token. */
  function Missing(toks: seq<Token>, i: nat): ParseError {
    ErrorAt(toks, i, i < |toks|)
  }

  /** At the end of the stream a missing token is blamed on the end of the
      last token; anywhere else on the token that is there instead. */
  lemma MissingIndex(toks: seq<Token>, i: nat)
    requires 0 < i <= |toks|
    ensures i < |toks| ==> Missing(toks, i) == ParseException(toks[i].index)
    ensures i == |toks| ==> Missing(toks, i) == ParseException(toks[i - 1].index + |toks[i - 1].literal|)
  {
  }

  // ---------------------------------------------------------------------
  // Expressions

  /** The binary operators of the logical, equality, additive and
      multiplicative rules, each rule's operators in the order its loops
      try them. */
  const LevelOps: seq<seq<string>> := [["AND", "OR"], ["<", "<=", ">", ">=", "==", "!="], ["+", "-"], ["*", "/"]]

  /** parseExpression at i. */
  function Expression(toks: seq<Token>, i: nat): (r: Result<(A.Expr, nat), ParseError>)
    requires i <= |toks|
    ensures r.Ok? ==> i < r.value.1 <= |toks|
    decreases |toks| - i, 6, 0
  {
    Level(toks, i, 0)
  }

  /** The rule at `level` (0 logical ... 3 multiplicative, 4 secondary). */
  function Level(toks: seq<Token>, i: nat, level: nat): (r: Result<(A.Expr, nat), ParseError>)
    requires i <= |toks| && level <= 4
    ensures r.Ok? ==> i < r.value.1 <= |toks|
    decreases |toks| - i, 5 - level, 0
  {
    if level == 4 then Secondary(toks, i)
    else
      var (left, j) :- Level(toks, i, level + 1);
      Runs(toks, j, level, 0, left)
  }

  /** The operator loops of a rule from its op-th operator on, with `left`
      parsed so far: each `while (match(op))` folds the operand after op into
      a Binary whose left is everything before. */
  function Runs(toks: seq<Token>, j: nat, level: nat, op: nat, left: A.Expr): (r: Result<(A.Expr, nat), ParseError>)
    requires j <= |toks| && level < 4 && op <= |LevelOps[level]|
    ensures r.Ok? ==> j <= r.value.1 <= |toks|
    decreases |toks| - j, 0, |LevelOps[level]| - op
  {
    var ops := LevelOps[level];
    if op == |ops| then Ok((left, j))
    else if At(toks, j, ops[op]) then
      var (right, k) :- Level(toks, j + 1, level + 1);
      Runs(toks, k, level, op, A.Binary(ops[op], left, right))
    else Runs(toks, j, level, op + 1, left)
  }

  /** One round of the op-th operator loop at j. */
  lemma RunsStep(toks: seq<Token>, j: nat, level: nat, op: nat, left: A.Expr)
    requires j <= |toks| && level < 4 && op < |LevelOps[level]|
    ensures !At(toks, j, LevelOps[level][op]) ==> Runs(toks, j, level, op, left) == Runs(toks, j, level, op + 1, left)
    ensures At(toks, j, LevelOps[level][op]) && Level(toks, j + 1, level + 1).Err? ==>
      Runs(toks, j, level, op, left) == Err(Level(toks, j + 1, level + 1).error)
    ensures At(toks, j, LevelOps[level][op]) && Level(toks, j + 1, level + 1).Ok? ==>
      var (right, k) := Level(toks, j + 1, level + 1).value;
      Runs(toks, j, level, op, left) == Runs(toks, k, level, op, A.Binary(LevelOps[level][op], left, right))
  {
  }

  /** One `.name` of a secondary chain: a call that made `count` Function
      nodes over its receiver, or a field access. */
  datatype Step = Call(name: string, count: nat) | Field(name: string)

  /** The node of a secondary chain over `base`. Every Function node of the
      chain holds the same argument list object, so each of them ends up
      with every argument the chain parsed. */
  function Build(base: A.Expr, steps: seq<Step>, args: seq<A.Expr>): A.Expr
    decreases |steps|
  {
    if steps == [] then base
    else
      var e := Build(base, steps[..|steps| - 1], args);
      match steps[|steps| - 1]
      case Call(name, count) => Nest(e, name, args, count)
      case Field(name) => A.Access(Some(e), name)
  }

  function Nest(e: A.Expr, name: string, args: seq<A.Expr>, count: nat): A.Expr
    decreases count
  {
    if count == 0 then e else A.Function(Some(Nest(e, name, args, count - 1)), name, args)
  }

  /** parseSecondaryExpression at i. */
  function Secondary(toks: seq<Token>, i: nat): (r: Result<(A.Expr, nat), ParseError>)
    requires i <= |toks|
    ensures r.Ok? ==> i < r.value.1 <= |toks|
    decreases |toks| - i, 0, 2
  {
    var (base, j) :- Primary(toks, i);
    var (steps, args, k) :- Chain(toks, j, []);
    Ok((Build(base, steps, args), k))
  }

  /** The `while (match("."))` loop of parseSecondaryExpression from j, with
      the shared argument list holding `args`. */
  function Chain(toks: seq<Token>, j: nat, args: seq<A.Expr>): (r: Result<(seq<Step>, seq<A.Expr>, nat), ParseError>)
    requires j <= |toks|
    ensures r.Ok? ==> j <= r.value.2 <= |toks|
    decreases |toks| - j, 0, 3
  {
    if !At(toks, j, ".") then Ok(([], args, j))
    else if !AtKind(toks, j + 1, Identifier) then Err(ParseException(-1))
    else
      var name := toks[j + 1].literal;
      if At(toks, j + 2, "(") then
        var ((more, count), k) :- CallArgs(toks, j + 3, args, 1);
        var (steps, all, e) :- Chain(toks, k, more);
        Ok(([Call(name, count)] + steps, all, e))
      else
        var (steps, all, e) :- Chain(toks, j + 2, args);
        Ok(([Field(name)] + steps, all, e))
  }

  /** The `while (!match(")"))` loop of a receiver call from i: it adds one
      argument per round, and a ',' after an argument makes one more
      Function node without consuming the ','. `count` is the number of
      Function nodes made so far. */
  function CallArgs(toks: seq<Token>, i: nat, args: seq<A.Expr>, count: nat): (r: Result<((seq<A.Expr>, nat), nat), ParseError>)
    requires i <= |toks|
    ensures r.Ok? ==> i < r.value.1 <= |toks|
    decreases |toks| - i, 7, 0
  {
    if At(toks, i, ")") then Ok(((args, count), i + 1))
    else
      var (arg, j) :- Expression(toks, i);
      if At(toks, j, ")") then CallArgs(toks, j, args + [arg], count)
      else if !At(toks, j, ",") then Err(ErrorAt(toks, j, true))
      else CallArgs(toks, j, args + [arg], count + 1)
  }

  /** new BigInteger(literal), new BigDecimal(literal). */
  function IntegerLiteral(lit: string): Result<A.Lit, ParseError> {
    match Numbers.ParseBigInteger(lit)
    case Some(v) => Ok(A.Int(v))
    case None => Err(NumberFormat)
  }

  function DecimalLiteral(lit: string): Result<A.Lit, ParseError> {
    match Numbers.ParseBigDecimal(lit)
    case Some(d) => Ok(A.Dec(d))
    case None => Err(NumberFormat)
  }

  /** A CHARACTER literal: `charAt(1)` of the literal, its escapes decoded
      first when it is four characters or longer. */
  function CharacterLiteral(lit: string): Result<A.Lit, ParseError> {
    var text := if |lit| < 4 then lit else Escapes.Unescape(lit);
    if |text| >= 2 then Ok(A.Char(text[1])) else Err(StringIndexOutOfBounds)
  }

  /** A STRING literal: its escapes decoded, then `substring(1, length - 1)`. */
  function StringLiteral(lit: string): Result<A.Lit, ParseError> {
    var text := Escapes.Unescape(lit);
    if |text| >= 2 then Ok(A.Str(text[1..|text| - 1])) else Err(StringIndexOutOfBounds)
  }

  /** parsePrimaryExpression at i. */
  function Primary(toks: seq<Token>, i: nat): (r: Result<(A.Expr, nat), ParseError>)
    requires i <= |toks|
    ensures r.Ok? ==> i < r.value.1 <= |toks|
    decreases |toks| - i, 0, 1
  {
    if At(toks, i, "NIL") then Ok((A.Literal(A.Null), i + 1))
    else if At(toks, i, "TRUE") then Ok((A.Literal(A.Bool(true)), i + 1))
    else if At(toks, i, "FALSE") then Ok((A.Literal(A.Bool(false)), i + 1))
    else if AtKind(toks, i, Integer) then WithEnd(Placed(IntegerLiteral(toks[i].literal)), i + 1)
    else if AtKind(toks, i, Decimal) then WithEnd(Placed(DecimalLiteral(toks[i].literal)), i + 1)
    else if AtKind(toks, i, Character) then WithEnd(Placed(CharacterLiteral(toks[i].literal)), i + 1)
    else if AtKind(toks, i, String) then
      // The literal's own match, then a second `match(STRING)`.
      WithEnd(Placed(StringLiteral(toks[i].literal)), if AtKind(toks, i + 1, String) then i + 2 else i + 1)
    else GroupOrName(toks, i)
  }

  /** A literal's value as a literal expression. */
  function Placed(r: Result<A.Lit, ParseError>): Result<A.Expr, ParseError> {
    match r
    case Ok(v) => Ok(A.Literal(v))
    case Err(e) => Err(e)
  }

  /** The rest of parsePrimaryExpression at i: a parenthesised group, a
      variable or a function call, or the missing-expression error. */
  function GroupOrName(toks: seq<Token>, i: nat): (r: Result<(A.Expr, nat), ParseError>)
    requires i <= |toks|
    ensures r.Ok? ==> i < r.value.1 <= |toks|
    decreases |toks| - i, 0, 0
  {
    if At(toks, i, "(") then
      var (inner, j) :- Expression(toks, i + 1);
      if At(toks, j, ")") then Ok((A.Group(inner), j + 1)) else Err(Missing(toks, j))
    else if AtKind(toks, i, Identifier) then
      var name := toks[i].literal;
      if At(toks, i + 1, "(") then
        var (args, j) :- Arguments(toks, i + 2, []);
        Ok((A.Function(None, name, args), j))
      else Ok((A.Access(None, name), i + 1))
    else Err(Missing(toks, i))
  }

  /** The `while (!peek(")"))` loop of a function call from i: arguments
      with optional commas between them, a comma just before ')' being an
      error; the ')' is then matched. */
  function Arguments(toks: seq<Token>, i: nat, args: seq<A.Expr>): (r: Result<(seq<A.Expr>, nat), ParseError>)
    requires i <= |toks|
    ensures r.Ok? ==> i < r.value.1 <= |toks| && |args| <= |r.value.0|
    decreases |toks| - i, 7, 0
  {
    if At(toks, i, ")") then Ok((args, i + 1))
    else
      var (arg, j) :- Expression(toks, i);
      if At(toks, j, ",") then
        if At(toks, j + 1, ")") then Err(ErrorAt(toks, j + 1, true))
        else Arguments(toks, j + 1, args + [arg])
      else Arguments(toks, j, args + [arg])
  }

  // ---------------------------------------------------------------------
  // Statements

  /** parseStatement at i. */
  function Statement(toks: seq<Token>, i: nat): (r: Result<(A.Stmt, nat), ParseError>)
    requires i <= |toks|
    ensures r.Ok? ==> i < r.value.1 <= |toks|
    decreases |toks| - i, 9, 0
  {
    if At(toks, i, "LET") then Declaration(toks, i)
    else if At(toks, i, "IF") then IfStatement(toks, i)
    else if At(toks, i, "FOR") then ForStatement(toks, i)
    else if At(toks, i, "WHILE") then WhileStatement(toks, i)
    else if At(toks, i, "RETURN") then ReturnStatement(toks, i)
    else
      var (target, j) :- Expression(toks, i);
      if At(toks, j, "=") then
        var (value, k) :- Expression(toks, j + 1);
        if At(toks, k, ";") then Ok((A.Assignment(target, value), k + 1)) else Err(Missing(toks, k))
      else if At(toks, j, ";") then Ok((A.Expression(target), j + 1))
      else Err(Missing(toks, j))
  }

  /** The `LET identifier ('=' expression)? ';'` of a field or a declaration
      at i: the name, the value and the index after the ';'. */
  function LetParts(toks: seq<Token>, i: nat): (r: Result<(string, Option<A.Expr>, nat), ParseError>)
    requires i <= |toks|
    ensures r.Ok? ==> i < r.value.2 <= |toks|
    decreases |toks| - i, 8, 0
  {
    var j := if At(toks, i, "LET") then i + 1 else i;
    if !AtKind(toks, j, Identifier) then Err(ErrorAt(toks, j, true))
    else
      var name := toks[j].literal;
      var (value, k) :-
        if At(toks, j + 1, "=") then
          var (e, k0) :- Expression(toks, j + 2); Ok((Some(e), k0))
        else Ok((None, j + 1));
      if At(toks, k, ";") then Ok((name, value, k + 1)) else Err(ErrorAt(toks, k, true))
  }

  function Declaration(toks: seq<Token>, i: nat): (r: Result<(A.Stmt, nat), ParseError>)
    requires i <= |toks|
    ensures r.Ok? ==> i < r.value.1 <= |toks|
    decreases |toks| - i, 8, 1
  {
    var (name, value, k) :- LetParts(toks, i);
    Ok((A.Declaration(name, None, value), k))
  }

  /** parseIfStatement at i. */
  function IfStatement(toks: seq<Token>, i: nat): (r: Result<(A.Stmt, nat), ParseError>)
    requires i <= |toks|
    ensures r.Ok? ==> i < r.value.1 <= |toks|
    decreases |toks| - i, 8, 1
  {
    var (condition, j) :- Expression(toks, if At(toks, i, "IF") then i + 1 else i);
    IfRest(toks, j, condition)
  }

  /** parseIfStatement after its condition, which ends at j: the DO, the
      branches and the END. */
  function IfRest(toks: seq<Token>, j: nat, condition: A.Expr): (r: Result<(A.Stmt, nat), ParseError>)
    requires j <= |toks|
    ensures r.Ok? ==> j < r.value.1 <= |toks|
    decreases |toks| - j, 8, 0
  {
    if !At(toks, j, "DO") then Err(ErrorAt(toks, j, true))
    else
      var (thens, elses, k) :- ThenLoop(toks, j + 1, []);
      Ok((A.If(condition, thens, elses), k + 1))
  }

  /** The `while (!peek("END"))` loop of an if statement from i: then
      statements, until an ELSE starts the else statements. It stops at
      the END it does not consume. */
  function ThenLoop(toks: seq<Token>, i: nat, thens: seq<A.Stmt>): (r: Result<(seq<A.Stmt>, seq<A.Stmt>, nat), ParseError>)
    requires i <= |toks|
    ensures r.Ok? ==> i <= r.value.2 && At(toks, r.value.2, "END")
    decreases |toks| - i, 10, 0
  {
    if At(toks, i, "END") then Ok((thens, [], i))
    else
      var (s, j) :- Statement(toks, i);
      if At(toks, j, "ELSE") then
        var (elses, k) :- ElseLoop(toks, j + 1, []);
        Ok((thens + [s], elses, k))
      else if j == |toks| then Err(IndexOutOfBounds)
      else ThenLoop(toks, j, thens + [s])
  }

  function ElseLoop(toks: seq<Token>, i: nat, elses: seq<A.Stmt>): (r: Result<(seq<A.Stmt>, nat), ParseError>)
    requires i <= |toks|
    ensures r.Ok? ==> i <= r.value.1 && At(toks, r.value.1, "END")
    decreases |toks| - i, 10, 0
  {
    if At(toks, i, "END") then Ok((elses, i))
    else
      var (s, j) :- Statement(toks, i);
      if j == |toks| then Err(IndexOutOfBounds)
      else ElseLoop(toks, j, elses + [s])
  }

  /** `while (!peek("END")) statements.add(parseStatement())` from i; it
      stops at the END it does not consume. */
  function Block(toks: seq<Token>, i: nat, stmts: seq<A.Stmt>): (r: Result<(seq<A.Stmt>, nat), ParseError>)
    requires i <= |toks|
    ensures r.Ok? ==> i <= r.value.1 && At(toks, r.value.1, "END")
    decreases |toks| - i, 10, 0
  {
    if At(toks, i, "END") then Ok((stmts, i))
    else
      var (s, j) :- Statement(toks, i);
      Block(toks, j, stmts + [s])
  }

  /** parseForStatement at i. */
  function ForStatement(toks: seq<Token>, i: nat): (r: Result<(A.Stmt, nat), ParseError>)
    requires i <= |toks|
    ensures r.Ok? ==> i < r.value.1 <= |toks|
    decreases |toks| - i, 8, 0
  {
    var j := if At(toks, i, "FOR") then i + 1 else i;
    if !AtKind(toks, j, Identifier) then Err(ErrorAt(toks, j, true))
    else if !At(toks, j + 1, "IN") then Err(ErrorAt(toks, j + 1, true))
    else
      var (value, k) :- Expression(toks, j + 2);
      var (body, e) :- DoBlock(toks, k);
      Ok((A.For(toks[j].literal, value, body), e))
  }

  /** parseWhileStatement at i. */
  function WhileStatement(toks: seq<Token>, i: nat): (r: Result<(A.Stmt, nat), ParseError>)
    requires i <= |toks|
    ensures r.Ok? ==> i < r.value.1 <= |toks|
    decreases |toks| - i, 8, 0
  {
    var (condition, k) :- Expression(toks, if At(toks, i, "WHILE") then i + 1 else i);
    var (body, e) :- DoBlock(toks, k);
    Ok((A.While(condition, body), e))
  }

  /** `'DO' statement* 'END'` at k, the end of a for, a while and a
      method. */
  function DoBlock(toks: seq<Token>, k: nat): (r: Result<(seq<A.Stmt>, nat), ParseError>)
    requires k <= |toks|
    ensures r.Ok? ==> k < r.value.1 <= |toks|
    decreases |toks| - k, 0, 0
  {
    if !At(toks, k, "DO") then Err(ErrorAt(toks, k, true))
    else
      var (body, e) :- Block(toks, k + 1, []);
      Ok((body, e + 1))
  }

  /** parseReturnStatement at i. */
  function ReturnStatement(toks: seq<Token>, i: nat): (r: Result<(A.Stmt, nat), ParseError>)
    requires i <= |toks|
    ensures r.Ok? ==> i < r.value.1 <= |toks|
    decreases |toks| - i, 8, 0
  {
    var (value, k) :- Expression(toks, if At(toks, i, "RETURN") then i + 1 else i);
    if At(toks, k, ";") then Ok((A.Return(value), k + 1)) else Err(ErrorAt(toks, k, true))
  }

  // ---------------------------------------------------------------------
  // Fields, methods and the source

  /** parseField at i. */
  function FieldAt(toks: seq<Token>, i: nat): (r: Result<(A.Field, nat), ParseError>)
    requires i <= |toks|
    ensures r.Ok? ==> i < r.value.1 <= |toks|
  {
    var (name, value, k) :- LetParts(toks, i);
    Ok((A.Field(name, None, value), k))
  }

  /** The `while (match(","))` loop from i: the literal of each ',' it
      matches. */
  function Commas(toks: seq<Token>, i: nat): (r: seq<string>)
    requires i <= |toks|
    ensures i + |r| <= |toks| && !At(toks, i + |r|, ",")
    ensures forall k :: 0 <= k < |r| ==> r[k] == "," && toks[i + k].literal == ","
    decreases |toks| - i
  {
    if At(toks, i, ",") then [toks[i].literal] + Commas(toks, i + 1) else []
  }

  /** The `while (!match(")"))` loop of parseMethod from i, just after the
      '(': each round adds the literal of the token before the current one
      and then of each ',' it matches; a round that matches no ',' leaves
      the stream where it was and the loop never ends. */
  function Parameters(toks: seq<Token>, i: nat): (r: Result<(seq<string>, nat), ParseError>)
    requires 0 < i <= |toks|
    ensures r.Ok? ==> i < r.value.1 <= |toks|
    decreases |toks| - i
  {
    if At(toks, i, ")") then Ok(([], i + 1))
    else
      var commas := Commas(toks, i);
      if commas == [] then Err(Diverges)
      else Prefixed([toks[i - 1].literal] + commas, Parameters(toks, i + |commas|))
  }

  /** One round of the parameter loop at a token that is not ')'. */
  lemma ParametersStep(toks: seq<Token>, i: nat)
    requires 0 < i <= |toks| && !At(toks, i, ")")
    ensures Commas(toks, i) == [] ==> Parameters(toks, i) == Err(Diverges)
    ensures Commas(toks, i) != [] ==>
      Parameters(toks, i) == Prefixed([toks[i - 1].literal] + Commas(toks, i), Parameters(toks, i + |Commas(toks, i)|))
  {
  }

  /** A list result with items put in front. */
  function Prefixed(items: seq<string>, r: Result<(seq<string>, nat), ParseError>): Result<(seq<string>, nat), ParseError> {
    match r
    case Ok((more, k)) => Ok((items + more, k))
    case Err(e) => Err(e)
  }

  lemma PrefixedStep(items: seq<string>, more: seq<string>, r: Result<(seq<string>, nat), ParseError>)
    ensures Prefixed(items, Prefixed(more, r)) == Prefixed(items + more, r)
    ensures Prefixed([], r) == r
  {
    if r.Ok? {
      assert items + (more + r.value.0) == items + more + r.value.0;
      assert [] + r.value.0 == r.value.0;
    }
  }

  /** parseMethod at i. */
  function MethodAt(toks: seq<Token>, i: nat): (r: Result<(A.Method, nat), ParseError>)
    requires i <= |toks|
    ensures r.Ok? ==> i < r.value.1 <= |toks|
  {
    var j := if At(toks, i, "DEF") then i + 1 else i;
    if !AtKind(toks, j, Identifier) then Err(ErrorAt(toks, j, true))
    else if !At(toks, j + 1, "(") then Err(ErrorAt(toks, j + 1, true))
    else MethodRest(toks, j + 2, toks[j].literal)
  }

  /** parseMethod after `name (`: the parameters, the ')' and the body. */
  function MethodRest(toks: seq<Token>, i: nat, name: string): (r: Result<(A.Method, nat), ParseError>)
    requires 0 < i <= |toks|
    ensures r.Ok? ==> i < r.value.1 <= |toks|
  {
    var (params, k) :- Parameters(toks, i);
    var (body, e) :- DoBlock(toks, k);
    Ok((A.Method(name, params, [], None, body), e))
  }

  /** The `while (peek("LET"))` loop of parseSource from i: after each field
      the next token must be LET or DEF, or there must be none. */
  function FieldLoop(toks: seq<Token>, i: nat, fields: seq<A.Field>): (r: Result<(seq<A.Field>, nat), ParseError>)
    requires i <= |toks|
    ensures r.Ok? ==> i <= r.value.1 <= |toks| && !At(toks, r.value.1, "LET")
    ensures r.Ok? ==> r.value.1 == |toks| || At(toks, r.value.1, "DEF") || r.value.1 == i
    ensures r.Ok? && At(toks, i, "LET") ==> i < r.value.1
    decreases |toks| - i
  {
    if !At(toks, i, "LET") then Ok((fields, i))
    else
      var (f, j) :- FieldAt(toks, i);
      if !At(toks, j, "LET") && !At(toks, j, "DEF") && j < |toks| then Err(ParseException(toks[j].index))
      else FieldLoop(toks, j, fields + [f])
  }

  /** The `while (peek("DEF"))` loop of parseSource from i: after each
      method the next token must be DEF, or there must be none. */
  function MethodLoop(toks: seq<Token>, i: nat, methods: seq<A.Method>): (r: Result<(seq<A.Method>, nat), ParseError>)
    requires i <= |toks|
    ensures r.Ok? ==> i <= r.value.1 <= |toks| && !At(toks, r.value.1, "DEF")
    ensures r.Ok? ==> r.value.1 == |toks| || r.value.1 == i
    ensures r.Ok? && At(toks, i, "DEF") ==> i < r.value.1
    decreases |toks| - i
  {
    if !At(toks, i, "DEF") then Ok((methods, i))
    else
      var (m, j) :- MethodAt(toks, i);
      if !At(toks, j, "DEF") && j < |toks| then Err(ParseException(toks[j].index))
      else MethodLoop(toks, j, methods + [m])
  }

  /** The `while (peek(IDENTIFIER))` loop of parseSource from i, and the
      check after it that no token is left. An identifier other than LET
      and DEF there makes no progress, and the loop never ends. */
  function SourceLoop(toks: seq<Token>, i: nat, fields: seq<A.Field>, methods: seq<A.Method>): Result<A.Source, ParseError>
    requires i <= |toks|
    decreases |toks| - i
  {
    if AtKind(toks, i, Identifier) then
      if !At(toks, i, "LET") && !At(toks, i, "DEF") then Err(Diverges)
      else
        var (fs, j) :- FieldLoop(toks, i, fields);
        var (ms, k) :- MethodLoop(toks, j, methods);
        SourceLoop(toks, k, fs, ms)
    else if i < |toks| then Err(ParseException(toks[i].index))
    else Ok(A.Source(fields, methods))
  }

  /** parseSource over the whole token list. */
  function Source(toks: seq<Token>): Result<A.Source, ParseError> {
    SourceLoop(toks, 0, [], [])
  }

  // ---------------------------------------------------------------------
  // The token stream and the parser

  /** A method result and the stream index it leaves, in the shape of the
      functions above. */
  function WithEnd<T>(r: Result<T, ParseError>, i: nat): Result<(T, nat), ParseError> {
    match r
    case Ok(v) => Ok((v, i))
    case Err(e) => Err(e)
  }

  /** `throw new ParseException(..., parseIndex(...))`: the ParseException,
      or the exception parseIndex itself threw. */
  function Thrown(r: Result<int, ParseError>): ParseError {
    match r
    case Ok(k) => ParseException(k)
    case Err(e) => e
  }

  /** The parser's cursor over the token list. */
  class TokenStream {
    const tokens: seq<Token>
    var index: nat

    constructor(tokens: seq<Token>)
      ensures this.tokens == tokens && index == 0
    {
      this.tokens := tokens;
      index := 0;
    }

    /** has(offset): a token exists at index + offset. */
    predicate Has(offset: int)
      reads this
    {
      index + offset < |tokens|
    }

    function Get(offset: int): Token
      reads this
      requires 0 <= index + offset < |tokens|
    {
      tokens[index + offset]
    }

    method Advance()
      modifies this
      ensures index == old(index) + 1
    {
      index := index + 1;
    }
  }

  class Parser {
    const stream: TokenStream

    constructor(tokens: seq<Token>)
      ensures fresh(stream) && stream.tokens == tokens && stream.index == 0
    {
      stream := new TokenStream(tokens);
    }

    predicate Ready()
      reads stream
    {
      stream.index <= |stream.tokens|
    }

    /** peek(patterns): each pattern fits the token at its offset; false as
      soon as an offset lies past the last token. */
    method Peek(patterns: seq<Pattern>) returns (b: bool)
      ensures b == Peeks(stream.tokens, stream.index, patterns)
      ensures b && patterns != [] ==> stream.index + |patterns| <= |stream.tokens|
    {
      for i := 0 to |patterns|
        invariant Peeks(stream.tokens, stream.index, patterns) == Peeks(stream.tokens, stream.index + i, patterns[i..])
      {
        if !stream.Has(i) || !Fits(patterns[i], stream.Get(i)) {
          return false;
        }
        assert patterns[i..][1..] == patterns[i + 1..];
      }
      b := true;
      PeeksBound(stream.tokens, stream.index, patterns);
    }

    /** match(patterns): peek, and on success advance past the matched
      tokens. */
    method Match(patterns: seq<Pattern>) returns (b: bool)
      modifies stream
      ensures b == Peeks(stream.tokens, old(stream.index), patterns)
      ensures b ==> stream.index == old(stream.index) + |patterns|
      ensures !b ==> stream.index == old(stream.index)
      ensures b && patterns != [] ==> stream.index <= |stream.tokens|
    {
      b := Peek(patterns);
      if b {
        for i := 0 to |patterns|
          invariant stream.index == old(stream.index) + i
        {
          stream.Advance();
        }
      }
    }

    /** peek and match with a single literal or token type. */
    method PeekLit(lit: string) returns (b: bool)
      ensures b == At(stream.tokens, stream.index, lit)
    {
      b := Peek([Spelled(lit)]);
      assert [Spelled(lit)][1..] == [];
    }

    method MatchLit(lit: string) returns (b: bool)
      modifies stream
      ensures b == At(stream.tokens, old(stream.index), lit)
      ensures stream.index == old(stream.index) + (if b then 1 else 0)
    {
      b := Match([Spelled(lit)]);
      assert [Spelled(lit)][1..] == [];
    }

    method PeekKind(k: TokenType) returns (b: bool)
      ensures b == AtKind(stream.tokens, stream.index, k)
    {
      b := Peek([OfKind(k)]);
      assert [OfKind(k)][1..] == [];
    }

    method MatchKind(k: TokenType) returns (b: bool)
      modifies stream
      ensures b == AtKind(stream.tokens, old(stream.index), k)
      ensures stream.index == old(stream.index) + (if b then 1 else 0)
    {
      b := Match([OfKind(k)]);
      assert [OfKind(k)][1..] == [];
    }

    /** parseIndex(present). */
    method ParseIndex(present: bool) returns (r: Result<int, ParseError>)
      ensures Thrown(r) == ErrorAt(stream.tokens, stream.index, present)
    {
      if present {
        if !stream.Has(0) {
          return Err(IndexOutOfBounds);
        }
        return Ok(stream.Get(0).index);
      } else {
        if stream.index == 0 || !stream.Has(-1) {
          return Err(IndexOutOfBounds);
        }
        var last := stream.Get(-1);
        return Ok(|last.literal| + last.index);
      }
    }

    /** The exception for a missing token: parseIndex(true) when a token is
      there, parseIndex(false) at the end. */
    method MissingError() returns (e: ParseError)
      ensures e == Missing(stream.tokens, stream.index)
    {
      var x := ParseIndex(stream.Has(0));
      e := Thrown(x);
    }
  
    // -------------------------------------------------------------------
    // Expressions

    method ParseExpression() returns (r: Result<A.Expr, ParseError>)
      requires Ready()
      modifies stream
      ensures WithEnd(r, stream.index) == Expression(stream.tokens, old(stream.index))
      decreases |stream.tokens| - stream.index, 6, 0
    {
      r := ParseLevel(0);
    }

    /** parseLogicalExpression, parseEqualityExpression,
      parseAdditiveExpression and parseMultiplicativeExpression (levels 0 to
      3), which differ only in their operators, and parseSecondaryExpression
      (level 4). */
    method ParseLevel(level: nat) returns (r: Result<A.Expr, ParseError>)
      requires Ready() && level <= 4
      modifies stream
      ensures WithEnd(r, stream.index) == Level(stream.tokens, old(stream.index), level)
      decreases |stream.tokens| - stream.index, 5 - level, 0
    {
      if level == 4 {
        r := ParseSecondary();
        return;
      }
      ghost var toks := stream.tokens;
      ghost var target := Level(toks, stream.index, level);
      var expr :- ParseLevel(level + 1);
      var ops := LevelOps[level];
      for op := 0 to |ops|
        invariant old(stream.index) < stream.index <= |toks|
        invariant Runs(toks, stream.index, level, op, expr) == target
      {
        expr :- ParseOperatorLoop(level, op, expr);
      }
      return Ok(expr);
    }

    /** The `while (match(op))` loop for the op-th operator of a rule,
      with `left` parsed so far. */
    method ParseOperatorLoop(level: nat, op: nat, left: A.Expr) returns (r: Result<A.Expr, ParseError>)
      requires Ready() && level < 4 && op < |LevelOps[level]|
      modifies stream
      ensures r.Ok? ==> old(stream.index) <= stream.index <= |stream.tokens|
      ensures r.Ok? ==> Runs(stream.tokens, old(stream.index), level, op, left)
                          == Runs(stream.tokens, stream.index, level, op + 1, r.value)
      ensures r.Err? ==> Runs(stream.tokens, old(stream.index), level, op, left) == Err(r.error)
      decreases |stream.tokens| - stream.index, 5 - level, 1
    {
      ghost var toks := stream.tokens;
      ghost var target := Runs(toks, stream.index, level, op, left);
      var expr := left;
      while true
        invariant old(stream.index) <= stream.index <= |toks|
        invariant Runs(toks, stream.index, level, op, expr) == target
        decreases |toks| - stream.index
      {
        ghost var j := stream.index;
        RunsStep(toks, j, level, op, expr);
        var m := MatchLit(LevelOps[level][op]);
        if !m {
          break;
        }
        var operator := stream.Get(-1).literal;
        var right :- ParseLevel(level + 1);
        expr := A.Binary(operator, expr, right);
      }
      return Ok(expr);
    }

    method ParseSecondary() returns (r: Result<A.Expr, ParseError>)
      requires Ready()
      modifies stream
      ensures WithEnd(r, stream.index) == Secondary(stream.tokens, old(stream.index))
      decreases |stream.tokens| - stream.index, 0, 2
    {
      var base :- ParsePrimary();
      var chain := ParseChain();
      if chain.Err? {
        return Err(chain.error);
      }
      var (steps, list, _) := chain.value;
      return Ok(Build(base, steps, list));
    }

    /** The `while (match("."))` loop of parseSecondaryExpression. */
    method ParseChain() returns (r: Result<(seq<Step>, seq<A.Expr>, nat), ParseError>)
      requires Ready()
      modifies stream
      ensures r == Chain(stream.tokens, old(stream.index), [])
      ensures r.Ok? ==> stream.index == r.value.2
      decreases |stream.tokens| - stream.index, 0, 3
    {
      ghost var toks := stream.tokens;
      ghost var target := Chain(toks, stream.index, []);
      // The Function nodes share one argument list; the chain's steps are
      // kept and the nodes built over the final list.
      var steps: seq<Step> := [];
      var list: seq<A.Expr> := [];
      ChainFromStep([], [], target);
      while true
        invariant old(stream.index) <= stream.index <= |toks|
        invariant ChainFrom(steps, Chain(toks, stream.index, list)) == target
        decreases |toks| - stream.index
      {
        ghost var j := stream.index;
        var dot := MatchLit(".");
        if !dot {
          break;
        }
        var id := MatchKind(Identifier);
        if !id {
          return Err(ParseException(-1));
        }
        var name := stream.Get(-1).literal;
        var open := MatchLit("(");
        if open {
          var call :- ParseCallArguments(list);
          ghost var rest := Chain(toks, stream.index, call.0);
          ChainCallStep(toks, j, list);
          ChainFromStep(steps, [Call(name, call.1)], rest);
          steps := steps + [Call(name, call.1)];
          list := call.0;
        } else {
          ghost var rest := Chain(toks, stream.index, list);
          ChainFieldStep(toks, j, list);
          ChainFromStep(steps, [Field(name)], rest);
          steps := steps + [Field(name)];
        }
      }
      assert steps + [] == steps;
      return Ok((steps, list, stream.index));
    }

    /** The `while (!match(")"))` loop of a receiver call: the argument list
      and the number of Function nodes the call made. */
    method ParseCallArguments(list0: seq<A.Expr>) returns (r: Result<(seq<A.Expr>, nat), ParseError>)
      requires Ready()
      modifies stream
      ensures WithEnd(r, stream.index) == CallArgs(stream.tokens, old(stream.index), list0, 1)
      decreases |stream.tokens| - stream.index, 7, 0
    {
      ghost var toks := stream.tokens;
      ghost var target := CallArgs(toks, stream.index, list0, 1);
      var list := list0;
      var count := 1;
      while true
        invariant old(stream.index) <= stream.index <= |toks|
        invariant CallArgs(toks, stream.index, list, count) == target
        decreases |toks| - stream.index
      {
        var close := MatchLit(")");
        if close {
          break;
        }
        var arg :- ParseExpression();
        list := list + [arg];
        var closing := PeekLit(")");
        if !closing {
          var comma := PeekLit(",");
          if !comma {
            var x := ParseIndex(true);
            return Err(Thrown(x));
          }
          // `else if (peek(")"))` cannot hold: the token is a ','.
          count := count + 1;
        }
      }
      return Ok((list, count));
    }

    method ParsePrimary() returns (r: Result<A.Expr, ParseError>)
      requires Ready()
      modifies stream
      ensures WithEnd(r, stream.index) == Primary(stream.tokens, old(stream.index))
      decreases |stream.tokens| - stream.index, 0, 1
    {
      var m := MatchLit("NIL");
      if m {
        return Ok(A.Literal(A.Null));
      }
      m := MatchLit("TRUE");
      if m {
        return Ok(A.Literal(A.Bool(true)));
      }
      m := MatchLit("FALSE");
      if m {
        return Ok(A.Literal(A.Bool(false)));
      }
      m := MatchKind(Integer);
      if m {
        return Placed(IntegerLiteral(stream.Get(-1).literal));
      }
      m := MatchKind(Decimal);
      if m {
        return Placed(DecimalLiteral(stream.Get(-1).literal));
      }
      m := MatchKind(Character);
      if m {
        return Placed(CharacterLiteral(stream.Get(-1).literal));
      }
      m := MatchKind(String);
      if m {
        r := Placed(StringLiteral(stream.Get(-1).literal));
        if r.Err? {
          return;
        }
        var _ := MatchKind(String);
        return;
      }
      r := ParseGroupOrName();
    }

    method ParseGroupOrName() returns (r: Result<A.Expr, ParseError>)
      requires Ready()
      modifies stream
      ensures WithEnd(r, stream.index) == GroupOrName(stream.tokens, old(stream.index))
      decreases |stream.tokens| - stream.index, 0, 0
    {
      var p := PeekLit("(");
      if p {
        var _ := MatchLit("(");
        var inner :- ParseExpression();
        var close := PeekLit(")");
        if close {
          var _ := MatchLit(")");
          return Ok(A.Group(inner));
        }
        var e := MissingError();
        return Err(e);
      }
      p := PeekKind(Identifier);
      if p {
        var name := stream.Get(0).literal;
        var _ := MatchKind(Identifier);
        var call := PeekLit("(");
        if call {
          var _ := MatchLit("(");
          var args :- ParseArguments();
          return Ok(A.Function(None, name, args));
        }
        return Ok(A.Access(None, name));
      }
      var e := MissingError();
      return Err(e);
    }

    /** The argument loop of a function call, and the ')' after it. */
    method ParseArguments() returns (r: Result<seq<A.Expr>, ParseError>)
      requires Ready()
      modifies stream
      ensures WithEnd(r, stream.index) == Arguments(stream.tokens, old(stream.index), [])
      decreases |stream.tokens| - stream.index, 7, 0
    {
      ghost var toks := stream.tokens;
      ghost var target := Arguments(toks, stream.index, []);
      var args: seq<A.Expr> := [];
      while true
        invariant old(stream.index) <= stream.index <= |toks|
        invariant Arguments(toks, stream.index, args) == target
        decreases |toks| - stream.index
      {
        var close := PeekLit(")");
        if close {
          break;
        }
        var arg :- ParseExpression();
        args := args + [arg];
        var comma := PeekLit(",");
        if comma {
          var _ := MatchLit(",");
          close := PeekLit(")");
          if close {
            var x := ParseIndex(true);
            return Err(Thrown(x));
          }
        }
      }
      var _ := MatchLit(")");
      return Ok(args);
    }

    // -------------------------------------------------------------------
    // Statements

    method ParseStatement() returns (r: Result<A.Stmt, ParseError>)
      requires Ready()
      modifies stream
      ensures WithEnd(r, stream.index) == Statement(stream.tokens, old(stream.index))
      decreases |stream.tokens| - stream.index, 9, 0
    {
      var p := PeekLit("LET");
      if p {
        r := ParseDeclaration();
        return;
      }
      p := PeekLit("IF");
      if p {
        r := ParseIf();
        return;
      }
      p := PeekLit("FOR");
      if p {
        r := ParseFor();
        return;
      }
      p := PeekLit("WHILE");
      if p {
        r := ParseWhile();
        return;
      }
      p := PeekLit("RETURN");
      if p {
        r := ParseReturn();
        return;
      }
      var target :- ParseExpression();
      p := PeekLit("=");
      if p {
        var _ := MatchLit("=");
        var value :- ParseExpression();
        var semi := PeekLit(";");
        if semi {
          var _ := MatchLit(";");
          return Ok(A.Assignment(target, value));
        }
        var e := MissingError();
        return Err(e);
      }
      var semi := PeekLit(";");
      if semi {
        var _ := MatchLit(";");
        return Ok(A.Expression(target));
      }
      var e := MissingError();
      return Err(e);
    }

    method ParseDeclaration() returns (r: Result<A.Stmt, ParseError>)
      requires Ready()
      modifies stream
      ensures WithEnd(r, stream.index) == Declaration(stream.tokens, old(stream.index))
      decreases |stream.tokens| - stream.index, 8, 1
    {
      var parts :- ParseLet();
      return Ok(A.Declaration(parts.0, None, parts.1));
    }

    /** `LET identifier ('=' expression)? ';'`, shared by parseField and
      parseDeclarationStatement: the name and the value. */
    method ParseLet() returns (r: Result<(string, Option<A.Expr>), ParseError>)
      requires Ready()
      modifies stream
      ensures WithEnd(r, stream.index) == Flat(LetParts(stream.tokens, old(stream.index)))
      decreases |stream.tokens| - stream.index, 8, 0
    {
      var _ := MatchLit("LET");
      var id := MatchKind(Identifier);
      if !id {
        var x := ParseIndex(true);
        return Err(Thrown(x));
      }
      var name := stream.Get(-1).literal;
      var value: Option<A.Expr> := None;
      var eq := MatchLit("=");
      if eq {
        var e :- ParseExpression();
        value := Some(e);
      }
      var semi := MatchLit(";");
      if !semi {
        var x := ParseIndex(true);
        return Err(Thrown(x));
      }
      return Ok((name, value));
    }

    method ParseIf() returns (r: Result<A.Stmt, ParseError>)
      requires Ready()
      modifies stream
      ensures WithEnd(r, stream.index) == IfStatement(stream.tokens, old(stream.index))
      decreases |stream.tokens| - stream.index, 8, 1
    {
      var _ := MatchLit("IF");
      var condition :- ParseExpression();
      r := ParseIfRest(condition);
    }

    method ParseIfRest(condition: A.Expr) returns (r: Result<A.Stmt, ParseError>)
      requires Ready()
      modifies stream
      ensures WithEnd(r, stream.index) == IfRest(stream.tokens, old(stream.index), condition)
      decreases |stream.tokens| - stream.index, 8, 0
    {
      var d := MatchLit("DO");
      if !d {
        var x := ParseIndex(true);
        return Err(Thrown(x));
      }
      var branches :- ParseThens();
      var _ := MatchLit("END");
      return Ok(A.If(condition, branches.0, branches.1));
    }

    /** The then statements of an if and, after an ELSE, its else
      statements, up to the END it does not consume. */
    method ParseThens() returns (r: Result<(seq<A.Stmt>, seq<A.Stmt>), ParseError>)
      requires Ready()
      modifies stream
      ensures WithEnd(r, stream.index) == Flat(ThenLoop(stream.tokens, old(stream.index), []))
      decreases |stream.tokens| - stream.index, 10, 0
    {
      ghost var toks := stream.tokens;
      ghost var target := ThenLoop(toks, stream.index, []);
      var thens: seq<A.Stmt> := [];
      while true
        invariant old(stream.index) <= stream.index <= |toks|
        invariant ThenLoop(toks, stream.index, thens) == target
        decreases |toks| - stream.index
      {
        var end := PeekLit("END");
        if end {
          break;
        }
        var s :- ParseStatement();
        thens := thens + [s];
        var e := PeekLit("ELSE");
        if e {
          var _ := MatchLit("ELSE");
          var elses :- ParseElse();
          return Ok((thens, elses));
        }
        if !stream.Has(0) {
          var x := ParseIndex(true);
          return Err(Thrown(x));
        }
      }
      return Ok((thens, []));
    }

    /** The else statements of an if, up to the END it does not consume. */
    method ParseElse() returns (r: Result<seq<A.Stmt>, ParseError>)
      requires Ready()
      modifies stream
      ensures WithEnd(r, stream.index) == ElseLoop(stream.tokens, old(stream.index), [])
      decreases |stream.tokens| - stream.index, 10, 0
    {
      ghost var toks := stream.tokens;
      ghost var target := ElseLoop(toks, stream.index, []);
      var elses: seq<A.Stmt> := [];
      while true
        invariant old(stream.index) <= stream.index <= |toks|
        invariant ElseLoop(toks, stream.index, elses) == target
        decreases |toks| - stream.index
      {
        var end := PeekLit("END");
        if end {
          break;
        }
        var s :- ParseStatement();
        elses := elses + [s];
        if !stream.Has(0) {
          var x := ParseIndex(true);
          return Err(Thrown(x));
        }
      }
      return Ok(elses);
    }

    /** `while (!peek("END")) statements.add(parseStatement())`, the body
      of a method, a for and a while. */
    method ParseBlock() returns (r: Result<seq<A.Stmt>, ParseError>)
      requires Ready()
      modifies stream
      ensures WithEnd(r, stream.index) == Block(stream.tokens, old(stream.index), [])
      decreases |stream.tokens| - stream.index, 10, 0
    {
      ghost var toks := stream.tokens;
      ghost var target := Block(toks, stream.index, []);
      var stmts: seq<A.Stmt> := [];
      while true
        invariant old(stream.index) <= stream.index <= |toks|
        invariant Block(toks, stream.index, stmts) == target
        decreases |toks| - stream.index
      {
        var end := PeekLit("END");
        if end {
          break;
        }
        var s :- ParseStatement();
        stmts := stmts + [s];
      }
      return Ok(stmts);
    }

    method ParseFor() returns (r: Result<A.Stmt, ParseError>)
      requires Ready()
      modifies stream
      ensures WithEnd(r, stream.index) == ForStatement(stream.tokens, old(stream.index))
      decreases |stream.tokens| - stream.index, 8, 0
    {
      var _ := MatchLit("FOR");
      var id := MatchKind(Identifier);
      if !id {
        var x := ParseIndex(true);
        return Err(Thrown(x));
      }
      var name := stream.Get(-1).literal;
      var i := MatchLit("IN");
      if !i {
        var x := ParseIndex(true);
        return Err(Thrown(x));
      }
      var value :- ParseExpression();
      var body :- ParseDoBlock();
      return Ok(A.For(name, value, body));
    }

    method ParseWhile() returns (r: Result<A.Stmt, ParseError>)
      requires Ready()
      modifies stream
      ensures WithEnd(r, stream.index) == WhileStatement(stream.tokens, old(stream.index))
      decreases |stream.tokens| - stream.index, 8, 0
    {
      var _ := MatchLit("WHILE");
      var condition :- ParseExpression();
      var body :- ParseDoBlock();
      return Ok(A.While(condition, body));
    }

    method ParseDoBlock() returns (r: Result<seq<A.Stmt>, ParseError>)
      requires Ready()
      modifies stream
      ensures WithEnd(r, stream.index) == DoBlock(stream.tokens, old(stream.index))
      decreases |stream.tokens| - stream.index, 0, 0
    {
      var d := MatchLit("DO");
      if !d {
        var x := ParseIndex(true);
        return Err(Thrown(x));
      }
      var body :- ParseBlock();
      // The block stopped at an END, so `match("END")` succeeds.
      var _ := MatchLit("END");
      return Ok(body);
    }

    method ParseReturn() returns (r: Result<A.Stmt, ParseError>)
      requires Ready()
      modifies stream
      ensures WithEnd(r, stream.index) == ReturnStatement(stream.tokens, old(stream.index))
      decreases |stream.tokens| - stream.index, 8, 0
    {
      var _ := MatchLit("RETURN");
      var value :- ParseExpression();
      var semi := MatchLit(";");
      if !semi {
        var x := ParseIndex(true);
        return Err(Thrown(x));
      }
      return Ok(A.Return(value));
    }

    // -------------------------------------------------------------------
    // Fields, methods and the source

    method ParseField() returns (r: Result<A.Field, ParseError>)
      requires Ready()
      modifies stream
      ensures WithEnd(r, stream.index) == FieldAt(stream.tokens, old(stream.index))
    {
      var parts :- ParseLet();
      return Ok(A.Field(parts.0, None, parts.1));
    }

    method ParseMethod() returns (r: Result<A.Method, ParseError>)
      requires Ready()
      modifies stream
      ensures WithEnd(r, stream.index) == MethodAt(stream.tokens, old(stream.index))
    {
      var _ := MatchLit("DEF");
      var id := MatchKind(Identifier);
      if !id {
        var x := ParseIndex(true);
        return Err(Thrown(x));
      }
      var name := stream.Get(-1).literal;
      var open := MatchLit("(");
      if !open {
        var x := ParseIndex(true);
        return Err(Thrown(x));
      }
      r := ParseMethodRest(name);
    }

    method ParseMethodRest(name: string) returns (r: Result<A.Method, ParseError>)
      requires 0 < stream.index <= |stream.tokens|
      modifies stream
      ensures WithEnd(r, stream.index) == MethodRest(stream.tokens, old(stream.index), name)
    {
      var parameters :- ParseParameters();
      var body :- ParseDoBlock();
      return Ok(A.Method(name, parameters, [], None, body));
    }

    /** The `while (!match(")"))` loop of parseMethod. A round that matches
      no ',' would repeat forever with the stream where it is; here it
      ends with Diverges. The `!peek(")")` guard inside the loop always
      holds there, since the `match(")")` before it failed. */
    method ParseParameters() returns (r: Result<seq<string>, ParseError>)
      requires 0 < stream.index <= |stream.tokens|
      modifies stream
      ensures WithEnd(r, stream.index) == Parameters(stream.tokens, old(stream.index))
    {
      ghost var toks := stream.tokens;
      ghost var target := Parameters(toks, stream.index);
      var parameters: seq<string> := [];
      PrefixedStep([], [], target);
      while true
        invariant 0 < stream.index <= |toks|
        invariant Prefixed(parameters, Parameters(toks, stream.index)) == target
        decreases |toks| - stream.index
      {
        var close := MatchLit(")");
        if close {
          assert parameters + [] == parameters;
          break;
        }
        ghost var i := stream.index;
        ParametersStep(toks, i);
        var previous := stream.Get(-1).literal;
        var commas := ParseCommas();
        if commas == [] {
          return Err(Diverges);
        }
        assert previous == toks[i - 1].literal && stream.index == i + |commas|;
        assert Parameters(toks, i) == Prefixed([previous] + commas, Parameters(toks, stream.index));
        PrefixedStep(parameters, [previous] + commas, Parameters(toks, stream.index));
        parameters := parameters + ([previous] + commas);
      }
      return Ok(parameters);
    }

    /** `while (match(",")) parameters.add(tokens.get(-1).getLiteral())`. */
    method ParseCommas() returns (commas: seq<string>)
      requires Ready()
      modifies stream
      ensures commas == Commas(stream.tokens, old(stream.index))
      ensures stream.index == old(stream.index) + |commas|
    {
      ghost var toks := stream.tokens;
      commas := [];
      while true
        invariant old(stream.index) <= stream.index <= |toks|
        invariant stream.index == old(stream.index) + |commas|
        invariant commas + Commas(toks, stream.index) == Commas(toks, old(stream.index))
        decreases |toks| - stream.index
      {
        var c := MatchLit(",");
        if !c {
          assert commas + [] == commas;
          break;
        }
        assert commas + Commas(toks, stream.index - 1) == commas + [toks[stream.index - 1].literal] + Commas(toks, stream.index);
        commas := commas + [stream.Get(-1).literal];
      }
    }

    /** The `while (peek("LET"))` loop of parseSource. */
    method ParseFields(fields0: seq<A.Field>) returns (r: Result<seq<A.Field>, ParseError>)
      requires Ready()
      modifies stream
      ensures WithEnd(r, stream.index) == FieldLoop(stream.tokens, old(stream.index), fields0)
    {
      ghost var toks := stream.tokens;
      ghost var target := FieldLoop(toks, stream.index, fields0);
      var fields := fields0;
      while true
        invariant stream.index <= |toks|
        invariant FieldLoop(toks, stream.index, fields) == target
        decreases |toks| - stream.index
      {
        var l := PeekLit("LET");
        if !l {
          break;
        }
        var f :- ParseField();
        fields := fields + [f];
        l := PeekLit("LET");
        var d := PeekLit("DEF");
        if !l && !d && stream.Has(0) {
          var x := ParseIndex(true);
          return Err(Thrown(x));
        }
      }
      return Ok(fields);
    }

    /** The `while (peek("DEF"))` loop of parseSource. */
    method ParseMethods(methods0: seq<A.Method>) returns (r: Result<seq<A.Method>, ParseError>)
      requires Ready()
      modifies stream
      ensures WithEnd(r, stream.index) == MethodLoop(stream.tokens, old(stream.index), methods0)
    {
      ghost var toks := stream.tokens;
      ghost var target := MethodLoop(toks, stream.index, methods0);
      var methods := methods0;
      while true
        invariant stream.index <= |toks|
        invariant MethodLoop(toks, stream.index, methods) == target
        decreases |toks| - stream.index
      {
        var d := PeekLit("DEF");
        if !d {
          break;
        }
        var m :- ParseMethod();
        methods := methods + [m];
        d := PeekLit("DEF");
        if !d && stream.Has(0) {
          var x := ParseIndex(true);
          return Err(Thrown(x));
        }
      }
      return Ok(methods);
    }

    /** parseSource from the current token. A round of its
      `while (peek(IDENTIFIER))` loop at an identifier that is neither LET
      nor DEF changes nothing and would repeat forever; here it ends with
      Diverges. */
    method ParseSource() returns (r: Result<A.Source, ParseError>)
      requires Ready()
      modifies stream
      ensures r == SourceLoop(stream.tokens, old(stream.index), [], [])
    {
      ghost var toks := stream.tokens;
      ghost var target := SourceLoop(toks, stream.index, [], []);
      var fields: seq<A.Field> := [];
      var methods: seq<A.Method> := [];
      while true
        invariant stream.index <= |toks|
        invariant SourceLoop(toks, stream.index, fields, methods) == target
        decreases |toks| - stream.index
      {
        var id := PeekKind(Identifier);
        if !id {
          break;
        }
        ghost var start := stream.index;
        var l := PeekLit("LET");
        var d := PeekLit("DEF");
        if !l && !d {
          return Err(Diverges);
        }
        if l {
          fields :- ParseFields(fields);
        }
        d := PeekLit("DEF");
        if d {
          methods :- ParseMethods(methods);
        }
        assert start < stream.index;
      }
      if !stream.Has(0) {
        return Ok(A.Source(fields, methods));
      }
      var x := ParseIndex(true);
      return Err(Thrown(x));
    }
  }

  /** The rest of a secondary chain after the steps already taken. */
  function ChainFrom(steps: seq<Step>, r: Result<(seq<Step>, seq<A.Expr>, nat), ParseError>): Result<(seq<Step>, seq<A.Expr>, nat), ParseError> {
    match r
    case Ok((more, args, k)) => Ok((steps + more, args, k))
    case Err(e) => Err(e)
  }

  /** One `.name(...)` round of the secondary chain at j. */
  lemma ChainCallStep(toks: seq<Token>, j: nat, args: seq<A.Expr>)
    requires j + 2 < |toks| && At(toks, j, ".") && AtKind(toks, j + 1, Identifier) && At(toks, j + 2, "(")
    requires CallArgs(toks, j + 3, args, 1).Ok?
    ensures var ((more, count), k) := CallArgs(toks, j + 3, args, 1).value;
      Chain(toks, j, args) == ChainFrom([Call(toks[j + 1].literal, count)], Chain(toks, k, more))
  {
  }

  /** One `.name` round of the secondary chain at j. */
  lemma ChainFieldStep(toks: seq<Token>, j: nat, args: seq<A.Expr>)
    requires j + 1 < |toks| && At(toks, j, ".") && AtKind(toks, j + 1, Identifier) && !At(toks, j + 2, "(")
    ensures Chain(toks, j, args) == ChainFrom([Field(toks[j + 1].literal)], Chain(toks, j + 2, args))
  {
  }

  lemma ChainFromStep(steps: seq<Step>, more: seq<Step>, r: Result<(seq<Step>, seq<A.Expr>, nat), ParseError>)
    ensures ChainFrom(steps, ChainFrom(more, r)) == ChainFrom(steps + more, r)
    ensures ChainFrom([], r) == r
  {
    if r.Ok? {
      assert steps + (more + r.value.0) == steps + more + r.value.0;
      assert [] + r.value.0 == r.value.0;
    }
  }

  /** A pair result and an index, as one triple. */
  function Flat<X, Y>(r: Result<(X, Y, nat), ParseError>): Result<((X, Y), nat), ParseError> {
    match r
    case Ok((x, y, k)) => Ok(((x, y), k))
    case Err(e) => Err(e)
  }

  /** parseSource over a token list, from a fresh parser. */
  method Parse(tokens: seq<Token>) returns (r: Result<A.Source, ParseError>)
    ensures r == Source(tokens)
  {
    var parser := new Parser(tokens);
    r := parser.ParseSource();
  }
}
