/** What the generator's output looks like: writing only ever appends,
    operators and bodies are spelled as Java spells them, an else and a
    body appear only when there are statements for them, and every brace
    the generator opens it closes. */
module GenerationProperties {
  import opened Outcomes
  import opened Numbers
  import Env = Environment
  import A = Ast
  import opened Generation

  // ---------------------------------------------------------------------
  // Writing only appends: what is already written stays a prefix, and what
  // a node writes does not depend on it

  lemma Associative(a: string, b: string, c: string)
    ensures a + b + c == a + (b + c)
  {
  }

  lemma LiteralPrefix(a: string, b: string, lit: A.Lit)
    ensures WriteLiteral(a + b, lit) == a + WriteLiteral(b, lit)
  {
    if lit.Str? {
      Associative(a, b, "\"");
      Associative(a, b + "\"", lit.s);
      Associative(a, b + "\"" + lit.s, "\"");
    } else if lit.Char? {
      Associative(a, b, "'");
      Associative(a, b + "'", [lit.c]);
      Associative(a, b + "'" + [lit.c], "'");
    } else if lit.Null? {
      Associative(a, b, "null");
    } else {
      Associative(a, b, ValueText(lit));
    }
  }

  lemma {:induction false} ExprPrefix(a: string, b: string, e: A.Expr)
    ensures WriteExpr(a + b, e) == a + WriteExpr(b, e)
    decreases e
  {
    match e
    case Literal(lit, _) =>
      LiteralPrefix(a, b, lit);
    case Group(inner, _) =>
      Associative(a, b, "(");
      ExprPrefix(a, b + "(", inner);
      Associative(a, WriteExpr(b + "(", inner), ")");
    case Binary(op, l, r, _) =>
      ExprPrefix(a, b, l);
      var left := WriteExpr(b, l);
      Associative(a, left, " ");
      Associative(a, left + " ", OperatorText(op));
      Associative(a, left + " " + OperatorText(op), " ");
      ExprPrefix(a, left + " " + OperatorText(op) + " ", r);
    case Access(_, _) =>
    case Function(_, _, _) =>
  }

  lemma DeclarationPrefix(a: string, b: string, v: Option<Env.Variable>, init: Option<A.Expr>)
    requires VariableReady(v)
    ensures WriteDeclaration(a + b, v, init) == a + WriteDeclaration(b, v, init)
  {
    var ty := v.value.ty.value.JvmName();
    Associative(a, b, ty);
    Associative(a, b + ty, " ");
    Associative(a, b + ty + " ", v.value.jvmName);
    var named := b + ty + " " + v.value.jvmName;
    if init.Some? {
      Associative(a, named, " = ");
      ExprPrefix(a, named + " = ", init.value);
      Associative(a, WriteExpr(named + " = ", init.value), ";");
    } else {
      Associative(a, named, ";");
    }
  }

  lemma {:induction false} StmtPrefix(a: string, b: string, s: A.Stmt, n: int)
    requires StmtReady(s)
    ensures WriteStmt(a + b, s, n) == a + WriteStmt(b, s, n)
    decreases s, 3
  {
    match s
    case Expression(e) =>
      ExprPrefix(a, b, e);
      Associative(a, WriteExpr(b, e), ";");
    case Declaration(_, _, init, v) =>
      DeclarationPrefix(a, b, v, init);
    case Assignment(receiver, value) =>
      ExprPrefix(a, b, receiver);
      var left := WriteExpr(b, receiver);
      Associative(a, left, " = ");
      ExprPrefix(a, left + " = ", value);
      Associative(a, WriteExpr(left + " = ", value), ";");
    case If(_, _, _) =>
      IfPrefix(a, b, s, n);
    case For(_, _, _) =>
      LoopPrefix(a, b, s, n);
    case While(_, _) =>
      LoopPrefix(a, b, s, n);
    case Return(e) =>
      Associative(a, b, "return ");
      ExprPrefix(a, b + "return ", e);
      Associative(a, WriteExpr(b + "return ", e), ";");
  }

  lemma {:induction false} IfPrefix(a: string, b: string, s: A.Stmt, n: int)
    requires s.If? && StmtReady(s)
    ensures WriteStmt(a + b, s, n) == a + WriteStmt(b, s, n)
    decreases s, 2
  {
    var c := s.condition;
    Associative(a, b, "if (");
    ExprPrefix(a, b + "if (", c);
    var cond := WriteExpr(b + "if (", c);
    Associative(a, cond, ") {");
    BodyPrefix(a, cond + ") {", s, 0, n);
    var t := WriteBody(cond + ") {", s, 0, n);
    Associative(a, t, "}");
    if s.elseStatements != [] {
      Associative(a, t + "}", " else {");
      BodyPrefix(a, t + "}" + " else {", s, 1, n);
      Associative(a, WriteBody(t + "}" + " else {", s, 1, n), "}");
    }
  }

  lemma {:induction false} LoopPrefix(a: string, b: string, s: A.Stmt, n: int)
    requires (s.For? || s.While?) && StmtReady(s)
    ensures WriteStmt(a + b, s, n) == a + WriteStmt(b, s, n)
    decreases s, 2
  {
    var head := if s.For? then b + "for (int " + s.name + " : " else b + "while (";
    if s.For? {
      Associative(a, b, "for (int ");
      Associative(a, b + "for (int ", s.name);
      Associative(a, b + "for (int " + s.name, " : ");
    } else {
      Associative(a, b, "while (");
    }
    assert (if s.For? then a + b + "for (int " + s.name + " : " else a + b + "while (") == a + head;
    var e := if s.For? then s.value else s.condition;
    ExprPrefix(a, head, e);
    Associative(a, WriteExpr(head, e), ") {");
    BodyPrefix(a, WriteExpr(head, e) + ") {", s, 0, n);
    Associative(a, WriteBody(WriteExpr(head, e) + ") {", s, 0, n), "}");
  }

  lemma {:induction false} BodyPrefix(a: string, b: string, s: A.Stmt, k: nat, n: int)
    requires Compound(s)
    ensures WriteBody(a + b, s, k, n) == a + WriteBody(b, s, k, n)
    decreases s, 1
  {
    if Part(s, k) != [] {
      Associative(a, b, Newline(n + 1));
      LinesPrefix(a, b + Newline(n + 1), s, k, 0, n + 1);
      Associative(a, WriteLines(b + Newline(n + 1), s, k, 0, n + 1), Newline(n));
    }
  }

  lemma {:induction false} LinesPrefix(a: string, b: string, s: A.Stmt, k: nat, i: nat, n: int)
    requires Compound(s)
    ensures WriteLines(a + b, s, k, i, n) == a + WriteLines(b, s, k, i, n)
    decreases s, 0, |Part(s, k)| - i
  {
    if i < |Part(s, k)| {
      PartReady(s, k, i);
      var st := Part(s, k)[i];
      LinePrefix(a, b, st, i, n);
      LinesPrefix(a, WriteStmt(if i == 0 then b else b + Newline(n), st, n), s, k, i + 1, n);
    }
  }

  lemma PartReady(s: A.Stmt, k: nat, i: nat)
    requires Compound(s) && i < |Part(s, k)|
    ensures StmtReady(Part(s, k)[i])
  {
  }

  /** One statement of a body, after the line break that precedes it. */
  lemma {:induction false} LinePrefix(a: string, b: string, st: A.Stmt, i: nat, n: int)
    requires StmtReady(st)
    ensures WriteStmt(if i == 0 then a + b else a + b + Newline(n), st, n)
      == a + WriteStmt(if i == 0 then b else b + Newline(n), st, n)
    decreases st, 4
  {
    if i == 0 {
      StmtPrefix(a, b, st, n);
    } else {
      Associative(a, b, Newline(n));
      StmtPrefix(a, b + Newline(n), st, n);
    }
  }

  lemma EmptyRight(a: string)
    ensures a + "" == a
  {
  }

  /** What a statement writes does not depend on what was written before. */
  lemma StmtAppends(o: string, s: A.Stmt, n: int)
    requires StmtReady(s)
    ensures WriteStmt(o, s, n) == o + WriteStmt("", s, n)
  {
    EmptyRight(o);
    StmtPrefix(o, "", s, n);
  }

  lemma BodyAppends(o: string, s: A.Stmt, k: nat, n: int)
    requires Compound(s)
    ensures WriteBody(o, s, k, n) == o + WriteBody("", s, k, n)
  {
    EmptyRight(o);
    BodyPrefix(o, "", s, k, n);
  }

  lemma LinesAppends(o: string, s: A.Stmt, k: nat, i: nat, n: int)
    requires Compound(s)
    ensures WriteLines(o, s, k, i, n) == o + WriteLines("", s, k, i, n)
  {
    EmptyRight(o);
    LinesPrefix(o, "", s, k, i, n);
  }

  lemma ExprAppends(o: string, e: A.Expr)
    ensures WriteExpr(o, e) == o + WriteExpr("", e)
  {
    EmptyRight(o);
    ExprPrefix(o, "", e);
  }

  // ---------------------------------------------------------------------
  // Expressions

  /** AND and OR are spelled && and ||, every other operator as it is,
      between the operands' texts and one space on each side. */
  lemma OperatorSpelling(op: string, l: A.Expr, r: A.Expr, t: Option<Env.Type>)
    ensures op == "AND" ==> WriteExpr("", A.Binary(op, l, r, t)) == WriteExpr("", l) + " && " + WriteExpr("", r)
    ensures op == "OR" ==> WriteExpr("", A.Binary(op, l, r, t)) == WriteExpr("", l) + " || " + WriteExpr("", r)
    ensures op != "AND" && op != "OR" ==> WriteExpr("", A.Binary(op, l, r, t)) == WriteExpr("", l) + " " + op + " " + WriteExpr("", r)
  {
    var left := WriteExpr("", l);
    var spelled := OperatorText(op);
    ExprAppends(left + " " + spelled + " ", r);
    Associative(left, " ", spelled);
    Associative(left, " " + spelled, " ");
    assert op == "AND" ==> " " + spelled + " " == " && ";
    assert op == "OR" ==> " " + spelled + " " == " || ";
  }

  /** A group is its expression's text between parentheses; an access or a
      call writes nothing. */
  lemma GroupAndAccess(e: A.Expr, t: Option<Env.Type>, o: string, receiver: Option<A.Expr>, name: string, arguments: seq<A.Expr>)
    ensures WriteExpr("", A.Group(e, t)) == "(" + WriteExpr("", e) + ")"
    ensures WriteExpr(o, A.Access(receiver, name)) == o
    ensures WriteExpr(o, A.Function(receiver, name, arguments)) == o
  {
    assert "" + "(" == "(";
    ExprAppends("(", e);
  }

  /** The NIL literal: the visitor as written raises before it prints,
      the corrected one prints `null`, and on every other literal the two
      agree. */
  lemma NilLiteralAsWritten(o: string, lit: A.Lit)
    ensures WriteLiteralAsWritten(o, A.Null) == None
    ensures WriteLiteral(o, A.Null) == o + "null"
    ensures !lit.Null? ==> WriteLiteralAsWritten(o, lit) == Some(WriteLiteral(o, lit))
  {
  }

  /** A string literal is its text between double quotes, a character
      literal its character between single quotes, and an integer literal
      its decimal digits, which read back as the same number. */
  lemma LiteralText(lit: A.Lit)
    ensures lit.Str? ==> var w := WriteLiteral("", lit);
      |w| == |lit.s| + 2 && w[0] == '"' && w[|w| - 1] == '"' && w[1..|w| - 1] == lit.s
    ensures lit.Char? ==> WriteLiteral("", lit) == ['\'', lit.c, '\'']
    ensures lit.Int? ==> ParseBigInteger(WriteLiteral("", lit)) == Some(lit.i)
    ensures lit.Bool? ==> WriteLiteral("", lit) == (if lit.b then "true" else "false")
  {
    if lit.Str? {
      var w := WriteLiteral("", lit);
      assert w == "\"" + lit.s + "\"";
      assert w[1..|w| - 1] == lit.s;
    } else if lit.Char? {
      assert WriteLiteral("", lit) == "'" + [lit.c] + "'";
    } else if lit.Int? {
      assert WriteLiteral("", lit) == IntToString(lit.i);
      ParseIntToString(lit.i);
    }
  }

  /** An expression statement is the expression and ';', an assignment the
      receiver, ` = `, the value and ';', a return `return `, the value and
      ';'. */
  lemma SimpleStatements(e: A.Expr, receiver: A.Expr, value: A.Expr, n: int)
    ensures WriteStmt("", A.Expression(e), n) == WriteExpr("", e) + ";"
    ensures WriteStmt("", A.Assignment(receiver, value), n) == WriteExpr("", receiver) + " = " + WriteExpr("", value) + ";"
    ensures WriteStmt("", A.Return(value), n) == "return " + WriteExpr("", value) + ";"
  {
    ExprAppends(WriteExpr("", receiver) + " = ", value);
    assert "" + "return " == "return ";
    ExprAppends("return ", value);
  }

  // ---------------------------------------------------------------------
  // Bodies and layout

  /** The statements, each on a line of its own at level n: an independent
      reference for the body loops. */
  function Joined(stmts: seq<A.Stmt>, n: int): string
    requires forall i :: 0 <= i < |stmts| ==> StmtReady(stmts[i])
  {
    if stmts == [] then "" else Newline(n) + WriteStmt("", stmts[0], n) + Joined(stmts[1..], n)
  }

  /** A statement after a line break is the line break and its text. */
  lemma OnNewLine(st: A.Stmt, n: int)
    requires StmtReady(st)
    ensures WriteStmt("" + Newline(n), st, n) == Newline(n) + WriteStmt("", st, n)
  {
    assert "" + Newline(n) == Newline(n);
    StmtAppends(Newline(n), st, n);
  }

  /** From the i-th statement on, a body's loop writes Joined. */
  lemma {:induction false} LinesJoined(s: A.Stmt, k: nat, i: nat, n: int)
    requires Compound(s) && 0 < i <= |Part(s, k)|
    ensures WriteLines("", s, k, i, n) == Joined(Part(s, k)[i..], n)
    decreases |Part(s, k)| - i
  {
    var p := Part(s, k);
    if i < |p| {
      PartReady(s, k, i);
      OnNewLine(p[i], n);
      var line := Newline(n) + WriteStmt("", p[i], n);
      LinesAppends(line, s, k, i + 1, n);
      LinesJoined(s, k, i + 1, n);
      assert p[i..][0] == p[i] && p[i..][1..] == p[i + 1..];
    }
  }

  /** A non-empty body at level n: a line break to level n + 1 before each
      statement, and a line break back to level n after the last. An
      empty body writes nothing, so its braces touch: `{}`. */
  lemma BodyLayout(s: A.Stmt, k: nat, n: int)
    requires Compound(s)
    ensures Part(s, k) == [] ==> WriteBody("", s, k, n) == ""
    ensures Part(s, k) != [] ==> WriteBody("", s, k, n) == Joined(Part(s, k), n + 1) + Newline(n)
  {
    var p := Part(s, k);
    if p != [] {
      PartReady(s, k, 0);
      OnNewLine(p[0], n + 1);
      var line := Newline(n + 1) + WriteStmt("", p[0], n + 1);
      assert WriteLines("" + Newline(n + 1), s, k, 0, n + 1) == WriteLines(line, s, k, 1, n + 1);
      LinesAppends(line, s, k, 1, n + 1);
      LinesJoined(s, k, 1, n + 1);
      assert p[1..] == p[0..][1..];
    }
  }

  /** Statements with empty bodies print their braces together. */
  lemma EmptyBodies(c: A.Expr, name: string, value: A.Expr, n: int)
    ensures WriteStmt("", A.While(c, []), n) == "while (" + WriteExpr("", c) + ") {}"
    ensures WriteStmt("", A.For(name, value, []), n) == "for (int " + name + " : " + WriteExpr("", value) + ") {}"
    ensures WriteStmt("", A.If(c, [], []), n) == "if (" + WriteExpr("", c) + ") {}"
  {
    assert WriteStmt("", A.While(c, []), n) == "while (" + WriteExpr("", c) + ") {}" by {
      assert "" + "while (" == "while (";
      ExprAppends("while (", c);
      Associative("while (" + WriteExpr("", c), ") {", "}");
    }
    assert WriteStmt("", A.For(name, value, []), n) == "for (int " + name + " : " + WriteExpr("", value) + ") {}" by {
      var head := "for (int " + name + " : ";
      assert "" + "for (int " + name + " : " == head;
      ExprAppends(head, value);
      Associative(head + WriteExpr("", value), ") {", "}");
    }
    assert WriteStmt("", A.If(c, [], []), n) == "if (" + WriteExpr("", c) + ") {}" by {
      assert "" + "if (" == "if (";
      ExprAppends("if (", c);
      Associative("if (" + WriteExpr("", c), ") {", "}");
    }
  }

  /** Two statements with the same part write the same body. */
  lemma {:induction false} SameLines(o: string, s: A.Stmt, k: nat, s': A.Stmt, k': nat, i: nat, n: int)
    requires Compound(s) && Compound(s') && Part(s, k) == Part(s', k')
    ensures WriteLines(o, s, k, i, n) == WriteLines(o, s', k', i, n)
    decreases |Part(s, k)| - i
  {
    if i < |Part(s, k)| {
      PartReady(s, k, i);
      SameLines(WriteStmt(if i == 0 then o else o + Newline(n), Part(s, k)[i], n), s, k, s', k', i + 1, n);
    }
  }

  /** An if prints its then-branch whatever its else-branch holds, and adds
      ` else {...}` after it exactly when the else-branch has statements. */
  lemma ElseOnlyWhenPresent(c: A.Expr, t: seq<A.Stmt>, e: seq<A.Stmt>, n: int)
    requires StmtReady(A.If(c, t, e))
    ensures e == [] ==> WriteStmt("", A.If(c, t, e), n) == "if (" + WriteExpr("", c) + ") {" + WriteBody("", A.If(c, t, e), 0, n) + "}"
    ensures e != [] ==> WriteStmt("", A.If(c, t, e), n) == WriteStmt("", A.If(c, t, []), n) + " else {" + WriteBody("", A.If(c, t, e), 1, n) + "}"
  {
    var s := A.If(c, t, e);
    var thenOnly := A.If(c, t, []);
    assert "" + "if (" == "if (";
    ExprAppends("if (", c);
    var head := WriteExpr("if (", c) + ") {";
    assert WriteBody(head, s, 0, n) == WriteBody(head, thenOnly, 0, n) by {
      if t != [] {
        SameLines(head + Newline(n + 1), s, 0, thenOnly, 0, 0, n + 1);
      }
    }
    BodyAppends(head, s, 0, n);
    var closed := WriteBody(head, s, 0, n) + "}";
    assert WriteStmt("", thenOnly, n) == closed;
    if e != [] {
      BodyAppends(closed + " else {", s, 1, n);
      Associative(closed + " else {", WriteBody("", s, 1, n), "}");
    }
  }

  // ---------------------------------------------------------------------
  // Methods

  /** The items with a separator between each two. */
  function Join(items: seq<string>, sep: string): string {
    if items == [] then "" else if |items| == 1 then items[0] else items[0] + sep + Join(items[1..], sep)
  }

  /** "Type name" for each parameter from the i-th on. */
  function ParameterDecls(m: A.Method, i: nat): (r: seq<string>)
    requires MethodReady(m)
    ensures |r| == if i >= |m.parameters| then 0 else |m.parameters| - i
    decreases |m.parameters| - i
  {
    if i >= |m.parameters| then []
    else [Env.GetType(m.parameterTypeNames[i]).value.JvmName() + " " + m.parameters[i]] + ParameterDecls(m, i + 1)
  }

  lemma {:induction false} ParametersPrefix(a: string, b: string, m: A.Method, i: nat)
    requires MethodReady(m)
    ensures WriteParameters(a + b, m, i) == a + WriteParameters(b, m, i)
    decreases |m.parameters| - i
  {
    if i < |m.parameters| {
      var ty := Env.GetType(m.parameterTypeNames[i]).value.JvmName();
      Associative(a, b, ty);
      Associative(a, b + ty, " ");
      Associative(a, b + ty + " ", m.parameters[i]);
      var w := b + ty + " " + m.parameters[i];
      if i == |m.parameters| - 1 {
        ParametersPrefix(a, w, m, i + 1);
      } else {
        Associative(a, w, ", ");
        ParametersPrefix(a, w + ", ", m, i + 1);
      }
    }
  }

  /** The parameter list is the parameters' declarations separated by
      commas. */
  lemma {:induction false} ParametersJoined(m: A.Method, i: nat)
    requires MethodReady(m) && i <= |m.parameters|
    ensures WriteParameters("", m, i) == Join(ParameterDecls(m, i), ", ")
    decreases |m.parameters| - i
  {
    if i < |m.parameters| - 1 {
      ParametersJoined(m, i + 1);
      JoinedStep(m, i);
    } else if i == |m.parameters| - 1 {
      LastJoined(m, i);
    } else {
      assert ParameterDecls(m, i) == [];
    }
  }

  /** The last parameter alone. */
  lemma LastJoined(m: A.Method, i: nat)
    requires MethodReady(m) && i == |m.parameters| - 1
    ensures WriteParameters("", m, i) == Join(ParameterDecls(m, i), ", ")
  {
    ParameterStep(m, i);
    assert ParameterDecls(m, i) == [ParameterDecls(m, i)[0]];
  }

  /** One more parameter in front of a joined list. */
  lemma JoinedStep(m: A.Method, i: nat)
    requires MethodReady(m) && i < |m.parameters| - 1
    requires WriteParameters("", m, i + 1) == Join(ParameterDecls(m, i + 1), ", ")
    ensures WriteParameters("", m, i) == Join(ParameterDecls(m, i), ", ")
  {
    ParameterStep(m, i);
    var d := ParameterDecls(m, i)[0];
    var rest := ParameterDecls(m, i + 1);
    assert ParameterDecls(m, i) == [d] + rest;
    JoinCons(d, rest, ", ");
  }

  lemma JoinCons(x: string, rest: seq<string>, sep: string)
    requires rest != []
    ensures Join([x] + rest, sep) == x + sep + Join(rest, sep)
  {
    assert ([x] + rest)[1..] == rest;
  }

  /** The parameter list from the i-th parameter on is its declaration,
      then a comma and the rest unless it is the last. */
  lemma ParameterStep(m: A.Method, i: nat)
    requires MethodReady(m) && i < |m.parameters|
    ensures WriteParameters("", m, i)
      == if i == |m.parameters| - 1 then ParameterDecls(m, i)[0]
         else ParameterDecls(m, i)[0] + ", " + WriteParameters("", m, i + 1)
  {
    var d := ParameterDecls(m, i)[0];
    assert "" + Env.GetType(m.parameterTypeNames[i]).value.JvmName() + " " + m.parameters[i] == d;
    if i < |m.parameters| - 1 {
      assert WriteParameters("", m, i) == WriteParameters(d + ", ", m, i + 1);
      EmptyRight(d + ", ");
      ParametersPrefix(d + ", ", "", m, i + 1);
    } else {
      assert WriteParameters("", m, i) == WriteParameters(d, m, i + 1);
    }
  }

  lemma {:induction false} MethodLinesPrefix(a: string, b: string, m: A.Method, i: nat, n: int)
    requires MethodReady(m)
    ensures WriteMethodLines(a + b, m, i, n) == a + WriteMethodLines(b, m, i, n)
    decreases |m.statements| - i
  {
    if i < |m.statements| {
      var st := m.statements[i];
      LinePrefix(a, b, st, i, n);
      MethodLinesPrefix(a, WriteStmt(if i == 0 then b else b + Newline(n), st, n), m, i + 1, n);
    }
  }

  /** From the i-th statement on, a method's body loop writes Joined. */
  lemma {:induction false} MethodLinesFrom(m: A.Method, i: nat, n: int)
    requires MethodReady(m) && 0 < i <= |m.statements|
    ensures WriteMethodLines("", m, i, n) == Joined(m.statements[i..], n)
    decreases |m.statements| - i
  {
    var p := m.statements;
    if i < |p| {
      OnNewLine(p[i], n);
      var line := Newline(n) + WriteStmt("", p[i], n);
      EmptyRight(line);
      MethodLinesPrefix(line, "", m, i + 1, n);
      MethodLinesFrom(m, i + 1, n);
      assert p[i..][0] == p[i] && p[i..][1..] == p[i + 1..];
    }
  }

  /** A method at level n: Java return type, name, the parameter
      declarations separated by commas, then its statements laid out as a
      body is, or `{}` when it has none. */
  lemma MethodLayout(m: A.Method, n: int)
    requires MethodReady(m)
    ensures WriteMethod("", m, n) ==
      m.signature.value.returnType.JvmName() + " " + m.name + "(" + Join(ParameterDecls(m, 0), ", ") + ") {"
      + (if m.statements == [] then "" else Joined(m.statements, n + 1) + Newline(n)) + "}"
  {
    var sig := m.signature.value.returnType.JvmName() + " " + m.name + "(";
    assert "" + m.signature.value.returnType.JvmName() + " " + m.name + "(" == sig;
    EmptyRight(sig);
    ParametersPrefix(sig, "", m, 0);
    ParametersJoined(m, 0);
    var head := WriteParameters(sig, m, 0) + ") {";
    assert head == sig + Join(ParameterDecls(m, 0), ", ") + ") {";
    if m.statements != [] {
      var p := m.statements;
      var nl := Newline(n + 1);
      MethodLinesPrefix(head, nl, m, 0, n + 1);
      OnNewLine(p[0], n + 1);
      var line := nl + WriteStmt("", p[0], n + 1);
      assert WriteMethodLines(nl, m, 0, n + 1) == WriteMethodLines(line, m, 1, n + 1) by {
        assert "" + nl == nl;
      }
      EmptyRight(line);
      MethodLinesPrefix(line, "", m, 1, n + 1);
      MethodLinesFrom(m, 1, n + 1);
      assert p[1..] == p[0..][1..];
      assert WriteMethodLines(head + nl, m, 0, n + 1) == head + Joined(p, n + 1);
      Associative(head, Joined(p, n + 1), Newline(n));
    } else {
      EmptyRight(head);
    }
  }

  // ---------------------------------------------------------------------
  // Sources

  /** An empty source is a class Main holding only the Java entry point,
      each piece written after the line break before it. */
  lemma EmptySource()
    ensures WriteSource("", A.Source([], []), 0) ==
      "public class Main {" + "\n"
      + "\n    " + "public static void main(String[] args) {"
      + "\n        " + "System.exit(new Main().main());"
      + "\n    " + "}" + "\n"
      + "\n" + "}"
  {
    var src := A.Source([], []);
    assert Newline(0) == "\n";
    assert Newline(1) == "\n    ";
    assert Newline(2) == "\n        ";
    var header := "" + "public class Main {" + Newline(0);
    assert header == "public class Main {\n";
    assert WriteFieldBlock(header, src.fields, 0) == header;
    var main := WriteMainEntry(header, 0);
    assert 0 + 1 == 1 && 0 + 2 == 2;
    assert main == header + "\n    " + MainHeader + "\n        " + MainCall + "\n    " + "}" + "\n";
    assert WriteMethods(main, src.methods, 0, 1) == main;
  }

  /** A declared Integer with a value, as the analyzer annotates it. */
  lemma DeclarationExample()
    ensures WriteStmt("", A.Declaration("x", Some("Integer"), Some(A.Literal(A.Int(1))), Some(Env.Variable("x", "x", Some(Env.Integer)))), 0)
      == "int x = 1;"
  {
  }
}
