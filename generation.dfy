/** The pretty-printer from the tree to Java source text. The writer is a
    string the visitors append to, and `indent` is the level they raise
    before a body and lower after it. The `Write...` functions say what
    the writer holds after a node is printed onto it, in the order the
    visitors write; each visitor is proved to do exactly that and to leave
    the level as it found it. The generator reads the analyzer's
    annotations (a variable's Java name and type, a method's signature);
    the `...Ready` predicates say which must be present. */
module Generation {
  import opened Outcomes
  import opened Numbers
  import Env = Environment
  import A = Ast

  // ---------------------------------------------------------------------
  // Text

  /** Four spaces per level; a level of zero or less writes none. */
  function Spaces(n: int): string
    decreases n
  {
    if n <= 0 then "" else Spaces(n - 1) + "    "
  }

  /** newline(n): a line break, then the indentation of level n. */
  function Newline(n: int): string {
    "\n" + Spaces(n)
  }

  function OperatorText(op: string): string {
    if op == "AND" then "&&" else if op == "OR" then "||" else op
  }

  /** toString of a Boolean, BigInteger or BigDecimal literal (and
      String.valueOf of a string or character). */
  function ValueText(lit: A.Lit): string {
    match lit
    case Bool(b) => if b then "true" else "false"
    case Int(i) => IntToString(i)
    case Dec(d) => DecimalToString(d)
    case Char(c) => [c]
    case Str(s) => s
    case Null => "null"
  }

  /** A literal: `null` for NIL, a string between double quotes and a
      character between single quotes, neither re-escaped, and any other
      value by toString. */
  function WriteLiteral(o: string, lit: A.Lit): string {
    if lit.Null? then o + "null"
    else if lit.Str? then o + "\"" + lit.s + "\""
    else if lit.Char? then o + "'" + [lit.c] + "'"
    else o + ValueText(lit)
  }

  /** The literal visitor as written: its first test calls `equals` on the
      literal's value, and the value of a NIL literal is null, so a NIL
      literal raises a NullPointerException (None) before anything is
      printed. */
  function WriteLiteralAsWritten(o: string, lit: A.Lit): Option<string> {
    if lit.Null? then None
    else if lit.Str? then Some(o + "\"" + lit.s + "\"")
    else if lit.Char? then Some(o + "'" + [lit.c] + "'")
    else Some(o + ValueText(lit))
  }

  function WriteExpr(o: string, e: A.Expr): string
    decreases e
  {
    match e
    case Literal(lit, _) => WriteLiteral(o, lit)
    case Group(inner, _) => WriteExpr(o + "(", inner) + ")"
    case Binary(op, l, r, _) => WriteExpr(WriteExpr(o, l) + " " + OperatorText(op) + " ", r)
    case Access(_, _) => o
    case Function(_, _, _) => o
  }

  /** A variable the analyzer has resolved, with a type. */
  predicate VariableReady(v: Option<Env.Variable>) {
    v.Some? && v.value.ty.Some?
  }

  /** A field or a declaration: the Java type and name, the value if any. */
  function WriteDeclaration(o: string, v: Option<Env.Variable>, init: Option<A.Expr>): string
    requires VariableReady(v)
  {
    var named := o + v.value.ty.value.JvmName() + " " + v.value.jvmName;
    (if init.Some? then WriteExpr(named + " = ", init.value) else named) + ";"
  }

  /** Every declaration in the statement, however nested, has a resolved
      variable. */
  predicate StmtReady(s: A.Stmt)
    decreases s
  {
    match s
    case Declaration(_, _, _, v) => VariableReady(v)
    case If(_, t, e) => (forall i :: 0 <= i < |t| ==> StmtReady(t[i])) && (forall i :: 0 <= i < |e| ==> StmtReady(e[i]))
    case For(_, _, b) => forall i :: 0 <= i < |b| ==> StmtReady(b[i])
    case While(_, b) => forall i :: 0 <= i < |b| ==> StmtReady(b[i])
    case _ => true
  }

  /** The statement lists of a compound statement: part 0 is the body (the
      then-branch of an if), part 1 the else-branch. */
  function Part(s: A.Stmt, k: nat): seq<A.Stmt> {
    if s.If? then (if k == 0 then s.thenStatements else s.elseStatements)
    else if s.For? || s.While? then s.statements
    else []
  }

  /** A compound statement whose nested declarations are resolved. */
  predicate Compound(s: A.Stmt) {
    StmtReady(s) && (s.If? || s.For? || s.While?)
  }

  /** A statement printed at level n; its bodies go one level deeper. */
  function WriteStmt(o: string, s: A.Stmt, n: int): string
    requires StmtReady(s)
    decreases s, 2
  {
    match s
    case Expression(e) => WriteExpr(o, e) + ";"
    case Declaration(_, _, init, v) => WriteDeclaration(o, v, init)
    case Assignment(receiver, value) => WriteExpr(WriteExpr(o, receiver) + " = ", value) + ";"
    case If(c, _, e) =>
      var t := WriteBody(WriteExpr(o + "if (", c) + ") {", s, 0, n) + "}";
      if e == [] then t else WriteBody(t + " else {", s, 1, n) + "}"
    case For(name, value, _) => WriteBody(WriteExpr(o + "for (int " + name + " : ", value) + ") {", s, 0, n) + "}"
    case While(c, _) => WriteBody(WriteExpr(o + "while (", c) + ") {", s, 0, n) + "}"
    case Return(e) => WriteExpr(o + "return ", e) + ";"
  }

  /** What goes between the braces of a body at level n: nothing for an
      empty body, else each statement on its own line one level deeper and
      a line break back to level n. */
  function WriteBody(o: string, s: A.Stmt, k: nat, n: int): string
    requires Compound(s)
    decreases s, 1
  {
    if Part(s, k) == [] then o else WriteLines(o + Newline(n + 1), s, k, 0, n + 1) + Newline(n)
  }

  /** The statements of a part from the i-th on, at level n, with a line
      break before each but the first. */
  function WriteLines(o: string, s: A.Stmt, k: nat, i: nat, n: int): string
    requires Compound(s)
    decreases s, 0, |Part(s, k)| - i
  {
    if i >= |Part(s, k)| then o
    else WriteLines(WriteStmt(if i == 0 then o else o + Newline(n), Part(s, k)[i], n), s, k, i + 1, n)
  }

  /** A method the analyzer has resolved: a signature, a known type name
      for every parameter and resolved declarations in the body. */
  predicate MethodReady(m: A.Method) {
    && m.signature.Some?
    && |m.parameterTypeNames| >= |m.parameters|
    && (forall i :: 0 <= i < |m.parameters| ==> Env.GetType(m.parameterTypeNames[i]).Some?)
    && (forall i :: 0 <= i < |m.statements| ==> StmtReady(m.statements[i]))
  }

  /** The parameters from the i-th on: type and name, a comma after each
      but the last. */
  function WriteParameters(o: string, m: A.Method, i: nat): string
    requires MethodReady(m)
    decreases |m.parameters| - i
  {
    if i >= |m.parameters| then o
    else
      var w := o + Env.GetType(m.parameterTypeNames[i]).value.JvmName() + " " + m.parameters[i];
      WriteParameters(if i == |m.parameters| - 1 then w else w + ", ", m, i + 1)
  }

  function WriteMethodLines(o: string, m: A.Method, i: nat, n: int): string
    requires MethodReady(m)
    decreases |m.statements| - i
  {
    if i >= |m.statements| then o
    else WriteMethodLines(WriteStmt(if i == 0 then o else o + Newline(n), m.statements[i], n), m, i + 1, n)
  }

  /** A method at level n: return type, name, parameters, body. */
  function WriteMethod(o: string, m: A.Method, n: int): string
    requires MethodReady(m)
  {
    var head := WriteParameters(o + m.signature.value.returnType.JvmName() + " " + m.name + "(", m, 0) + ") {";
    WriteMethodBody(head, m, n) + "}"
  }

  /** A method's statements, one level deeper than n, and the line break
      before its closing brace; nothing for a method without any. */
  function WriteMethodBody(o: string, m: A.Method, n: int): string
    requires MethodReady(m)
  {
    if m.statements == [] then o else WriteMethodLines(o + Newline(n + 1), m, 0, n + 1) + Newline(n)
  }

  predicate FieldReady(f: A.Field) {
    VariableReady(f.variable)
  }

  function WriteField(o: string, f: A.Field): string
    requires FieldReady(f)
  {
    WriteDeclaration(o, f.variable, f.value)
  }

  predicate SourceReady(src: A.Source) {
    (forall i :: 0 <= i < |src.fields| ==> FieldReady(src.fields[i]))
    && (forall i :: 0 <= i < |src.methods| ==> MethodReady(src.methods[i]))
  }

  /** The fields from the i-th on, each on a line of level n. */
  function WriteFields(o: string, fields: seq<A.Field>, i: nat, n: int): string
    requires forall j :: 0 <= j < |fields| ==> FieldReady(fields[j])
    decreases |fields| - i
  {
    if i >= |fields| then o
    else WriteFields(WriteField(o + Newline(n), fields[i]), fields, i + 1, n)
  }

  /** The methods from the i-th on, each on a line of level n and followed
      by a line break. */
  function WriteMethods(o: string, methods: seq<A.Method>, i: nat, n: int): string
    requires forall j :: 0 <= j < |methods| ==> MethodReady(methods[j])
    decreases |methods| - i
  {
    if i >= |methods| then o
    else WriteMethods(WriteMethod(o + Newline(n), methods[i], n) + Newline(0), methods, i + 1, n)
  }

  const MainHeader := "public static void main(String[] args) {"
  const MainCall := "System.exit(new Main().main());"

  /** A Java main at level n + 1 that exits with the value the source's
      main returns. */
  function WriteMainEntry(o: string, n: int): string {
    o + Newline(n + 1) + MainHeader + Newline(n + 2) + MainCall + Newline(n + 1) + "}" + Newline(0)
  }

  /** The class Main: the fields, the Java entry point and the methods. */
  function WriteSource(o: string, src: A.Source, n: int): string
    requires SourceReady(src)
  {
    var fields := WriteFieldBlock(o + "public class Main {" + Newline(0), src.fields, n);
    WriteMethods(WriteMainEntry(fields, n), src.methods, 0, n + 1) + Newline(n) + "}"
  }

  /** WriteSource from the text after each of its parts. */
  lemma SourceText(o: string, src: A.Source, n: int, header: string, fields: string, main: string, methods: string)
    requires SourceReady(src)
    requires header == o + "public class Main {" + Newline(0)
    requires fields == WriteFieldBlock(header, src.fields, n)
    requires main == WriteMainEntry(fields, n)
    requires methods == WriteMethods(main, src.methods, 0, n + 1)
    ensures WriteSource(o, src, n) == methods + Newline(n) + "}"
  {
  }

  /** The fields of a class at level n, one level deeper and followed by a
      line break; nothing when there are none. */
  function WriteFieldBlock(o: string, fields: seq<A.Field>, n: int): string
    requires forall j :: 0 <= j < |fields| ==> FieldReady(fields[j])
  {
    if fields == [] then o else WriteFields(o, fields, 0, n + 1) + Newline(0)
  }

  // ---------------------------------------------------------------------
  // The generator

  class Generator {
    /** Everything written to the PrintWriter so far. */
    var out: string
    var indent: int

    constructor()
      ensures out == "" && indent == 0
    {
      out := "";
      indent := 0;
    }

    method Print(s: string)
      modifies this
      ensures out == old(out) + s && indent == old(indent)
    {
      out := out + s;
    }

    method PrintNewline(n: int)
      modifies this
      ensures out == old(out) + Newline(n) && indent == old(indent)
    {
      out := out + "\n";
      var i := 0;
      while i < n
        invariant 0 <= i && (n >= 0 ==> i <= n) && (n < 0 ==> i == 0)
        invariant out == old(out) + "\n" + Spaces(i) && indent == old(indent)
        decreases n - i
      {
        out := out + "    ";
        i := i + 1;
      }
      assert Spaces(i) == Spaces(n);
    }

    method VisitExpr(e: A.Expr)
      modifies this
      ensures out == WriteExpr(old(out), e) && indent == old(indent)
      decreases e
    {
      match e
      case Literal(lit, _) =>
        VisitLiteral(lit);
      case Group(inner, _) =>
        Print("(");
        VisitExpr(inner);
        Print(")");
      case Binary(op, l, r, _) =>
        VisitExpr(l);
        Print(" ");
        if op == "AND" {
          Print("&&");
        } else if op == "OR" {
          Print("||");
        } else {
          Print(op);
        }
        Print(" ");
        VisitExpr(r);
      case Access(_, _) =>
      case Function(_, _, _) =>
    }

    method VisitLiteral(lit: A.Lit)
      modifies this
      ensures out == WriteLiteral(old(out), lit) && indent == old(indent)
    {
      if lit.Null? {
        Print("null");
      } else if lit.Str? {
        Print("\"");
        Print(lit.s);
        Print("\"");
      } else if lit.Char? {
        Print("'");
        Print([lit.c]);
        Print("'");
      } else {
        Print(ValueText(lit));
      }
    }

    /** A field or a declaration. */
    method VisitDeclaration(v: Option<Env.Variable>, init: Option<A.Expr>)
      requires VariableReady(v)
      modifies this
      ensures out == WriteDeclaration(old(out), v, init) && indent == old(indent)
    {
      Print(v.value.ty.value.JvmName());
      Print(" ");
      Print(v.value.jvmName);
      if init.Some? {
        Print(" = ");
        VisitExpr(init.value);
      }
      Print(";");
    }

    method VisitStmt(s: A.Stmt)
      requires StmtReady(s)
      modifies this
      ensures out == WriteStmt(old(out), s, old(indent)) && indent == old(indent)
      decreases s, 3
    {
      match s
      case Expression(e) =>
        VisitExpr(e);
        Print(";");
      case Declaration(_, _, init, v) =>
        VisitDeclaration(v, init);
      case Assignment(receiver, value) =>
        VisitExpr(receiver);
        Print(" = ");
        VisitExpr(value);
        Print(";");
      case If(_, _, _) =>
        VisitIf(s);
      case For(_, _, _) =>
        VisitFor(s);
      case While(_, _) =>
        VisitWhile(s);
      case Return(e) =>
        Print("return ");
        VisitExpr(e);
        Print(";");
    }

    method VisitIf(s: A.Stmt)
      requires s.If? && StmtReady(s)
      modifies this
      ensures out == WriteStmt(old(out), s, old(indent)) && indent == old(indent)
      decreases s, 2
    {
      Print("if (");
      VisitExpr(s.condition);
      Print(") {");
      VisitBody(s, 0);
      Print("}");
      if s.elseStatements != [] {
        Print(" else {");
        VisitBody(s, 1);
        Print("}");
      }
    }

    method VisitFor(s: A.Stmt)
      requires s.For? && StmtReady(s)
      modifies this
      ensures out == WriteStmt(old(out), s, old(indent)) && indent == old(indent)
      decreases s, 2
    {
      Print("for (int ");
      Print(s.name);
      Print(" : ");
      VisitExpr(s.value);
      Print(") {");
      VisitBody(s, 0);
      Print("}");
    }

    method VisitWhile(s: A.Stmt)
      requires s.While? && StmtReady(s)
      modifies this
      ensures out == WriteStmt(old(out), s, old(indent)) && indent == old(indent)
      decreases s, 2
    {
      Print("while (");
      VisitExpr(s.condition);
      Print(") {");
      VisitBody(s, 0);
      Print("}");
    }

    /** The body loop the if, for and while visitors share: one level
        deeper for the statements, and back. */
    method VisitBody(s: A.Stmt, k: nat)
      requires Compound(s)
      modifies this
      ensures out == WriteBody(old(out), s, k, old(indent)) && indent == old(indent)
      decreases s, 1
    {
      var statements := Part(s, k);
      if statements != [] {
        indent := indent + 1;
        PrintNewline(indent);
        ghost var target := WriteLines(out, s, k, 0, indent);
        var i := 0;
        while i < |statements|
          invariant i <= |statements| && indent == old(indent) + 1
          invariant WriteLines(out, s, k, i, indent) == target
          decreases |statements| - i
        {
          if i != 0 {
            PrintNewline(indent);
          }
          VisitStmt(statements[i]);
          i := i + 1;
        }
        indent := indent - 1;
        PrintNewline(indent);
      }
    }

    method VisitMethod(m: A.Method)
      requires MethodReady(m)
      modifies this
      ensures out == WriteMethod(old(out), m, old(indent)) && indent == old(indent)
    {
      Print(m.signature.value.returnType.JvmName());
      Print(" ");
      Print(m.name);
      Print("(");
      VisitParameters(m);
      Print(") {");
      VisitMethodBody(m);
      Print("}");
    }

    /** The parameter loop of the method visitor. */
    method VisitParameters(m: A.Method)
      requires MethodReady(m)
      modifies this
      ensures out == WriteParameters(old(out), m, 0) && indent == old(indent)
    {
      ghost var parameters := WriteParameters(out, m, 0);
      var p := 0;
      while p < |m.parameters|
        invariant p <= |m.parameters| && indent == old(indent)
        invariant WriteParameters(out, m, p) == parameters
        decreases |m.parameters| - p
      {
        Print(Env.GetType(m.parameterTypeNames[p]).value.JvmName());
        Print(" ");
        Print(m.parameters[p]);
        if p != |m.parameters| - 1 {
          Print(", ");
        }
        p := p + 1;
      }
    }

    /** The statements of a method, one level deeper, and the line break
        before its closing brace. */
    method VisitMethodBody(m: A.Method)
      requires MethodReady(m)
      modifies this
      ensures out == WriteMethodBody(old(out), m, old(indent)) && indent == old(indent)
    {
      if m.statements == [] {
        return;
      }
      indent := indent + 1;
      PrintNewline(indent);
      ghost var target := WriteMethodLines(out, m, 0, indent);
      var i := 0;
      while i < |m.statements|
        invariant i <= |m.statements| && indent == old(indent) + 1
        invariant WriteMethodLines(out, m, i, indent) == target
        decreases |m.statements| - i
      {
        if i != 0 {
          PrintNewline(indent);
        }
        VisitStmt(m.statements[i]);
        i := i + 1;
      }
      indent := indent - 1;
      PrintNewline(indent);
    }

    method VisitField(f: A.Field)
      requires FieldReady(f)
      modifies this
      ensures out == WriteField(old(out), f) && indent == old(indent)
    {
      VisitDeclaration(f.variable, f.value);
    }

    method VisitSource(src: A.Source)
      requires SourceReady(src)
      modifies this
      ensures out == WriteSource(old(out), src, old(indent)) && indent == old(indent)
    {
      Print("public class Main {");
      PrintNewline(0);
      ghost var header := out;
      VisitFieldBlock(src.fields);
      ghost var fields := out;
      PrintMainEntry();
      ghost var main := out;
      VisitMethodBlock(src.methods);
      SourceText(old(out), src, indent, header, fields, main, out);
      PrintNewline(indent);
      Print("}");
    }

    /** The methods of the class, one level deeper. */
    method VisitMethodBlock(methods: seq<A.Method>)
      requires forall j :: 0 <= j < |methods| ==> MethodReady(methods[j])
      modifies this
      ensures out == WriteMethods(old(out), methods, 0, old(indent) + 1) && indent == old(indent)
    {
      indent := indent + 1;
      VisitMethods(methods);
      indent := indent - 1;
    }

    /** The Java entry point the source visitor writes, one level deeper
        than the class. */
    method PrintMainEntry()
      modifies this
      ensures out == WriteMainEntry(old(out), old(indent)) && indent == old(indent)
    {
      indent := indent + 1;
      PrintNewline(indent);
      Print(MainHeader);
      indent := indent + 1;
      PrintNewline(indent);
      Print(MainCall);
      indent := indent - 1;
      PrintNewline(indent);
      Print("}");
      PrintNewline(0);
      indent := indent - 1;
    }

    /** The fields of the class, one level deeper, and a line break after
        them when there are some. */
    method VisitFieldBlock(fields: seq<A.Field>)
      requires forall j :: 0 <= j < |fields| ==> FieldReady(fields[j])
      modifies this
      ensures out == WriteFieldBlock(old(out), fields, old(indent)) && indent == old(indent)
    {
      if fields != [] {
        indent := indent + 1;
        VisitFields(fields);
        PrintNewline(0);
        indent := indent - 1;
      }
    }

    /** The field loop of the source visitor. */
    method VisitFields(fields: seq<A.Field>)
      requires forall j :: 0 <= j < |fields| ==> FieldReady(fields[j])
      modifies this
      ensures out == WriteFields(old(out), fields, 0, old(indent)) && indent == old(indent)
    {
      var i := 0;
      while i < |fields|
        invariant i <= |fields| && indent == old(indent)
        invariant WriteFields(out, fields, i, indent) == WriteFields(old(out), fields, 0, indent)
        decreases |fields| - i
      {
        PrintNewline(indent);
        VisitField(fields[i]);
        i := i + 1;
      }
    }

    /** The method loop of the source visitor. */
    method VisitMethods(methods: seq<A.Method>)
      requires forall j :: 0 <= j < |methods| ==> MethodReady(methods[j])
      modifies this
      ensures out == WriteMethods(old(out), methods, 0, old(indent)) && indent == old(indent)
    {
      var j := 0;
      while j < |methods|
        invariant j <= |methods| && indent == old(indent)
        invariant WriteMethods(out, methods, j, indent) == WriteMethods(old(out), methods, 0, indent)
        decreases |methods| - j
      {
        PrintNewline(indent);
        VisitMethod(methods[j]);
        PrintNewline(0);
        j := j + 1;
      }
    }
  }
}
