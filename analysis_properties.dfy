/** What the analyzer's typing rules amount to, stated by types rather
    than by the JVM names the source switches on, and what declarations
    and while statements do to the scope chain. */
module AnalysisProperties {
  import opened Outcomes
  import Env = Environment
  import A = Ast
  import opened Analysis

  // ---------------------------------------------------------------------
  // Literals

  /** An integer literal is an Integer exactly when it fits in 32 bits. */
  lemma IntegerLiteralRange(i: int)
    ensures LiteralType(A.Int(i)).Ok? <==> -2147483648 <= i <= 2147483647
    ensures LiteralType(A.Int(i)).Ok? ==> LiteralType(A.Int(i)).value == Env.Integer
  {
  }

  // ---------------------------------------------------------------------
  // Binary operators, by type

  /** AND and OR are Boolean over two Booleans and fail on anything else. */
  lemma LogicalTyping(op: string, l: Option<Env.Type>, r: Option<Env.Type>)
    requires op == "AND" || op == "OR"
    ensures BinaryType(op, l, r).Ok? <==> l == Some(Env.Boolean) && r == Some(Env.Boolean)
    ensures BinaryType(op, l, r).Ok? ==> BinaryType(op, l, r).value == Some(Env.Boolean)
  {
  }

  /** The five types whose values the comparison operators accept. */
  predicate Ordered(t: Env.Type) {
    t == Env.Integer || t == Env.Character || t == Env.String || t == Env.Decimal || t == Env.Comparable
  }

  /** The JVM names the comparison switch lists are those of exactly the
      ordered types. */
  lemma ComparableJvmOrdered(t: Env.Type)
    ensures ComparableJvm(t) <==> Ordered(t)
  {
    match t
    case Any => assert t.JvmName() == "Object";
    case Nil => assert t.JvmName() == "Void";
    case Boolean => assert t.JvmName() == "boolean";
    case IntegerIterable => assert t.JvmName() == "Iterable<Integer>";
    case _ =>
  }

  /** A comparison is Boolean when both sides have one ordered type, and
      fails otherwise. */
  lemma ComparisonTyping(op: string, l: Option<Env.Type>, r: Option<Env.Type>)
    requires op in {"<", "<=", ">", ">=", "==", "!="}
    ensures BinaryType(op, l, r).Ok? <==> l.Some? && Ordered(l.value) && l == r
    ensures BinaryType(op, l, r).Ok? ==> BinaryType(op, l, r).value == Some(Env.Boolean)
  {
    if l.Some? {
      ComparableJvmOrdered(l.value);
    }
  }

  /** `-`, `*` and `/` keep the type of two Integers or two Decimals and
      fail on every other pair. */
  lemma ArithmeticTyping(op: string, l: Option<Env.Type>, r: Option<Env.Type>)
    requires op in {"-", "*", "/"}
    ensures BinaryType(op, l, r).Ok? <==> l == r && (l == Some(Env.Integer) || l == Some(Env.Decimal))
    ensures BinaryType(op, l, r).Ok? ==> BinaryType(op, l, r).value == l
  {
    if l.Some? {
      var t := l.value;
      match t
      case Integer =>
      case Decimal =>
      case Any => assert t.JvmName() == "Object";
      case Nil => assert t.JvmName() == "Void";
      case Comparable => assert t.JvmName() == "Comparable";
      case Boolean => assert t.JvmName() == "boolean";
      case Character => assert t.JvmName() == "char";
      case String => assert t.JvmName() == "String";
      case IntegerIterable => assert t.JvmName() == "Iterable<Integer>";
    }
  }

  /** `+` is a String when either side is one; otherwise it keeps the type
      of two Integers or two Decimals, and fails on every other pair. */
  lemma PlusTyping(l: Option<Env.Type>, r: Option<Env.Type>)
    ensures l == Some(Env.String) || r == Some(Env.String) ==> BinaryType("+", l, r) == Ok(Some(Env.String))
    ensures l != Some(Env.String) && r != Some(Env.String) ==>
      (BinaryType("+", l, r).Ok? <==> l == r && (l == Some(Env.Integer) || l == Some(Env.Decimal)))
    ensures BinaryType("+", l, r).Ok? && l != Some(Env.String) && r != Some(Env.String) ==> BinaryType("+", l, r).value == l
  {
  }

  /** The operators the parser builds. */
  predicate Known(op: string) {
    op in {"AND", "OR", "<", "<=", ">", ">=", "==", "!=", "+", "-", "*", "/"}
  }

  /** Every operator the parser builds is given a type or fails; anything
      else is left untyped. */
  lemma KnownOperatorsTyped(op: string, l: Option<Env.Type>, r: Option<Env.Type>)
    ensures BinaryType(op, l, r).Ok? && Known(op) ==> BinaryType(op, l, r).value.Some?
    ensures !Known(op) ==> BinaryType(op, l, r) == Ok(None)
  {
  }

  // ---------------------------------------------------------------------
  // Expressions

  /** The tree with every annotation cleared. */
  function Erase(e: A.Expr): A.Expr
    decreases e
  {
    match e
    case Literal(lit, _) => A.Literal(lit)
    case Group(inner, _) => A.Group(Erase(inner))
    case Binary(op, l, r, _) => A.Binary(op, Erase(l), Erase(r))
    case _ => e
  }

  /** Every literal and every binary node carries a type. */
  predicate Typed(e: A.Expr)
    decreases e
  {
    match e
    case Literal(_, t) => t.Some?
    case Binary(_, l, r, t) => t.Some? && Typed(l) && Typed(r)
    case _ => false
  }

  /** Only literals and operators the parser builds. */
  predicate KnownTree(e: A.Expr)
    decreases e
  {
    match e
    case Literal(_, _) => true
    case Binary(op, l, r, _) => Known(op) && KnownTree(l) && KnownTree(r)
    case _ => false
  }

  /** Typing changes only the annotations, and it annotates every node of
      a tree it accepts; each binary node gets the type its operator gives
      its operands' types. */
  lemma {:induction false} AnalyzeAnnotates(e: A.Expr)
    ensures AnalyzeExpr(e).Ok? ==> Erase(AnalyzeExpr(e).value) == Erase(e)
    ensures AnalyzeExpr(e).Ok? && KnownTree(e) ==> Typed(AnalyzeExpr(e).value)
    ensures AnalyzeExpr(e).Ok? && KnownTree(e) && e.Binary? ==>
      var t := AnalyzeExpr(e).value;
      BinaryType(e.operator, TypeOf(t.left), TypeOf(t.right)) == Ok(TypeOf(t))
    decreases e
  {
    match e
    case Literal(_, _) =>
    case Binary(op, l, r, _) =>
      AnalyzeAnnotates(l);
      AnalyzeAnnotates(r);
      if AnalyzeExpr(e).Ok? && KnownTree(e) {
        KnownOperatorsTyped(op, TypeOf(AnalyzeExpr(l).value), TypeOf(AnalyzeExpr(r).value));
      }
    case _ =>
  }

  // ---------------------------------------------------------------------
  // Declarations

  /** A declaration with neither a type name nor a value fails. */
  lemma DeclarationNeedsTypeOrValue(frames: seq<Frame>, name: string, require: Requirement)
    requires frames != []
    ensures Declare(frames, A.Declaration(name, None, None), require) == Err(Runtime)
  {
  }

  /** A declaration that succeeds binds its name, in the current frame, to
      the variable it records, with the declared type or else the type of
      its value; every other name resolves as before. */
  lemma DeclarationBinds(frames: seq<Frame>, s: A.Stmt, require: Requirement, other: string)
    requires frames != [] && s.Declaration?
    ensures var r := Declare(frames, s, require);
      r.Ok? ==>
        var (t, after) := r.value;
        t.variable.Some? && t.variable.value.name == s.name
        && Lookup(after, s.name) == t.variable
        && s.name !in frames[|frames| - 1].variables
        && (s.typeName.Some? ==> t.variable.value.ty == Env.GetType(s.typeName.value))
        && (s.typeName.None? ==> t.initializer.Some? && t.variable.value.ty == TypeOf(t.initializer.value))
    ensures var r := Declare(frames, s, require);
      r.Ok? && other != s.name ==> Lookup(r.value.1, other) == Lookup(frames, other)
  {
    var r := Declare(frames, s, require);
    if r.Ok? {
      var (t, after) := r.value;
      var n := |frames|;
      assert after[..n - 1] == frames[..n - 1];
      assert after[..n][..n - 1] == after[..n - 1];
    }
  }

  /** With requireAssignable the stub it is, no declaration with a value
      succeeds. */
  lemma StubRejectsInitializers(frames: seq<Frame>, s: A.Stmt)
    requires frames != [] && s.Declaration? && s.initializer.Some?
    ensures Declare(frames, s, Stub).Err?
  {
  }

  // ---------------------------------------------------------------------
  // While

  /** A while that succeeds leaves the scope chain as it found it, so
      nothing its body declares is visible after it. */
  lemma WhileRestoresScope(frames: seq<Frame>, s: A.Stmt, require: Requirement, name: string)
    requires frames != [] && s.While?
    ensures Check(frames, s, require).Ok? ==> Check(frames, s, require).value.1 == frames
    ensures Check(frames, s, require).Ok? ==> Lookup(Check(frames, s, require).value.1, name) == Lookup(frames, name)
  {
  }

  /** With requireAssignable the stub it is, no while succeeds. */
  lemma StubRejectsWhile(frames: seq<Frame>, s: A.Stmt)
    requires frames != [] && s.While?
    ensures Check(frames, s, Stub).Err?
  {
  }

  /** The body of a while succeeds only if each statement does, in order,
      each in the frames the one before it left. */
  lemma {:induction false} BodyChecksEach(frames: seq<Frame>, s: A.Stmt, i: nat, done: seq<A.Stmt>, require: Requirement)
    requires frames != [] && s.While? && i <= |s.statements|
    ensures var r := CheckBody(frames, s, i, done, require);
      r.Ok? ==> |r.value.0| == |done| + |s.statements| - i && r.value.0[..|done|] == done
    decreases |s.statements| - i
  {
    if i < |s.statements| {
      var c := Check(frames, s.statements[i], require);
      if c.Ok? {
        var (t, after) := c.value;
        BodyChecksEach(after, s, i + 1, done + [t], require);
        var r := CheckBody(after, s, i + 1, done + [t], require);
        if r.Ok? {
          assert r.value.0[..|done|] == r.value.0[..|done| + 1][..|done|];
        }
      }
    }
  }
}
