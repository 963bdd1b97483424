/** The static checker: the Analyzer's literal and binary-operator typing,
    declarations and while statements. Typing writes the resolved type into
    the node (`setType`), which the model does by returning the annotated
    node; the scope chain is a field of the Analyzer class that the
    statement visitors push and pop. */
module Analysis {
  import opened Outcomes
  import Env = Environment
  import A = Ast
  import Numbers

  /** What a check can fail with: the RuntimeException of a failed check
      (or of `Environment.getType` for an unknown type name, or of
      `defineVariable` for a name the current frame already binds), the
      UnsupportedOperationException of a visitor left as a TODO, and the
      NullPointerException of a type that was never set. */
  datatype AnalysisError = Runtime | Unsupported | NullPointer

  // ---------------------------------------------------------------------
  // Literals

  const IntMin: int := -2147483648
  const IntMax: int := 2147483647

  function Pow2(n: nat): (r: nat)
    ensures r >= 1
  {
    if n == 0 then 1 else 2 * Pow2(n - 1)
  }

  lemma {:induction false} Pow2Add(a: nat, b: nat)
    ensures Pow2(a + b) == Pow2(a) * Pow2(b)
  {
    if b > 0 {
      Pow2Add(a, b - 1);
      assert Pow2(a + b) == 2 * Pow2(a + b - 1) && Pow2(b) == 2 * Pow2(b - 1);
    }
  }

  /** For any significand width k and exponent e, (2^(k+1) - 1) * 2^e lies
      halfway between the largest k-bit significand at exponent e + 1 and
      2^(k+1+e). With k = 53 and e = 970 this places DoubleLimit halfway
      between Double.MAX_VALUE and 2^1024. */
  lemma Halfway(k: nat, e: nat)
    ensures 2 * ((Pow2(k + 1) - 1) * Pow2(e)) == (Pow2(k) - 1) * Pow2(e + 1) + Pow2(k + 1 + e)
  {
    Pow2Add(k + 1, e);
    assert Pow2(k + 1) == 2 * Pow2(k) && Pow2(e + 1) == 2 * Pow2(e);
    Midpoint(Pow2(k), Pow2(e), Pow2(k + 1), Pow2(e + 1), Pow2(k + 1 + e));
  }

  /** The algebra of Halfway, over plain numbers. */
  lemma Midpoint(p: nat, q: nat, p2: nat, q2: nat, pq: nat)
    requires p >= 1 && p2 == 2 * p && q2 == 2 * q && pq == p2 * q
    ensures 2 * ((p2 - 1) * q) == (p - 1) * q2 + pq
  {
    assert (p2 - 1) * q == p2 * q - q;
    assert (p - 1) * q2 == 2 * (p * q) - 2 * q;
  }

  /** The least magnitude `BigDecimal.doubleValue` rounds to an infinity:
      the point halfway between Double.MAX_VALUE, (2^53 - 1) * 2^971, and
      2^1024, i.e. (2^54 - 1) * 2^970; round-to-nearest-even sends the
      halfway point itself up, since MAX_VALUE has an odd significand. */
  const DoubleLimit: nat := (Pow2(54) - 1) * Pow2(970)

  predicate RoundsToInfinity(d: Numbers.Decimal) {
    Numbers.Abs(d.unscaled) >= DoubleLimit * Numbers.Pow10(d.scale)
  }

  /** visit(Literal): the type of each kind of literal; an integer outside
      the 32-bit range, and a decimal whose double value is infinite, fail. */
  function LiteralType(lit: A.Lit): (r: Result<Env.Type, AnalysisError>)
    ensures r.Ok? ==> r.value in {Env.Nil, Env.Boolean, Env.Character, Env.String, Env.Integer, Env.Decimal}
    ensures r.Err? ==> r.error == Runtime
  {
    match lit
    case Null => Ok(Env.Nil)
    case Bool(_) => Ok(Env.Boolean)
    case Char(_) => Ok(Env.Character)
    case Str(_) => Ok(Env.String)
    case Int(i) => if i > IntMax || i < IntMin then Err(Runtime) else Ok(Env.Integer)
    case Dec(d) => if RoundsToInfinity(d) then Err(Runtime) else Ok(Env.Decimal)
  }

  // ---------------------------------------------------------------------
  // Binary operators

  /** The operand types the comparison operators accept on the left, by the
      JVM names the source switches on. */
  predicate ComparableJvm(t: Env.Type) {
    t.JvmName() in {"int", "char", "String", "double", "Comparable"}
  }

  /** visit(Binary) once both operands are visited: the type it sets, or
      none for an operator the switch does not list. An operand whose type
      was never set is a null reference: its `getJvmName` fails, and it
      equals no type. */
  function BinaryType(op: string, l: Option<Env.Type>, r: Option<Env.Type>): Result<Option<Env.Type>, AnalysisError> {
    if op == "AND" || op == "OR" then
      if l == Some(Env.Boolean) && r == Some(Env.Boolean) then Ok(Some(Env.Boolean)) else Err(Runtime)
    else if op in {">", ">=", "<", "<=", "==", "!="} then
      if l.None? then Err(NullPointer)
      else if !ComparableJvm(l.value) then Err(Runtime)
      else if l == r then Ok(Some(Env.Boolean))
      else Err(Runtime)
    else if op in {"-", "*", "/"} then
      if l != r then Err(Runtime)
      else if l.None? then Err(NullPointer)
      else if l.value.JvmName() == "int" then Ok(Some(Env.Integer))
      else if l.value.JvmName() == "double" then Ok(Some(Env.Decimal))
      else Err(Runtime)
    else if op == "+" then
      if l == Some(Env.String) || r == Some(Env.String) then Ok(Some(Env.String))
      else if l == Some(Env.Integer) || l == Some(Env.Decimal) then
        if l == r then Ok(l) else Err(Runtime)
      else Err(Runtime)
    else Ok(None)
  }

  /** The type the analyzer has written into a node. */
  function TypeOf(e: A.Expr): Option<Env.Type> {
    match e
    case Literal(_, t) => t
    case Group(_, t) => t
    case Binary(_, _, _, t) => t
    case _ => None
  }

  /** visit(Expr): literals and binary operators are typed, their operands
      first, left before right; Group, Access and Function are TODO
      visitors. */
  function AnalyzeExpr(e: A.Expr): (r: Result<A.Expr, AnalysisError>)
    decreases e
  {
    match e
    case Literal(lit, _) =>
      var t :- LiteralType(lit);
      Ok(A.Literal(lit, Some(t)))
    case Binary(op, left, right, ty) =>
      var l :- AnalyzeExpr(left);
      var r :- AnalyzeExpr(right);
      var t :- BinaryType(op, TypeOf(l), TypeOf(r));
      Ok(A.Binary(op, l, r, if t.Some? then t else ty))
    case _ => Err(Unsupported)
  }

  // ---------------------------------------------------------------------
  // The scope chain

  /** One Scope: its variables and its functions, keyed by name and
      arity. */
  datatype Frame = Frame(variables: map<string, Env.Variable>, functions: map<(string, nat), Env.FunctionSig>)

  /** lookupVariable: the innermost frame (the last) that binds the name. */
  function Lookup(frames: seq<Frame>, name: string): Option<Env.Variable>
    decreases |frames|
  {
    if frames == [] then None
    else if name in frames[|frames| - 1].variables then Some(frames[|frames| - 1].variables[name])
    else Lookup(frames[..|frames| - 1], name)
  }

  /** defineVariable in the current frame; a name that frame already binds
      is refused. */
  function Define(frames: seq<Frame>, v: Env.Variable): Result<seq<Frame>, AnalysisError>
    requires frames != []
  {
    var top := frames[|frames| - 1];
    if v.name in top.variables then Err(Runtime)
    else Ok(frames[..|frames| - 1] + [top.(variables := top.variables[v.name := v])])
  }

  /** `requireAssignable(target, type)`: None when the check passes, the
      exception otherwise. Either argument is a type reference that may be
      null. */
  type Requirement = (Option<Env.Type>, Option<Env.Type>) -> Option<AnalysisError>

  /** requireAssignable as the source has it: a stub that always throws. */
  function Stub(target: Option<Env.Type>, t: Option<Env.Type>): Option<AnalysisError> {
    Some(Unsupported)
  }

  // ---------------------------------------------------------------------
  // Statements

  /** visit(Declaration) in `frames`: the annotated statement and the
      frames with the variable bound in the current one. */
  function Declare(frames: seq<Frame>, s: A.Stmt, require: Requirement): (r: Result<(A.Stmt, seq<Frame>), AnalysisError>)
    requires frames != [] && s.Declaration?
    ensures r.Ok? ==> |r.value.1| == |frames| && r.value.1[..|frames| - 1] == frames[..|frames| - 1]
  {
    if s.typeName.None? && s.initializer.None? then Err(Runtime)
    else
      var declared :-
        if s.typeName.Some? then
          match Env.GetType(s.typeName.value)
          case Some(t) => Ok(Some(t))
          case None => Err(Runtime)
        else Ok(None);
      var (value, ty) :-
        if s.initializer.Some? then
          var e :- AnalyzeExpr(s.initializer.value);
          var ty := if declared.None? then TypeOf(e) else declared;
          var failure := require(ty, TypeOf(e));
          if failure.Some? then Err(failure.value) else Ok((Some(e), ty))
        else Ok((None, declared));
      var v := Env.Variable(s.name, s.name, ty);
      var after :- Define(frames, v);
      Ok((A.Declaration(s.name, s.typeName, value, Some(v)), after))
  }

  /** visit(Stmt) for the visitors the source implements, in `frames`. */
  function Check(frames: seq<Frame>, s: A.Stmt, require: Requirement): (r: Result<(A.Stmt, seq<Frame>), AnalysisError>)
    requires frames != []
    ensures r.Ok? ==> |r.value.1| == |frames| && r.value.1[..|frames| - 1] == frames[..|frames| - 1]
    decreases s, 1
  {
    match s
    case Declaration(_, _, _, _) => Declare(frames, s, require)
    case While(condition, body) =>
      var c :- AnalyzeExpr(condition);
      var failure := require(Some(Env.Boolean), TypeOf(c));
      if failure.Some? then Err(failure.value)
      else
        var (checked, _) :- CheckBody(frames + [Frame(map[], map[])], s, 0, [], require);
        Ok((A.While(c, checked), frames))
    case _ => Err(Unsupported)
  }

  /** The body loop of a while from its i-th statement, in the while's own
      frame. */
  function CheckBody(frames: seq<Frame>, s: A.Stmt, i: nat, done: seq<A.Stmt>, require: Requirement): (r: Result<(seq<A.Stmt>, seq<Frame>), AnalysisError>)
    requires frames != [] && s.While? && i <= |s.statements|
    ensures r.Ok? ==> |r.value.1| == |frames| && r.value.1[..|frames| - 1] == frames[..|frames| - 1]
    decreases s, 0, |s.statements| - i
  {
    if i == |s.statements| then Ok((done, frames))
    else
      var (t, after) :- Check(frames, s.statements[i], require);
      CheckBody(after, s, i + 1, done + [t], require)
  }

  // ---------------------------------------------------------------------
  // The Analyzer

  class Analyzer {
    /** The scope chain, outermost frame first; the current frame is the
        last. */
    var scope: seq<Frame>
    const require: Requirement

    /** `new Analyzer(parent)`: a frame of its own under the parent chain,
        binding the `print` function. */
    constructor(parent: seq<Frame>, require: Requirement)
      ensures scope == parent + [Frame(map[], map[("print", 1) := PrintSig])]
      ensures this.require == require
    {
      scope := parent + [Frame(map[], map[("print", 1) := PrintSig])];
      this.require := require;
    }

    /** visit(Stmt): the annotated statement. On success the scope is the
        one the check says; on failure it is as it was. */
    method Visit(s: A.Stmt) returns (r: Result<A.Stmt, AnalysisError>)
      requires scope != []
      modifies this
      ensures r.Ok? == Check(old(scope), s, require).Ok?
      ensures r.Ok? ==> (r.value, scope) == Check(old(scope), s, require).value
      ensures r.Err? ==> r.error == Check(old(scope), s, require).error && scope == old(scope)
      decreases s, 2
    {
      match s
      case Declaration(_, _, _, _) =>
        r := VisitDeclaration(s);
      case While(_, _) =>
        r := VisitWhile(s);
      case _ =>
        r := Err(Unsupported);
    }

    method VisitDeclaration(s: A.Stmt) returns (r: Result<A.Stmt, AnalysisError>)
      requires scope != [] && s.Declaration?
      modifies this
      ensures r.Ok? == Declare(old(scope), s, require).Ok?
      ensures r.Ok? ==> (r.value, scope) == Declare(old(scope), s, require).value
      ensures r.Err? ==> r.error == Declare(old(scope), s, require).error && scope == old(scope)
    {
      if s.typeName.None? && s.initializer.None? {
        return Err(Runtime);
      }
      var ty: Option<Env.Type> := None;
      if s.typeName.Some? {
        var t := Env.GetType(s.typeName.value);
        if t.None? {
          return Err(Runtime);
        }
        ty := t;
      }
      var value: Option<A.Expr> := None;
      if s.initializer.Some? {
        var e :- AnalyzeExpr(s.initializer.value);
        if ty.None? {
          ty := TypeOf(e);
        }
        var failure := require(ty, TypeOf(e));
        if failure.Some? {
          return Err(failure.value);
        }
        value := Some(e);
      }
      var v := Env.Variable(s.name, s.name, ty);
      var top := scope[|scope| - 1];
      if v.name in top.variables {
        return Err(Runtime);
      }
      scope := scope[..|scope| - 1] + [top.(variables := top.variables[v.name := v])];
      return Ok(A.Declaration(s.name, s.typeName, value, Some(v)));
    }

    /** visit(While): the condition, then the body in a new frame that is
        popped whether the body succeeds or not. */
    method VisitWhile(s: A.Stmt) returns (r: Result<A.Stmt, AnalysisError>)
      requires scope != [] && s.While?
      modifies this
      ensures r.Ok? == Check(old(scope), s, require).Ok?
      ensures r.Ok? ==> (r.value, scope) == Check(old(scope), s, require).value
      ensures r.Err? ==> r.error == Check(old(scope), s, require).error
      ensures scope == old(scope)
      decreases s, 1
    {
      var c :- AnalyzeExpr(s.condition);
      var failure := require(Some(Env.Boolean), TypeOf(c));
      if failure.Some? {
        return Err(failure.value);
      }
      ghost var outer := scope;
      scope := scope + [Frame(map[], map[])];
      ghost var target := CheckBody(scope, s, 0, [], require);
      var checked: seq<A.Stmt> := [];
      var i := 0;
      while i < |s.statements|
        invariant 0 <= i <= |s.statements|
        invariant |scope| == |outer| + 1 && scope[..|outer|] == outer
        invariant CheckBody(scope, s, i, checked, require) == target
        decreases |s.statements| - i
      {
        var t := Visit(s.statements[i]);
        if t.Err? {
          scope := scope[..|scope| - 1];
          return Err(t.error);
        }
        checked := checked + [t.value];
        i := i + 1;
      }
      scope := scope[..|scope| - 1];
      return Ok(A.While(c, checked));
    }
  }

  /** The signature of the built-in `print`: one argument of any type, Nil
      result, written as System.out.println. */
  const PrintSig: Env.FunctionSig := Env.FunctionSig("print", "System.out.println", [Env.Any], Env.Nil)
}
