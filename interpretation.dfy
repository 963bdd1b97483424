/** The tree-walking evaluator. Runtime values are the objects a PlcObject
    wraps; the runtime scope chain is a sequence of frames, innermost last;
    the `Return` exception becomes a `Returned` signal and every try/finally
    that pops a frame is written out. Java's `while` need not terminate, so
    here each while loop may run at most `fuel` iterations and fails with
    `OutOfFuel` when it would run more. */
module Interpretation {
  import opened Outcomes
  import opened Numbers
  import A = Ast

  /** A runtime value. An iterable holds the values it produces. */
  datatype Value =
    | Nil
    | Bool(b: bool)
    | Char(c: char)
    | Str(s: string)
    | Int(i: int)
    | Dec(d: Decimal)
    | Iterable(items: seq<Value>)

  /** The Java class of a value: what `requireType` and the comparison
      operators' `getClass` tests look at. */
  datatype Kind = NilKind | BooleanKind | CharacterKind | StringKind | IntegerKind | DecimalKind | IterableKind

  function KindOf(v: Value): Kind {
    match v
    case Nil => NilKind
    case Bool(_) => BooleanKind
    case Char(_) => CharacterKind
    case Str(_) => StringKind
    case Int(_) => IntegerKind
    case Dec(_) => DecimalKind
    case Iterable(_) => IterableKind
  }

  /** The kinds whose Java classes implement Comparable. */
  const ComparableKinds: set<Kind> := {BooleanKind, CharacterKind, StringKind, IntegerKind, DecimalKind}

  /** Runtime: a RuntimeException raised by the interpreter, a cast or the
      library; Unsupported: a visitor that is still a stub; OutOfFuel: a
      while loop wanted more iterations than the model allows. */
  datatype RuntimeError = Runtime | Unsupported | OutOfFuel

  /** What a function binding can be: the built-in `print`, or a method of
      the source, whose body runs when it is invoked. */
  datatype Callable = Print | Closure(definition: A.Method)

  /** One runtime Scope: its variables and its functions by (name, arity). */
  datatype RFrame = RFrame(variables: map<string, Value>, functions: map<(string, nat), Callable>)

  /** How a statement ends when it does not fail: normally, or by `return`. */
  datatype Signal = Normal | Returned(value: Value)

  /** A statement's outcome and the scope chain it leaves behind. */
  datatype Run = Run(outcome: Result<Signal, RuntimeError>, frames: seq<RFrame>)

  /** A call's (or a declaration's) outcome and the scope chain after it. */
  datatype Call = Call(outcome: Result<Value, RuntimeError>, frames: seq<RFrame>)

  // ---------------------------------------------------------------------
  // Scope

  /** lookupVariable: the innermost frame that binds the name wins. */
  function Lookup(frames: seq<RFrame>, name: string): Option<Value>
    decreases |frames|
  {
    if frames == [] then None
    else if name in frames[|frames| - 1].variables then Some(frames[|frames| - 1].variables[name])
    else Lookup(frames[..|frames| - 1], name)
  }

  /** lookupFunction, by name and arity, innermost first. */
  function LookupFunction(frames: seq<RFrame>, name: string, arity: nat): Option<Callable>
    decreases |frames|
  {
    if frames == [] then None
    else if (name, arity) in frames[|frames| - 1].functions then Some(frames[|frames| - 1].functions[(name, arity)])
    else LookupFunction(frames[..|frames| - 1], name, arity)
  }

  /** defineVariable: binds the name in the innermost frame, and fails if
      that frame already binds it. The other frames are untouched. */
  function Define(frames: seq<RFrame>, name: string, v: Value): (r: Result<seq<RFrame>, RuntimeError>)
    requires frames != []
    ensures r.Ok? <==> name !in frames[|frames| - 1].variables
    ensures r.Err? ==> r.error == Runtime
    ensures r.Ok? ==> |r.value| == |frames| && r.value[..|frames| - 1] == frames[..|frames| - 1]
    ensures r.Ok? ==> r.value[|frames| - 1].functions == frames[|frames| - 1].functions
    ensures r.Ok? ==> r.value[|frames| - 1].variables == frames[|frames| - 1].variables[name := v]
  {
    var top := frames[|frames| - 1];
    if name in top.variables then Err(Runtime)
    else Ok(frames[..|frames| - 1] + [top.(variables := top.variables[name := v])])
  }

  /** defineFunction: binds (name, arity) in the innermost frame, and fails
      if that frame already binds it. */
  function DefineFunction(frames: seq<RFrame>, name: string, arity: nat, f: Callable): (r: Result<seq<RFrame>, RuntimeError>)
    requires frames != []
    ensures r.Ok? <==> (name, arity) !in frames[|frames| - 1].functions
    ensures r.Ok? ==> |r.value| == |frames| && r.value[..|frames| - 1] == frames[..|frames| - 1]
    ensures r.Ok? ==> r.value[|frames| - 1].variables == frames[|frames| - 1].variables
    ensures r.Ok? ==> r.value[|frames| - 1].functions == frames[|frames| - 1].functions[(name, arity) := f]
  {
    var top := frames[|frames| - 1];
    if (name, arity) in top.functions then Err(Runtime)
    else Ok(frames[..|frames| - 1] + [top.(functions := top.functions[(name, arity) := f])])
  }

  // ---------------------------------------------------------------------
  // Expressions

  /** Environment.create of a literal's value; a null literal is NIL. */
  function LitValue(lit: A.Lit): Value {
    match lit
    case Null => Nil
    case Bool(b) => Bool(b)
    case Char(c) => Char(c)
    case Str(s) => Str(s)
    case Int(i) => Int(i)
    case Dec(d) => Dec(d)
  }

  /** The operators the interpreter's switch has a case for. */
  const Operators: set<string> := {"AND", "OR", "<", ">=", "==", "+", "/", "-", "*", "<=", ">"}

  const Comparisons: set<string> := {"<", "<=", ">", ">="}

  /** Evaluates an expression in a scope chain. Evaluation changes nothing,
      so the repeated `visit` of an operand in the source always yields the
      value of the first. An operator without a case fails before either
      operand is evaluated. AND and OR evaluate the right operand only when
      the left does not decide the result; `-`, `*` and `/` evaluate it only
      when the left is an integer or a decimal. */
  function Eval(frames: seq<RFrame>, e: A.Expr): Result<Value, RuntimeError>
    decreases e
  {
    match e
    case Literal(lit, _) => Ok(LitValue(lit))
    case Group(inner, _) => Eval(frames, inner)
    case Binary(op, left, right, _) =>
      if op !in Operators then Err(Runtime)
      else
        var l :- Eval(frames, left);
        if op == "AND" || op == "OR" then
          if !l.Bool? then Err(Runtime)
          else if l.b == (op == "OR") then Ok(l)
          else
            var r :- Eval(frames, right);
            if r.Bool? then Ok(r) else Err(Runtime)
        else if op in {"-", "*", "/"} && !(l.Int? || l.Dec?) then Err(Runtime)
        else
          var r :- Eval(frames, right);
          BinaryValues(op, l, r)
    case Access(receiver, name) =>
      if receiver.Some? then
        var target :- Eval(frames, receiver.value);
        Err(Runtime)
      else
        var found := Lookup(frames, name);
        if found.None? then Err(Runtime) else Ok(found.value)
    case Function(_, _, _) => Err(Unsupported)
  }

  /** The strict (non-short-circuit) operators, once both operands are
      values. */
  function BinaryValues(op: string, l: Value, r: Value): Result<Value, RuntimeError> {
    if op == "==" then Ok(Bool(l == r))
    else if op in Comparisons then
      var c :- CompareValues(l, r);
      Ok(Bool(Holds(op, c)))
    else if op == "+" then Plus(l, r)
    else if op == "/" then Divide(l, r)
    else if op == "-" || op == "*" then Arithmetic(op, l, r)
    else Err(Runtime)
  }

  /** compareTo, after the same-class check and the cast to Comparable. */
  function CompareValues(l: Value, r: Value): Result<int, RuntimeError> {
    if KindOf(l) != KindOf(r) || KindOf(l) !in ComparableKinds then Err(Runtime)
    else Ok(Order(l, r))
  }

  /** The sign of compareTo on two values of one comparable class. */
  function Order(l: Value, r: Value): int
    requires KindOf(l) == KindOf(r) && KindOf(l) in ComparableKinds
  {
    match l
    case Bool(a) => if a == r.b then 0 else if a then 1 else -1
    case Char(a) => Sign(a as int - r.c as int)
    case Str(a) => StrOrder(a, r.s)
    case Int(a) => Sign(a - r.i)
    case Dec(a) => DecCompare(a, r.d)
    case _ => 0
  }

  function Sign(x: int): int {
    if x < 0 then -1 else if x == 0 then 0 else 1
  }

  /** The sign of String.compareTo: the first differing character decides,
      and a proper prefix comes first. */
  function StrOrder(a: string, b: string): int
    decreases |a|
  {
    if a == [] then (if b == [] then 0 else -1)
    else if b == [] then 1
    else if a[0] < b[0] then -1
    else if a[0] > b[0] then 1
    else StrOrder(a[1..], b[1..])
  }

  /** Whether a comparison operator holds of a compareTo result. */
  function Holds(op: string, c: int): bool {
    if op == "<" then c < 0
    else if op == "<=" then c <= 0
    else if op == ">" then c > 0
    else c >= 0
  }

  /** `+`: concatenation when either side is a String (the casts fail unless
      both are), else the sum of two integers or two decimals. */
  function Plus(l: Value, r: Value): Result<Value, RuntimeError> {
    if l.Str? || r.Str? then
      if l.Str? && r.Str? then Ok(Str(l.s + r.s)) else Err(Runtime)
    else if l.Int? && r.Int? then Ok(Int(l.i + r.i))
    else if l.Dec? && r.Dec? then Ok(Dec(DecAdd(l.d, r.d)))
    else Err(Runtime)
  }

  /** `/`: BigInteger.divide or BigDecimal.divide to scale 1, HALF_EVEN. The
      source's test of the divisor against `0` compares a BigInteger or a
      BigDecimal with an Integer and never holds; a zero divisor fails in
      the library call instead. */
  function Divide(l: Value, r: Value): Result<Value, RuntimeError> {
    if l.Int? && r.Int? then
      if r.i == 0 then Err(Runtime) else Ok(Int(TruncDiv(l.i, r.i)))
    else if l.Dec? && r.Dec? then
      if r.d.unscaled == 0 then Err(Runtime) else Ok(Dec(DecDivide(l.d, r.d)))
    else Err(Runtime)
  }

  /** `-` and `*` on two integers or two decimals. */
  function Arithmetic(op: string, l: Value, r: Value): Result<Value, RuntimeError> {
    if l.Int? && r.Int? then Ok(Int(if op == "-" then l.i - r.i else l.i * r.i))
    else if l.Dec? && r.Dec? then Ok(Dec(if op == "-" then DecSub(l.d, r.d) else DecMul(l.d, r.d)))
    else Err(Runtime)
  }

  // ---------------------------------------------------------------------
  // Statements

  /** A declaration (or a field): the value, NIL when there is none, bound
      in the innermost frame. */
  function Declare(frames: seq<RFrame>, name: string, init: Option<A.Expr>): (r: Call)
    requires frames != []
    ensures |r.frames| == |frames| && r.frames[..|frames| - 1] == frames[..|frames| - 1]
  {
    var v := if init.Some? then Eval(frames, init.value) else Ok(Nil);
    if v.Err? then Call(Err(v.error), frames)
    else
      var after := Define(frames, name, v.value);
      if after.Err? then Call(Err(after.error), frames) else Call(Ok(Nil), after.value)
  }

  /** Executes one statement. Only a declaration changes the scope chain,
      and only in its innermost frame; the frames a loop pushes are popped
      on every path out of it. */
  function Exec(frames: seq<RFrame>, s: A.Stmt, fuel: nat): (r: Run)
    requires frames != []
    ensures |r.frames| == |frames| && r.frames[..|frames| - 1] == frames[..|frames| - 1]
    ensures !s.Declaration? ==> r.frames == frames
    decreases s, 2
  {
    match s
    case Expression(e) =>
      var v := Eval(frames, e);
      if v.Err? then Run(Err(v.error), frames) else Run(Ok(Normal), frames)
    case Declaration(name, _, init, _) =>
      var d := Declare(frames, name, init);
      if d.outcome.Err? then Run(Err(d.outcome.error), d.frames) else Run(Ok(Normal), d.frames)
    case Assignment(_, _) => Run(Err(Unsupported), frames)
    case If(_, _, _) => Run(Err(Unsupported), frames)
    case For(_, value, _) =>
      var v := Eval(frames, value);
      if v.Err? then Run(Err(v.error), frames)
      else if !v.value.Iterable? then Run(Err(Runtime), frames)
      else ForLoop(frames, s, v.value.items, 0, fuel)
    case While(_, _) => WhileLoop(frames, s, fuel, fuel)
    case Return(e) =>
      var v := Eval(frames, e);
      if v.Err? then Run(Err(v.error), frames) else Run(Ok(Returned(v.value)), frames)
  }

  /** A while loop with at most `left` more iterations: the condition must
      be a Boolean; each iteration runs the body in a fresh frame and pops
      it, also when the body fails or returns. */
  function WhileLoop(frames: seq<RFrame>, s: A.Stmt, fuel: nat, left: nat): (r: Run)
    requires frames != [] && s.While?
    ensures r.frames == frames
    decreases s, 1, left
  {
    var c := Eval(frames, s.condition);
    if c.Err? then Run(Err(c.error), frames)
    else if !c.value.Bool? then Run(Err(Runtime), frames)
    else if !c.value.b then Run(Ok(Normal), frames)
    else if left == 0 then Run(Err(OutOfFuel), frames)
    else
      var body := Body(frames + [RFrame(map[], map[])], s, 0, fuel);
      var popped := body.frames[..|frames|];
      if body.outcome != Ok(Normal) then Run(body.outcome, popped)
      else WhileLoop(popped, s, fuel, left - 1)
  }

  /** A for loop over the items from the j-th on: each runs the body in a
      fresh frame that binds the loop variable, popped afterwards. */
  function ForLoop(frames: seq<RFrame>, s: A.Stmt, items: seq<Value>, j: nat, fuel: nat): (r: Run)
    requires frames != [] && s.For? && j <= |items|
    ensures r.frames == frames
    decreases s, 1, |items| - j
  {
    if j == |items| then Run(Ok(Normal), frames)
    else
      var body := Body(frames + [RFrame(map[s.name := items[j]], map[])], s, 0, fuel);
      var popped := body.frames[..|frames|];
      if body.outcome != Ok(Normal) then Run(body.outcome, popped)
      else ForLoop(popped, s, items, j + 1, fuel)
  }

  /** The statements of a loop body from the i-th on, in order, until one
      fails or returns. */
  function Body(frames: seq<RFrame>, s: A.Stmt, i: nat, fuel: nat): (r: Run)
    requires frames != [] && (s.While? || s.For?) && i <= |s.statements|
    ensures |r.frames| == |frames| && r.frames[..|frames| - 1] == frames[..|frames| - 1]
    decreases s, 0, |s.statements| - i
  {
    if i == |s.statements| then Run(Ok(Normal), frames)
    else
      var step := Exec(frames, s.statements[i], fuel);
      if step.outcome != Ok(Normal) then step
      else Body(step.frames, s, i + 1, fuel)
  }

  // ---------------------------------------------------------------------
  // Methods

  /** The statements of a method body from the i-th on. */
  function MethodBody(frames: seq<RFrame>, m: A.Method, i: nat, fuel: nat): (r: Run)
    requires frames != [] && i <= |m.statements|
    ensures |r.frames| == |frames| && r.frames[..|frames| - 1] == frames[..|frames| - 1]
    decreases |m.statements| - i
  {
    if i == |m.statements| then Run(Ok(Normal), frames)
    else
      var step := Exec(frames, m.statements[i], fuel);
      if step.outcome != Ok(Normal) then step
      else MethodBody(step.frames, m, i + 1, fuel)
  }

  /** The parameters from the k-th on bound to the arguments in the same
      positions, in the innermost frame. */
  function BindParameters(frames: seq<RFrame>, names: seq<string>, args: seq<Value>, k: nat): (r: Result<seq<RFrame>, RuntimeError>)
    requires frames != []
    ensures r.Ok? ==> |r.value| == |frames| && r.value[..|frames| - 1] == frames[..|frames| - 1]
    decreases |names| - k
  {
    if k >= |names| || k >= |args| then Ok(frames)
    else
      var after :- Define(frames, names[k], args[k]);
      BindParameters(after, names, args, k + 1)
  }

  /** The binding loop of the method closure as written: for every
      parameter name, every argument is defined under that name in turn. */
  function BindAsWritten(frames: seq<RFrame>, names: seq<string>, args: seq<Value>, k: nat, j: nat): (r: Result<seq<RFrame>, RuntimeError>)
    requires frames != []
    ensures r.Ok? ==> |r.value| == |frames|
    decreases |names| - k, |args| - j
  {
    if k >= |names| then Ok(frames)
    else if j >= |args| then BindAsWritten(frames, names, args, k + 1, 0)
    else
      var after :- Define(frames, names[k], args[j]);
      BindAsWritten(after, names, args, k, j + 1)
  }

  /** What a call yields: NIL when the body falls off its end, the value a
      `return` carries, or the failure. */
  function Returns(o: Result<Signal, RuntimeError>): Result<Value, RuntimeError> {
    match o
    case Ok(Normal) => Ok(Nil)
    case Ok(Returned(v)) => Ok(v)
    case Err(e) => Err(e)
  }

  /** Invoking a method: one fresh frame holds its parameters and its body
      runs there; the frame is popped on every path, so the caller's scope
      chain is exactly as it was. */
  function Invocation(frames: seq<RFrame>, m: A.Method, args: seq<Value>, fuel: nat): (r: Call)
    requires frames != []
    ensures r.frames == frames
  {
    var bound := BindParameters(frames + [RFrame(map[], map[])], m.parameters, args, 0);
    if bound.Err? then Call(Err(bound.error), frames)
    else
      var body := MethodBody(bound.value, m, 0, fuel);
      Call(Returns(body.outcome), body.frames[..|frames|])
  }

  /** Invoking a function binding: `print` needs one argument (its output
      is not modelled) and yields NIL. */
  function InvokeCallable(frames: seq<RFrame>, f: Callable, args: seq<Value>, fuel: nat): (r: Call)
    requires frames != []
    ensures r.frames == frames
  {
    match f
    case Print => if |args| == 0 then Call(Err(Runtime), frames) else Call(Ok(Nil), frames)
    case Closure(m) => Invocation(frames, m, args, fuel)
  }

  // ---------------------------------------------------------------------
  // Source

  /** The fields from the i-th on, each declared in order. */
  function FieldsFrom(frames: seq<RFrame>, fields: seq<A.Field>, i: nat): (r: Call)
    requires frames != [] && i <= |fields|
    ensures |r.frames| == |frames| && r.frames[..|frames| - 1] == frames[..|frames| - 1]
    decreases |fields| - i
  {
    if i == |fields| then Call(Ok(Nil), frames)
    else
      var d := Declare(frames, fields[i].name, fields[i].value);
      if d.outcome.Err? then d else FieldsFrom(d.frames, fields, i + 1)
  }

  /** Binding a method as a function of its name and parameter count. */
  function DefineMethod(frames: seq<RFrame>, m: A.Method): (r: Call)
    requires frames != []
    ensures |r.frames| == |frames| && r.frames[..|frames| - 1] == frames[..|frames| - 1]
  {
    var after := DefineFunction(frames, m.name, |m.parameters|, Closure(m));
    if after.Err? then Call(Err(after.error), frames) else Call(Ok(Nil), after.value)
  }

  /** The methods from the i-th on, each bound in order. */
  function MethodsFrom(frames: seq<RFrame>, methods: seq<A.Method>, i: nat): (r: Call)
    requires frames != [] && i <= |methods|
    ensures |r.frames| == |frames| && r.frames[..|frames| - 1] == frames[..|frames| - 1]
    decreases |methods| - i
  {
    if i == |methods| then Call(Ok(Nil), frames)
    else
      var d := DefineMethod(frames, methods[i]);
      if d.outcome.Err? then d else MethodsFrom(d.frames, methods, i + 1)
  }

  /** Running a source: its fields, then its methods, are bound in the
      current frame, and the result is that of invoking `main` with no
      arguments. */
  function RunSource(frames: seq<RFrame>, src: A.Source, fuel: nat): (r: Call)
    requires frames != []
    ensures |r.frames| == |frames| && r.frames[..|frames| - 1] == frames[..|frames| - 1]
  {
    var fs := FieldsFrom(frames, src.fields, 0);
    if fs.outcome.Err? then fs
    else
      var ms := MethodsFrom(fs.frames, src.methods, 0);
      if ms.outcome.Err? then ms
      else
        var main := LookupFunction(ms.frames, "main", 0);
        if main.None? then Call(Err(Runtime), ms.frames)
        else InvokeCallable(ms.frames, main.value, [], fuel)
  }

  // ---------------------------------------------------------------------
  // The interpreter

  /** The interpreter's scope field, pushed and popped as the visitors run.
      Each method is proved to produce the outcome and the new scope chain
      the functions above describe. */
  class Interpreter {
    var scope: seq<RFrame>

    /** A new frame under the given ones, holding the `print` built-in. */
    constructor(parent: seq<RFrame>)
      ensures scope == parent + [RFrame(map[], map[("print", 1) := Print])]
    {
      scope := parent + [RFrame(map[], map[("print", 1) := Print])];
    }

    method VisitSource(src: A.Source, fuel: nat) returns (r: Result<Value, RuntimeError>)
      requires scope != []
      modifies this
      ensures Call(r, scope) == RunSource(old(scope), src, fuel)
    {
      ghost var fields := FieldsFrom(scope, src.fields, 0);
      var i := 0;
      while i < |src.fields|
        invariant i <= |src.fields| && scope != []
        invariant FieldsFrom(scope, src.fields, i) == fields
        decreases |src.fields| - i
      {
        r := VisitField(src.fields[i]);
        if r.Err? {
          return;
        }
        i := i + 1;
      }
      ghost var methods := MethodsFrom(scope, src.methods, 0);
      var k := 0;
      while k < |src.methods|
        invariant k <= |src.methods| && scope != []
        invariant MethodsFrom(scope, src.methods, k) == methods
        decreases |src.methods| - k
      {
        r := VisitMethod(src.methods[k]);
        if r.Err? {
          return;
        }
        k := k + 1;
      }
      var main := LookupFunction(scope, "main", 0);
      if main.None? {
        return Err(Runtime);
      }
      r := InvokeFunction(main.value, [], fuel);
    }

    method VisitField(f: A.Field) returns (r: Result<Value, RuntimeError>)
      requires scope != []
      modifies this
      ensures Call(r, scope) == Declare(old(scope), f.name, f.value)
    {
      var v := Nil;
      if f.value.Some? {
        v :- Eval(scope, f.value.value);
      }
      scope :- Define(scope, f.name, v);
      return Ok(Nil);
    }

    method VisitMethod(m: A.Method) returns (r: Result<Value, RuntimeError>)
      requires scope != []
      modifies this
      ensures Call(r, scope) == DefineMethod(old(scope), m)
    {
      scope :- DefineFunction(scope, m.name, |m.parameters|, Closure(m));
      return Ok(Nil);
    }

    method InvokeFunction(f: Callable, args: seq<Value>, fuel: nat) returns (r: Result<Value, RuntimeError>)
      requires scope != []
      modifies this
      ensures Call(r, scope) == InvokeCallable(old(scope), f, args, fuel)
    {
      match f
      case Print =>
        r := if |args| == 0 then Err(Runtime) else Ok(Nil);
      case Closure(m) =>
        r := Invoke(m, args, fuel);
    }

    /** The closure a method visit defines, run on its arguments. */
    method Invoke(m: A.Method, args: seq<Value>, fuel: nat) returns (r: Result<Value, RuntimeError>)
      requires scope != []
      modifies this
      ensures Call(r, scope) == Invocation(old(scope), m, args, fuel)
    {
      var caller := scope;
      scope := scope + [RFrame(map[], map[])];
      ghost var bound := BindParameters(scope, m.parameters, args, 0);
      var k := 0;
      while k < |m.parameters| && k < |args|
        invariant |scope| == |caller| + 1 && scope[..|caller|] == caller
        invariant BindParameters(scope, m.parameters, args, k) == bound
        decreases |m.parameters| - k
      {
        var after := Define(scope, m.parameters[k], args[k]);
        if after.Err? {
          scope := scope[..|scope| - 1];
          return Err(after.error);
        }
        scope := after.value;
        k := k + 1;
      }
      var body := RunMethodBody(m, fuel);
      scope := scope[..|caller|];
      r := Returns(body);
    }

    method RunMethodBody(m: A.Method, fuel: nat) returns (r: Result<Signal, RuntimeError>)
      requires scope != []
      modifies this
      ensures Run(r, scope) == MethodBody(old(scope), m, 0, fuel)
    {
      ghost var target := MethodBody(scope, m, 0, fuel);
      var i := 0;
      while i < |m.statements|
        invariant i <= |m.statements| && scope != []
        invariant MethodBody(scope, m, i, fuel) == target
        decreases |m.statements| - i
      {
        r := Visit(m.statements[i], fuel);
        if r != Ok(Normal) {
          return;
        }
        i := i + 1;
      }
      return Ok(Normal);
    }

    method Visit(s: A.Stmt, fuel: nat) returns (r: Result<Signal, RuntimeError>)
      requires scope != []
      modifies this
      ensures Run(r, scope) == Exec(old(scope), s, fuel)
      decreases s, 2
    {
      match s
      case Expression(e) =>
        var v :- Eval(scope, e);
        r := Ok(Normal);
      case Declaration(name, _, init, _) =>
        var v := Nil;
        if init.Some? {
          v :- Eval(scope, init.value);
        }
        scope :- Define(scope, name, v);
        r := Ok(Normal);
      case Assignment(_, _) =>
        r := Err(Unsupported);
      case If(_, _, _) =>
        r := Err(Unsupported);
      case For(_, _, _) =>
        r := VisitFor(s, fuel);
      case While(_, _) =>
        r := VisitWhile(s, fuel);
      case Return(e) =>
        var v :- Eval(scope, e);
        r := Ok(Returned(v));
    }

    method VisitWhile(s: A.Stmt, fuel: nat) returns (r: Result<Signal, RuntimeError>)
      requires scope != [] && s.While?
      modifies this
      ensures Run(r, scope) == Exec(old(scope), s, fuel)
      decreases s, 1
    {
      ghost var target := WhileLoop(scope, s, fuel, fuel);
      var left := fuel;
      while true
        invariant scope == old(scope)
        invariant WhileLoop(scope, s, fuel, left) == target
        decreases left
      {
        var c := Eval(scope, s.condition);
        if c.Err? {
          return Err(c.error);
        }
        if !c.value.Bool? {
          return Err(Runtime);
        }
        if !c.value.b {
          return Ok(Normal);
        }
        if left == 0 {
          return Err(OutOfFuel);
        }
        var outer := scope;
        scope := scope + [RFrame(map[], map[])];
        r := VisitBody(s, fuel);
        scope := scope[..|outer|];
        if r != Ok(Normal) {
          return;
        }
        left := left - 1;
      }
    }

    method VisitFor(s: A.Stmt, fuel: nat) returns (r: Result<Signal, RuntimeError>)
      requires scope != [] && s.For?
      modifies this
      ensures Run(r, scope) == Exec(old(scope), s, fuel)
      decreases s, 1
    {
      var v :- Eval(scope, s.value);
      if !v.Iterable? {
        return Err(Runtime);
      }
      ghost var target := ForLoop(scope, s, v.items, 0, fuel);
      var j := 0;
      while j < |v.items|
        invariant j <= |v.items| && scope == old(scope)
        invariant ForLoop(scope, s, v.items, j, fuel) == target
        decreases |v.items| - j
      {
        var outer := scope;
        scope := scope + [RFrame(map[s.name := v.items[j]], map[])];
        r := VisitBody(s, fuel);
        scope := scope[..|outer|];
        if r != Ok(Normal) {
          return;
        }
        j := j + 1;
      }
      return Ok(Normal);
    }

    /** The statements of a loop body, in the current frame. */
    method VisitBody(s: A.Stmt, fuel: nat) returns (r: Result<Signal, RuntimeError>)
      requires scope != [] && (s.While? || s.For?)
      modifies this
      ensures Run(r, scope) == Body(old(scope), s, 0, fuel)
      decreases s, 0
    {
      ghost var target := Body(scope, s, 0, fuel);
      var i := 0;
      while i < |s.statements|
        invariant i <= |s.statements| && scope != []
        invariant Body(scope, s, i, fuel) == target
        decreases |s.statements| - i
      {
        r := Visit(s.statements[i], fuel);
        if r != Ok(Normal) {
          return;
        }
        i := i + 1;
      }
      return Ok(Normal);
    }
  }
}
