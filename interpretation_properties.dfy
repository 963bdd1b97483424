/** What the interpreter's operators, statements, calls and source runs
    amount to, stated against the values involved rather than the case
    analysis that computes them. */
module InterpretationProperties {
  import opened Outcomes
  import opened Numbers
  import A = Ast
  import opened Interpretation

  // ---------------------------------------------------------------------
  // AND and OR

  /** AND with a false left operand is false, whatever the right operand
      is, including one whose evaluation would fail. */
  lemma AndShortCircuit(frames: seq<RFrame>, left: A.Expr, right: A.Expr)
    requires Eval(frames, left) == Ok(Bool(false))
    ensures Eval(frames, A.Binary("AND", left, right)) == Ok(Bool(false))
  {
  }

  /** OR with a true left operand is true, whatever the right operand is. */
  lemma OrShortCircuit(frames: seq<RFrame>, left: A.Expr, right: A.Expr)
    requires Eval(frames, left) == Ok(Bool(true))
    ensures Eval(frames, A.Binary("OR", left, right)) == Ok(Bool(true))
  {
  }

  /** On two Booleans AND and OR are conjunction and disjunction; a
      non-Boolean operand that is evaluated fails. */
  lemma LogicalOperators(frames: seq<RFrame>, left: A.Expr, right: A.Expr, lv: Value, rv: Value)
    requires Eval(frames, left) == Ok(lv) && Eval(frames, right) == Ok(rv)
    ensures lv.Bool? && rv.Bool? ==>
      Eval(frames, A.Binary("AND", left, right)) == Ok(Bool(lv.b && rv.b)) &&
      Eval(frames, A.Binary("OR", left, right)) == Ok(Bool(lv.b || rv.b))
    ensures !lv.Bool? ==>
      Eval(frames, A.Binary("AND", left, right)) == Err(Runtime) &&
      Eval(frames, A.Binary("OR", left, right)) == Err(Runtime)
    ensures lv == Bool(true) && !rv.Bool? ==> Eval(frames, A.Binary("AND", left, right)) == Err(Runtime)
    ensures lv == Bool(false) && !rv.Bool? ==> Eval(frames, A.Binary("OR", left, right)) == Err(Runtime)
  {
  }

  // ---------------------------------------------------------------------
  // Comparisons and equality

  /** A comparison succeeds exactly on two values of one comparable class,
      and then holds as compareTo's sign says. */
  lemma ComparisonSameClass(op: string, l: Value, r: Value)
    requires op in Comparisons
    ensures BinaryValues(op, l, r).Ok? <==> KindOf(l) == KindOf(r) && KindOf(l) in ComparableKinds
    ensures BinaryValues(op, l, r).Err? ==> BinaryValues(op, l, r).error == Runtime
    ensures BinaryValues(op, l, r).Ok? ==> BinaryValues(op, l, r) == Ok(Bool(Holds(op, Order(l, r))))
  {
  }

  /** compareTo's sign means what it should for each class: integers,
      characters and decimals by value (decimals ignoring the scale), false
      before true, and strings equal only when they are the same; swapping
      the operands negates it. */
  lemma OrderMeaning(l: Value, r: Value)
    requires KindOf(l) == KindOf(r) && KindOf(l) in ComparableKinds
    ensures -1 <= Order(l, r) <= 1
    ensures Order(r, l) == -Order(l, r)
    ensures l.Int? ==> (Order(l, r) < 0 <==> l.i < r.i) && (Order(l, r) == 0 <==> l.i == r.i)
    ensures l.Char? ==> (Order(l, r) < 0 <==> l.c < r.c) && (Order(l, r) == 0 <==> l.c == r.c)
    ensures l.Bool? ==> (Order(l, r) < 0 <==> !l.b && r.b) && (Order(l, r) == 0 <==> l.b == r.b)
    ensures l.Dec? ==> (Order(l, r) < 0 <==> Numbers.Value(l.d) < Numbers.Value(r.d)) && (Order(l, r) == 0 <==> Numbers.Value(l.d) == Numbers.Value(r.d))
    ensures l.Str? ==> (Order(l, r) == 0 <==> l.s == r.s)
  {
    if l.Str? {
      StrOrderRange(l.s, r.s);
      StrOrderSwap(l.s, r.s);
      StrOrderZero(l.s, r.s);
    } else if l.Dec? {
      var a, b := DecCompare(l.d, r.d), DecCompare(r.d, l.d);
      assert a == -b;
    }
  }

  lemma {:induction false} StrOrderRange(a: string, b: string)
    ensures -1 <= StrOrder(a, b) <= 1
    decreases |a|
  {
    if a != [] && b != [] && a[0] == b[0] {
      StrOrderRange(a[1..], b[1..]);
    }
  }

  /** Swapping two strings negates their order. */
  lemma {:induction false} StrOrderSwap(a: string, b: string)
    ensures StrOrder(b, a) == -StrOrder(a, b)
    decreases |a|
  {
    if a != [] && b != [] && a[0] == b[0] {
      StrOrderSwap(a[1..], b[1..]);
    }
  }

  /** Two strings are in order 0 exactly when they are equal. */
  lemma {:induction false} StrOrderZero(a: string, b: string)
    ensures StrOrder(a, b) == 0 <==> a == b
    decreases |a|
  {
    if a != [] && b != [] && a[0] == b[0] {
      StrOrderZero(a[1..], b[1..]);
      if a[1..] == b[1..] {
        assert a == [a[0]] + a[1..] && b == [b[0]] + b[1..];
      }
    }
  }

  /** A common prefix does not change the order, a proper prefix comes
      first, and otherwise the first differing character decides. */
  lemma {:induction false} StrOrderPrefix(p: string, a: string, b: string)
    ensures StrOrder(p + a, p + b) == StrOrder(a, b)
    decreases |p|
  {
    if p != [] {
      assert (p + a)[0] == p[0] && (p + b)[0] == p[0];
      assert (p + a)[1..] == p[1..] + a && (p + b)[1..] == p[1..] + b;
      StrOrderPrefix(p[1..], a, b);
    } else {
      assert p + a == a && p + b == b;
    }
  }

  lemma StrOrderFirstDifference(p: string, x: char, y: char, a: string, b: string)
    requires x != y
    ensures StrOrder(p + ([x] + a), p + ([y] + b)) == (if x < y then -1 else 1)
    ensures StrOrder(p, p + ([y] + b)) == -1
  {
    StrOrderPrefix(p, [x] + a, [y] + b);
    StrOrderPrefix(p, [], [y] + b);
    assert p + [] == p;
  }

  /** `a < b` is `b > a` and `a <= b` is `b >= a`. */
  lemma ComparisonFlip(l: Value, r: Value)
    ensures BinaryValues("<", l, r) == BinaryValues(">", r, l)
    ensures BinaryValues("<=", l, r) == BinaryValues(">=", r, l)
  {
    if KindOf(l) == KindOf(r) && KindOf(l) in ComparableKinds {
      OrderMeaning(l, r);
    }
  }

  /** `==` is equals, which for decimals compares the scale while the
      comparisons do not: 1.0 and 1.00 are not `==`, yet each is `<=` and
      `>=` the other. */
  lemma DecimalEqualityKeepsScale()
    ensures BinaryValues("==", Dec(Decimal(10, 1)), Dec(Decimal(100, 2))) == Ok(Bool(false))
    ensures BinaryValues("<=", Dec(Decimal(10, 1)), Dec(Decimal(100, 2))) == Ok(Bool(true))
    ensures BinaryValues(">=", Dec(Decimal(10, 1)), Dec(Decimal(100, 2))) == Ok(Bool(true))
  {
    var c := DecCompare(Decimal(10, 1), Decimal(100, 2));
    assert Numbers.Value(Decimal(10, 1)) == Numbers.Value(Decimal(100, 2)) by {
      assert Pow10(1) == 10 && Pow10(2) == 100;
    }
    assert c == 0;
  }

  /** `!=`, and any operator without a case, fails before either operand
      is evaluated. */
  lemma UnlistedOperatorsFail(frames: seq<RFrame>, op: string, left: A.Expr, right: A.Expr)
    requires op !in Operators
    ensures Eval(frames, A.Binary(op, left, right)) == Err(Runtime)
    ensures Eval(frames, A.Binary("!=", left, right)) == Err(Runtime)
  {
  }

  // ---------------------------------------------------------------------
  // Arithmetic

  /** `+` concatenates two strings, adds two integers or two decimals
      exactly, and fails on every other pair, a string with a non-string
      among them. */
  lemma PlusCases(l: Value, r: Value)
    ensures l.Str? && r.Str? ==> Plus(l, r) == Ok(Str(l.s + r.s))
    ensures l.Str? != r.Str? ==> Plus(l, r) == Err(Runtime)
    ensures l.Int? && r.Int? ==> Plus(l, r) == Ok(Int(l.i + r.i))
    ensures l.Dec? && r.Dec? ==> (Plus(l, r).Ok? && Plus(l, r).value.Dec? &&
      Numbers.Value(Plus(l, r).value.d) == Numbers.Value(l.d) + Numbers.Value(r.d))
    ensures Plus(l, r).Ok? <==> KindOf(l) == KindOf(r) && KindOf(l) in {StringKind, IntegerKind, DecimalKind}
  {
  }

  /** `-` and `*` are exact on two integers or two decimals and fail on
      any other pair. */
  lemma ArithmeticCases(op: string, l: Value, r: Value)
    requires op == "-" || op == "*"
    ensures l.Int? && r.Int? ==> BinaryValues(op, l, r) == Ok(Int(if op == "-" then l.i - r.i else l.i * r.i))
    ensures l.Dec? && r.Dec? ==> (BinaryValues(op, l, r).Ok? && BinaryValues(op, l, r).value.Dec? &&
      Numbers.Value(BinaryValues(op, l, r).value.d) ==
        (if op == "-" then Numbers.Value(l.d) - Numbers.Value(r.d) else Numbers.Value(l.d) * Numbers.Value(r.d)))
    ensures BinaryValues(op, l, r).Ok? <==> KindOf(l) == KindOf(r) && KindOf(l) in {IntegerKind, DecimalKind}
  {
  }

  /** `-`, `*` and `/` with a left operand that is neither an integer nor
      a decimal fail without looking at the right operand. */
  lemma ArithmeticLeftFirst(frames: seq<RFrame>, op: string, left: A.Expr, right: A.Expr, lv: Value)
    requires op in {"-", "*", "/"} && Eval(frames, left) == Ok(lv) && !lv.Int? && !lv.Dec?
    ensures Eval(frames, A.Binary(op, left, right)) == Err(Runtime)
  {
  }

  /** Integer `/` rounds toward zero and fails on a zero divisor. */
  lemma IntegerDivision(a: int, b: int)
    ensures b == 0 ==> Divide(Int(a), Int(b)) == Err(Runtime)
    ensures b != 0 ==> (Divide(Int(a), Int(b)).Ok? && Divide(Int(a), Int(b)).value.Int? &&
      var q := Divide(Int(a), Int(b)).value.i;
      (0 <= q * b <= a || a <= q * b <= 0) && Abs(a - q * b) < Abs(b))
  {
    if b != 0 {
      TruncDivTruncates(a, b);
    }
  }

  /** Decimal `/` yields scale 1, rounded half-even, and fails on a zero
      divisor whatever its scale; mixing an integer with a decimal fails. */
  lemma DecimalDivision(a: Decimal, b: Decimal, i: int)
    ensures b.unscaled == 0 ==> Divide(Dec(a), Dec(b)) == Err(Runtime)
    ensures b.unscaled != 0 ==> (Divide(Dec(a), Dec(b)).Ok? && Divide(Dec(a), Dec(b)).value.Dec? &&
      var q := Divide(Dec(a), Dec(b)).value.d;
      var n := a.unscaled * Pow10(b.scale + 1);
      var d := b.unscaled * Pow10(a.scale);
      q.scale == 1 && 2 * Abs(q.unscaled * d - n) <= Abs(d) &&
      (2 * Abs(q.unscaled * d - n) == Abs(d) ==> q.unscaled % 2 == 0))
    ensures Divide(Dec(a), Int(i)) == Err(Runtime) && Divide(Int(i), Dec(a)) == Err(Runtime)
  {
  }

  /** 0.25 / 1 and 0.35 / 1 at scale 1: the ties go to the even digit. */
  lemma DecimalDivisionTies()
    ensures Divide(Dec(Decimal(25, 2)), Dec(Decimal(1, 0))) == Ok(Dec(Decimal(2, 1)))
    ensures Divide(Dec(Decimal(35, 2)), Dec(Decimal(1, 0))) == Ok(Dec(Decimal(4, 1)))
  {
    assert Pow10(1) == 10 && Pow10(2) == 100;
    assert RoundHalfEven(250, 100) == 2 by {
      assert RoundedNat(250, 100) == 2;
    }
    assert RoundHalfEven(350, 100) == 4 by {
      assert RoundedNat(350, 100) == 4;
    }
  }

  // ---------------------------------------------------------------------
  // Declarations

  /** defineVariable makes the name resolve to the value and leaves every
      other name as it was. */
  lemma DefineBinds(frames: seq<RFrame>, name: string, v: Value, other: string)
    requires frames != [] && Define(frames, name, v).Ok?
    ensures Lookup(Define(frames, name, v).value, name) == Some(v)
    ensures other != name ==> Lookup(Define(frames, name, v).value, other) == Lookup(frames, other)
  {
    var after := Define(frames, name, v).value;
    assert after[..|frames| - 1] == frames[..|frames| - 1];
  }

  /** A declaration or field binds its name to its value, or to NIL when
      it has none; it fails when the value fails or the innermost frame
      already binds the name, and then changes nothing. */
  lemma DeclareBinds(frames: seq<RFrame>, name: string, init: Option<A.Expr>, other: string)
    requires frames != []
    ensures var r := Declare(frames, name, init);
      r.outcome.Ok? <==> (init.Some? ==> Eval(frames, init.value).Ok?) && name !in frames[|frames| - 1].variables
    ensures var r := Declare(frames, name, init);
      r.outcome.Ok? ==> Lookup(r.frames, name) == Some(if init.Some? then Eval(frames, init.value).value else Nil)
    ensures var r := Declare(frames, name, init);
      r.outcome.Ok? && other != name ==> Lookup(r.frames, other) == Lookup(frames, other)
    ensures Declare(frames, name, init).outcome.Err? ==> Declare(frames, name, init).frames == frames
  {
    var v := if init.Some? then Eval(frames, init.value) else Ok(Nil);
    if v.Ok? && Define(frames, name, v.value).Ok? {
      DefineBinds(frames, name, v.value, other);
    }
  }

  // ---------------------------------------------------------------------
  // Loops

  /** A while whose condition is false does nothing; one whose condition
      is not a Boolean fails. */
  lemma WhileCondition(frames: seq<RFrame>, cond: A.Expr, body: seq<A.Stmt>, fuel: nat, cv: Value)
    requires frames != [] && Eval(frames, cond) == Ok(cv)
    ensures cv == Bool(false) ==> Exec(frames, A.While(cond, body), fuel) == Run(Ok(Normal), frames)
    ensures !cv.Bool? ==> Exec(frames, A.While(cond, body), fuel) == Run(Err(Runtime), frames)
  {
  }

  /** A declaration in a loop body is gone once the loop is over: every
      name resolves after a while or a for as it did before. */
  lemma LoopsDiscardDeclarations(frames: seq<RFrame>, s: A.Stmt, fuel: nat, name: string)
    requires frames != [] && (s.While? || s.For?)
    ensures Lookup(Exec(frames, s, fuel).frames, name) == Lookup(frames, name)
  {
  }

  /** A for over a non-iterable fails. */
  lemma ForNeedsIterable(frames: seq<RFrame>, name: string, value: A.Expr, body: seq<A.Stmt>, fuel: nat, v: Value)
    requires frames != [] && Eval(frames, value) == Ok(v) && !v.Iterable?
    ensures Exec(frames, A.For(name, value, body), fuel) == Run(Err(Runtime), frames)
  {
  }

  // ---------------------------------------------------------------------
  // Fuel

  /** More fuel changes nothing about a run that did not run out of it. */
  lemma {:induction false} ExecFuel(frames: seq<RFrame>, s: A.Stmt, f: nat, g: nat)
    requires frames != [] && f <= g && Exec(frames, s, f).outcome != Err(OutOfFuel)
    ensures Exec(frames, s, g) == Exec(frames, s, f)
    decreases s, 2
  {
    match s
    case For(_, value, _) =>
      var v := Eval(frames, value);
      if v.Ok? && v.value.Iterable? {
        ForFuel(frames, s, v.value.items, 0, f, g);
      }
    case While(_, _) =>
      WhileFuel(frames, s, f, f, g, g);
    case _ =>
  }

  lemma {:induction false} WhileFuel(frames: seq<RFrame>, s: A.Stmt, f: nat, l: nat, g: nat, k: nat)
    requires frames != [] && s.While? && f <= g && l <= k
    requires WhileLoop(frames, s, f, l).outcome != Err(OutOfFuel)
    ensures WhileLoop(frames, s, g, k) == WhileLoop(frames, s, f, l)
    decreases s, 1, l
  {
    var c := Eval(frames, s.condition);
    if c.Ok? && c.value.Bool? && c.value.b && l > 0 {
      var pushed := frames + [RFrame(map[], map[])];
      var body := Body(pushed, s, 0, f);
      BodyFuel(pushed, s, 0, f, g);
      if body.outcome == Ok(Normal) {
        WhileFuel(body.frames[..|frames|], s, f, l - 1, g, k - 1);
      }
    }
  }

  lemma {:induction false} ForFuel(frames: seq<RFrame>, s: A.Stmt, items: seq<Value>, j: nat, f: nat, g: nat)
    requires frames != [] && s.For? && j <= |items| && f <= g
    requires ForLoop(frames, s, items, j, f).outcome != Err(OutOfFuel)
    ensures ForLoop(frames, s, items, j, g) == ForLoop(frames, s, items, j, f)
    decreases s, 1, |items| - j
  {
    if j < |items| {
      var pushed := frames + [RFrame(map[s.name := items[j]], map[])];
      var body := Body(pushed, s, 0, f);
      BodyFuel(pushed, s, 0, f, g);
      if body.outcome == Ok(Normal) {
        ForFuel(body.frames[..|frames|], s, items, j + 1, f, g);
      }
    }
  }

  lemma {:induction false} BodyFuel(frames: seq<RFrame>, s: A.Stmt, i: nat, f: nat, g: nat)
    requires frames != [] && (s.While? || s.For?) && i <= |s.statements| && f <= g
    requires Body(frames, s, i, f).outcome != Err(OutOfFuel)
    ensures Body(frames, s, i, g) == Body(frames, s, i, f)
    decreases s, 0, |s.statements| - i
  {
    if i < |s.statements| {
      var step := Exec(frames, s.statements[i], f);
      ExecFuel(frames, s.statements[i], f, g);
      if step.outcome == Ok(Normal) {
        BodyFuel(step.frames, s, i + 1, f, g);
      }
    }
  }

  lemma {:induction false} MethodBodyFuel(frames: seq<RFrame>, m: A.Method, i: nat, f: nat, g: nat)
    requires frames != [] && i <= |m.statements| && f <= g
    requires MethodBody(frames, m, i, f).outcome != Err(OutOfFuel)
    ensures MethodBody(frames, m, i, g) == MethodBody(frames, m, i, f)
    decreases |m.statements| - i
  {
    if i < |m.statements| {
      var step := Exec(frames, m.statements[i], f);
      ExecFuel(frames, m.statements[i], f, g);
      if step.outcome == Ok(Normal) {
        MethodBodyFuel(step.frames, m, i + 1, f, g);
      }
    }
  }

  /** A source run that did not run out of fuel has the same outcome with
      any larger bound. */
  lemma RunSourceFuel(frames: seq<RFrame>, src: A.Source, f: nat, g: nat)
    requires frames != [] && f <= g && RunSource(frames, src, f).outcome != Err(OutOfFuel)
    ensures RunSource(frames, src, g) == RunSource(frames, src, f)
  {
    var fs := FieldsFrom(frames, src.fields, 0);
    if fs.outcome.Ok? {
      var ms := MethodsFrom(fs.frames, src.methods, 0);
      if ms.outcome.Ok? {
        var main := LookupFunction(ms.frames, "main", 0);
        if main.Some? && main.value.Closure? {
          var m := main.value.definition;
          var bound := BindParameters(ms.frames + [RFrame(map[], map[])], m.parameters, [], 0);
          if bound.Ok? {
            MethodBodyFuel(bound.value, m, 0, f, g);
          }
        }
      }
    }
  }

  // ---------------------------------------------------------------------
  // Calls

  /** The bindings that follow a name's own leave its lookup alone. */
  lemma {:induction false} BindKeeps(frames: seq<RFrame>, names: seq<string>, args: seq<Value>, k: nat, x: string)
    requires frames != [] && BindParameters(frames, names, args, k).Ok?
    requires forall a :: k <= a < |names| ==> names[a] != x
    ensures Lookup(BindParameters(frames, names, args, k).value, x) == Lookup(frames, x)
    decreases |names| - k
  {
    if k < |names| && k < |args| {
      var after := Define(frames, names[k], args[k]).value;
      DefineBinds(frames, names[k], args[k], x);
      BindKeeps(after, names, args, k + 1, x);
    }
  }

  /** Distinct parameter names, as many arguments, and a frame that binds
      none of the names yet: every parameter is bound to the argument in
      its position. */
  lemma {:induction false} BindsPositionally(frames: seq<RFrame>, names: seq<string>, args: seq<Value>, k: nat, a: nat)
    requires frames != [] && |names| == |args| && k <= a < |names|
    requires forall p, q :: k <= p < q < |names| ==> names[p] != names[q]
    requires forall p :: k <= p < |names| ==> names[p] !in frames[|frames| - 1].variables
    ensures BindParameters(frames, names, args, k).Ok?
    ensures Lookup(BindParameters(frames, names, args, k).value, names[a]) == Some(args[a])
    decreases |names| - k
  {
    var after := Define(frames, names[k], args[k]).value;
    DefineBinds(frames, names[k], args[k], names[k]);
    assert forall p :: k + 1 <= p < |names| ==> names[p] !in after[|after| - 1].variables;
    if k + 1 < |names| {
      BindsPositionally(after, names, args, k + 1, k + 1);
    }
    if a == k {
      if k + 1 < |names| {
        BindKeeps(after, names, args, k + 1, names[k]);
      }
    } else {
      BindsPositionally(after, names, args, k + 1, a);
    }
  }

  /** A method with no parameters and an empty body yields NIL. */
  lemma InvokeFallsOff(frames: seq<RFrame>, m: A.Method, fuel: nat)
    requires frames != [] && m.parameters == [] && m.statements == []
    ensures Invocation(frames, m, [], fuel) == Call(Ok(Nil), frames)
  {
  }

  /** A body that starts with `return e` yields the value of e in the
      call's frame; what follows the return never runs. */
  lemma InvokeReturns(frames: seq<RFrame>, m: A.Method, e: A.Expr, fuel: nat, v: Value)
    requires frames != [] && m.parameters == [] && m.statements != [] && m.statements[0] == A.Return(e)
    requires Eval(frames + [RFrame(map[], map[])], e) == Ok(v)
    ensures Invocation(frames, m, [], fuel) == Call(Ok(v), frames)
  {
    var pushed := frames + [RFrame(map[], map[])];
    assert BindParameters(pushed, m.parameters, [], 0) == Ok(pushed);
    assert Exec(pushed, m.statements[0], fuel) == Run(Ok(Returned(v)), pushed);
    assert MethodBody(pushed, m, 0, fuel) == Run(Ok(Returned(v)), pushed);
  }

  /** A call binds parameter p to the argument in p's position. */
  lemma InvokeSeesArgument(frames: seq<RFrame>, p: string, arg: Value, fuel: nat)
    requires frames != []
    ensures var m := A.Method("f", [p], [], None, [A.Return(A.Access(None, p))]);
      Invocation(frames, m, [arg], fuel) == Call(Ok(arg), frames)
  {
    var m := A.Method("f", [p], [], None, [A.Return(A.Access(None, p))]);
    var pushed := frames + [RFrame(map[], map[])];
    var bound := Define(pushed, p, arg).value;
    DefineBinds(pushed, p, arg, p);
    assert BindParameters(pushed, [p], [arg], 0) == Ok(bound);
    assert Eval(bound, A.Access(None, p)) == Ok(arg);
    assert MethodBody(bound, m, 0, fuel) == Run(Ok(Returned(arg)), bound);
  }

  // ---------------------------------------------------------------------
  // The parameter binding as written

  /** The closure's nested loop defines the first parameter once per
      argument, so with two or more arguments the second definition of that
      name in one frame fails: a two-parameter method called with 1 and 2
      fails, while the positional binding gives a = 1 and b = 2. */
  lemma {:induction false} BindAsWrittenFails(frames: seq<RFrame>, names: seq<string>, args: seq<Value>)
    requires frames != [] && |names| >= 1 && |args| >= 2
    ensures BindAsWritten(frames, names, args, 0, 0).Err?
  {
    var first := Define(frames, names[0], args[0]);
    if first.Ok? {
      assert Define(first.value, names[0], args[1]).Err?;
    }
  }

  /** The as-written binding of a two-parameter method called with 1 and
      2 fails on the second definition of a. */
  lemma TwoParametersAsWritten(frames: seq<RFrame>)
    requires frames != [] && frames[|frames| - 1].variables == map[]
    ensures BindAsWritten(frames, ["a", "b"], [Int(1), Int(2)], 0, 0) == Err(Runtime)
  {
    var withA := Define(frames, "a", Int(1)).value;
    assert Define(withA, "a", Int(2)).Err?;
  }

  /** The positional binding of the same call gives a = 1 and b = 2. */
  lemma TwoParametersPositional(frames: seq<RFrame>)
    requires frames != [] && frames[|frames| - 1].variables == map[]
    ensures var bound := BindParameters(frames, ["a", "b"], [Int(1), Int(2)], 0);
      bound.Ok? && Lookup(bound.value, "a") == Some(Int(1)) && Lookup(bound.value, "b") == Some(Int(2))
  {
    var withA := Define(frames, "a", Int(1)).value;
    var withB := Define(withA, "b", Int(2)).value;
    DefineBinds(frames, "a", Int(1), "a");
    DefineBinds(withA, "b", Int(2), "a");
    DefineBinds(withA, "b", Int(2), "b");
    assert BindParameters(frames, ["a", "b"], [Int(1), Int(2)], 0) == Ok(withB);
  }

  // ---------------------------------------------------------------------
  // Sources

  /** A source without `main` fails. */
  lemma MissingMain(frames: seq<RFrame>)
    requires frames != [] && LookupFunction(frames, "main", 0).None?
    ensures RunSource(frames, A.Source([], []), 0) == Call(Err(Runtime), frames)
  {
  }

  /** The fields are bound before `main` runs, and `main` sees them: a
      source with one field x = lit whose main returns x yields lit. */
  lemma MainSeesFields(frames: seq<RFrame>, x: string, lit: A.Lit, fuel: nat)
    requires frames != []
    requires x !in frames[|frames| - 1].variables && ("main", 0) !in frames[|frames| - 1].functions
    ensures var main := A.Method("main", [], [], None, [A.Return(A.Access(None, x))]);
      var src := A.Source([A.Field(x, None, Some(A.Literal(lit)))], [main]);
      RunSource(frames, src, fuel).outcome == Ok(LitValue(lit))
  {
    var main := A.Method("main", [], [], None, [A.Return(A.Access(None, x))]);
    var src := A.Source([A.Field(x, None, Some(A.Literal(lit)))], [main]);
    var fielded := Define(frames, x, LitValue(lit)).value;
    DefineBinds(frames, x, LitValue(lit), x);
    assert FieldsFrom(frames, src.fields, 0) == Call(Ok(Nil), fielded);
    var defined := DefineFunction(fielded, "main", 0, Closure(main)).value;
    assert MethodsFrom(fielded, src.methods, 0) == Call(Ok(Nil), defined);
    assert LookupFunction(defined, "main", 0) == Some(Closure(main));
    assert Lookup(defined, x) == Some(LitValue(lit)) by {
      assert defined[..|frames| - 1] == fielded[..|frames| - 1];
    }
    InvokeReturns(defined, main, A.Access(None, x), fuel, LitValue(lit));
  }
}
