/**
 * tools/calculator.py: the recursive evaluator over Python integers.  An
 * expression that produces a float has left the integer fragment; from there on
 * the model says nothing about it.
 */
module Calculator {

  datatype BinaryOp = Add | Sub | Mult | Div | FloorDiv | Mod | Pow | OtherBinary

  datatype UnaryOp = Plus | Minus | OtherUnary

  datatype Expr =
    | Int(n: int)
    | Float
    | OtherConstant                                   // a string, a bool, None, ...
    | Binary(op: BinaryOp, left: Expr, right: Expr)
    | Unary(sign: UnaryOp, operand: Expr)
    | Name(id: string)
    | Call(func: string, args: seq<Expr>, keywords: bool)
    | OtherNode                                       // any other syntax, calls of computed functions included

  datatype Problem = NumbersOnly | ExponentTooLarge | Unsupported | DivisionByZero | BadArguments

  datatype Result = Value(value: int) | Raised(problem: Problem) | LeftIntegers

  datatype Results = Values(values: seq<int>) | Stopped(result: Result)

  // ---- integer arithmetic as Python defines it ----

  function Abs(a: int): nat {
    if a < 0 then -a else a
  }

  /** a // b rounds towards negative infinity; Dafny's division does so for positive divisors only. */
  function PyFloorDiv(a: int, b: int): int
    requires b != 0
  {
    if b > 0 then a / b else (-a) / (-b)
  }

  function PyMod(a: int, b: int): int
    requires b != 0
  {
    a - b * PyFloorDiv(a, b)
  }

  /** The remainder lies between zero and the divisor and has the divisor's sign. */
  predicate RemainderOf(r: int, b: int) {
    if b > 0 then 0 <= r < b else b < r <= 0
  }

  function Power(b: int, e: nat): (p: int)
    ensures b >= 0 ==> p >= 0
  {
    if e == 0 then 1 else b * Power(b, e - 1)
  }

  function MinOf(values: seq<int>): int
    requires values != []
  {
    if |values| == 1 then values[0]
    else
      var rest := MinOf(values[1..]);
      if rest < values[0] then rest else values[0]
  }

  function MaxOf(values: seq<int>): int
    requires values != []
  {
    if |values| == 1 then values[0]
    else
      var rest := MaxOf(values[1..]);
      if rest > values[0] then rest else values[0]
  }

  // ---- evaluation ----

  function Apply(op: BinaryOp, a: int, b: int): Result {
    match op
    case Add => Value(a + b)
    case Sub => Value(a - b)
    case Mult => Value(a * b)
    case Div => if b == 0 then Raised(DivisionByZero) else LeftIntegers
    case FloorDiv => if b == 0 then Raised(DivisionByZero) else Value(PyFloorDiv(a, b))
    case Mod => if b == 0 then Raised(DivisionByZero) else Value(PyMod(a, b))
    case Pow =>
      if Abs(b) > 256 then Raised(ExponentTooLarge)
      else if b >= 0 then Value(Power(a, b))
      else if a == 0 then Raised(DivisionByZero)
      else LeftIntegers
    case OtherBinary => Raised(Unsupported)
  }

  function CallFunction(func: string, values: seq<int>): Result {
    if func in {"abs", "floor", "ceil"} then
      if |values| != 1 then Raised(BadArguments)
      else Value(if func == "abs" then Abs(values[0]) else values[0])
    else if func in {"min", "max"} then
      if |values| < 2 then Raised(BadArguments)
      else Value(if func == "min" then MinOf(values) else MaxOf(values))
    else if func == "round" && |values| == 1 then Value(values[0])
    else LeftIntegers
  }

  predicate KnownFunction(func: string) {
    func in {"sqrt", "abs", "round", "min", "max", "floor", "ceil", "log"}
  }

  function Eval(e: Expr): Result
    decreases e
  {
    match e
    case Int(n) => Value(n)
    case Float => LeftIntegers
    case OtherConstant => Raised(NumbersOnly)
    case Binary(op, left, right) =>
      if op.OtherBinary? then Raised(Unsupported)
      else
        var a := Eval(left);
        if !a.Value? then a
        else
          var b := Eval(right);
          if !b.Value? then b else Apply(op, a.value, b.value)
    case Unary(sign, operand) =>
      if sign.OtherUnary? then Raised(Unsupported)
      else
        var a := Eval(operand);
        if a.Value? && sign.Minus? then Value(-a.value) else a
    case Name(id) => if id == "pi" || id == "e" then LeftIntegers else Raised(Unsupported)
    case Call(func, args, keywords) =>
      if !KnownFunction(func) || keywords then Raised(Unsupported)
      else
        var rs := EvalAll(args);
        if rs.Stopped? then rs.result else CallFunction(func, rs.values)
    case OtherNode => Raised(Unsupported)
  }

  /** Arguments from left to right, up to the first that has no integer value. */
  function EvalAll(es: seq<Expr>): (rs: Results)
    ensures rs.Stopped? ==> !rs.result.Value?
    ensures rs.Values? ==> |rs.values| == |es|
    decreases es
  {
    if es == [] then Values([])
    else
      var first := Eval(es[0]);
      if !first.Value? then Stopped(first)
      else
        var rest := EvalAll(es[1..]);
        if rest.Stopped? then rest else Values([first.value] + rest.values)
  }

  // ---- what expressions mean, by the laws of integer arithmetic ----

  function Product(values: seq<int>): int {
    if values == [] then 1 else values[0] * Product(values[1..])
  }

  /** `n` is a quotient or remainder of a by b as Python defines them. */
  predicate DivisionOf(a: int, b: int, q: int, r: int) {
    a == b * q + r && (0 <= r < b || b < r <= 0)
  }

  /** `n` is what the operator makes of a and b. */
  ghost predicate Yields(op: BinaryOp, a: int, b: int, n: int) {
    match op
    case Add => n - b == a
    case Sub => n + b == a
    case Mult => n == a * b
    case FloorDiv => exists r :: DivisionOf(a, b, n, r)
    case Mod => exists q :: DivisionOf(a, b, q, n)
    case Pow => 0 <= b <= 256 && n == Product(seq(b, i => a))
    case _ => false
  }

  /** `n` is what the function makes of the arguments. */
  ghost predicate Returns(func: string, args: seq<int>, n: int) {
    if func == "abs" then |args| == 1 && n >= 0 && (n == args[0] || n == -args[0])
    else if func == "floor" || func == "ceil" || func == "round" then args == [n]
    else if func == "min" then |args| >= 2 && n in args && forall k :: 0 <= k < |args| ==> n <= args[k]
    else if func == "max" then |args| >= 2 && n in args && forall k :: 0 <= k < |args| ==> args[k] <= n
    else false
  }

  /** The expression has integer value n. */
  ghost predicate Denotes(e: Expr, n: int)
    decreases e
  {
    match e
    case Int(m) => n == m
    case Binary(op, left, right) => exists a, b :: Denotes(left, a) && Denotes(right, b) && Yields(op, a, b, n)
    case Unary(sign, operand) =>
      exists a :: Denotes(operand, a) && ((sign.Plus? && n == a) || (sign.Minus? && n + a == 0))
    case Call(func, args, keywords) => !keywords && exists values :: DenoteAll(args, values) && Returns(func, values, n)
    case _ => false
  }

  ghost predicate DenoteAll(es: seq<Expr>, values: seq<int>)
    decreases es
  {
    |es| == |values| && (es == [] || (Denotes(es[0], values[0]) && DenoteAll(es[1..], values[1..])))
  }

  lemma {:induction false} PowerIsProduct(b: int, e: nat)
    ensures Power(b, e) == Product(seq(e, i => b))
  {
    if e > 0 {
      PowerIsProduct(b, e - 1);
      assert seq(e, i => b)[1..] == seq(e - 1, i => b);
    }
  }

  lemma ApplyYields(op: BinaryOp, a: int, b: int, n: int)
    ensures Apply(op, a, b) == Value(n) <==> Yields(op, a, b, n)
  {
    match op
    case FloorDiv => DivisionYields(a, b, n);
    case Mod => DivisionYields(a, b, n);
    case Pow =>
      if 0 <= b <= 256 {
        PowerIsProduct(a, b);
      }
    case _ =>
  }

  lemma DivisionYields(a: int, b: int, n: int)
    ensures (b != 0 && n == PyFloorDiv(a, b)) <==> exists r :: DivisionOf(a, b, n, r)
    ensures (b != 0 && n == PyMod(a, b)) <==> exists q :: DivisionOf(a, b, q, n)
  {
    if b != 0 {
      DivisionExists(a, b);
      forall q, r | DivisionOf(a, b, q, r) ensures q == PyFloorDiv(a, b) && r == PyMod(a, b) {
        FloorDivisionLaw(a, b, q, r);
      }
      hide PyFloorDiv, PyMod, DivisionOf;
    }
  }

  lemma DivisionExists(a: int, b: int)
    requires b != 0
    ensures DivisionOf(a, b, PyFloorDiv(a, b), PyMod(a, b))
  {
    FloorDivisionLaw(a, b, PyFloorDiv(a, b), PyMod(a, b));
  }

  lemma CallReturns(func: string, values: seq<int>, n: int)
    ensures KnownFunction(func) && CallFunction(func, values) == Value(n) <==> Returns(func, values, n)
  {
    if values != [] {
      MinMaxLaw(values);
    }
  }

  /** Evaluation yields an integer exactly when the expression has one, and that one. */
  lemma {:induction false} EvalMeans(e: Expr, n: int)
    ensures Eval(e) == Value(n) <==> Denotes(e, n)
    decreases e, 1
  {
    hide Apply, Yields, Returns, CallFunction, KnownFunction;
    match e
    case Binary(op, left, right) => BinaryMeans(op, left, right, n);
    case Unary(sign, operand) =>
      forall a ensures Eval(operand) == Value(a) <==> Denotes(operand, a) {
        EvalMeans(operand, a);
      }
    case Call(func, args, keywords) => CallMeans(func, args, keywords, n);
    case _ =>
  }

  lemma BinaryMeans(op: BinaryOp, left: Expr, right: Expr, n: int)
    ensures Eval(Binary(op, left, right)) == Value(n) <==> Denotes(Binary(op, left, right), n)
    decreases Binary(op, left, right), 0
  {
    forall a ensures Eval(left) == Value(a) <==> Denotes(left, a) {
      EvalMeans(left, a);
    }
    forall b ensures Eval(right) == Value(b) <==> Denotes(right, b) {
      EvalMeans(right, b);
    }
    forall a, b ensures Apply(op, a, b) == Value(n) <==> Yields(op, a, b, n) {
      ApplyYields(op, a, b, n);
    }
    OtherYieldsNothing(op, n);
    hide Apply, Yields;
  }

  lemma OtherYieldsNothing(op: BinaryOp, n: int)
    ensures op.OtherBinary? ==> forall a, b :: !Yields(op, a, b, n)
  {
  }

  lemma CallMeans(func: string, args: seq<Expr>, keywords: bool, n: int)
    ensures Eval(Call(func, args, keywords)) == Value(n) <==> Denotes(Call(func, args, keywords), n)
    decreases Call(func, args, keywords), 0
  {
    forall values ensures EvalAll(args) == Values(values) <==> DenoteAll(args, values) {
      AllMean(args, values);
    }
    forall values ensures KnownFunction(func) && CallFunction(func, values) == Value(n) <==> Returns(func, values, n) {
      CallReturns(func, values, n);
    }
    hide CallFunction, Returns, KnownFunction;
  }

  lemma {:induction false} AllMean(es: seq<Expr>, values: seq<int>)
    ensures EvalAll(es) == Values(values) <==> DenoteAll(es, values)
    decreases es
  {
    if es != [] && values != [] {
      EvalMeans(es[0], values[0]);
      AllMean(es[1..], values[1..]);
      assert values == [values[0]] + values[1..];
    }
  }

  // ---- which problem an expression raises ----

  /** Operands are evaluated from left to right and the first problem is the one raised. */
  lemma FirstProblem(op: BinaryOp, left: Expr, right: Expr)
    requires !op.OtherBinary?
    ensures var r := Eval(Binary(op, left, right));
      && (!Eval(left).Value? ==> r == Eval(left))
      && (Eval(left).Value? && !Eval(right).Value? ==> r == Eval(right))
      && (Eval(left).Value? && Eval(right).Value? ==>
           var a, b := Eval(left).value, Eval(right).value;
           && (r == Raised(ExponentTooLarge) <==> op == Pow && (b > 256 || b < -256))
           && (r == Raised(DivisionByZero) <==>
                (b == 0 && (op == Div || op == FloorDiv || op == Mod)) || (op == Pow && a == 0 && -256 <= b < 0))
           && (r == LeftIntegers <==>
                (op == Div && b != 0) || (op == Pow && a != 0 && -256 <= b < 0)))
  {
  }

  // ---- // and % against Dafny's own division ----

  lemma AbsProduct(a: int, b: int)
    ensures Abs(a * b) == Abs(a) * Abs(b)
  {
    if a < 0 && b < 0 {
      assert a * b == (-a) * (-b);
    } else if a < 0 {
      assert a * b == -((-a) * b);
    } else if b < 0 {
      assert a * b == -(a * (-b));
    }
  }

  lemma ProductAssociates(a: int, b: int, c: int)
    ensures a * (b * c) == (a * b) * c
  {
  }

  lemma ProductAtLeast(a: nat, b: nat)
    requires b >= 1
    ensures a * b >= a
  {
  }

  /** Exactly one quotient and remainder satisfy Python's law, and // and % yield them. */
  lemma FloorDivisionLaw(a: int, b: int, q: int, r: int)
    requires b != 0
    ensures a == b * q + r && RemainderOf(r, b) <==> q == PyFloorDiv(a, b) && r == PyMod(a, b)
  {
    var q0, r0 := PyFloorDiv(a, b), PyMod(a, b);
    assert RemainderOf(r0, b) by {
      if b < 0 {
        assert -a == (-b) * q0 + (-a) % (-b);
      }
    }
    if a == b * q + r && RemainderOf(r, b) && q != q0 {
      assert b * (q - q0) == r0 - r by {
        assert b * q - b * q0 == b * (q - q0);
      }
      AbsProduct(b, q - q0);
      ProductAtLeast(Abs(b), Abs(q - q0));
    }
  }

  /** Where // differs from the Euclidean quotient: inexact division by a negative number. */
  lemma FloorAgainstEuclid(a: int, b: int)
    requires b != 0
    ensures PyFloorDiv(a, b) == a / b - (if b < 0 && a % b != 0 then 1 else 0)
    ensures PyMod(a, b) == a % b + (if b < 0 && a % b != 0 then b else 0)
  {
    var adjust := if b < 0 && a % b != 0 then 1 else 0;
    assert b * (a / b - adjust) == b * (a / b) - b * adjust;
    FloorDivisionLaw(a, b, a / b - adjust, a % b + b * adjust);
  }

  /** A quotient larger than the dividend would leave no room for the remainder. */
  lemma QuotientShrinks(a: int, b: int)
    requires b != 0
    ensures Abs(PyFloorDiv(a, b)) <= Abs(a)
  {
    var q, r := PyFloorDiv(a, b), PyMod(a, b);
    FloorDivisionLaw(a, b, q, r);
    AbsProduct(b, q);
    SmallRemainder(a, b * q, r, Abs(b), Abs(q));
  }

  lemma SmallRemainder(a: int, product: int, r: int, x: nat, y: nat)
    requires a == product + r && Abs(r) < x && Abs(product) == x * y
    ensures y <= Abs(a)
  {
    if y > 0 {
      ProductExceeds(x, y);
    }
  }

  lemma ProductExceeds(x: nat, y: nat)
    requires x >= 1 && y >= 1
    ensures x * y >= x + y - 1
  {
    assert (x - 1) * (y - 1) >= 0;
  }

  lemma {:induction false} MinMaxLaw(values: seq<int>)
    requires values != []
    ensures MinOf(values) in values && forall k :: 0 <= k < |values| ==> MinOf(values) <= values[k]
    ensures MaxOf(values) in values && forall k :: 0 <= k < |values| ==> values[k] <= MaxOf(values)
  {
    if |values| > 1 {
      MinMaxLaw(values[1..]);
      assert forall k :: 1 <= k < |values| ==> values[k] == values[1..][k - 1];
    }
  }

  // ---- powers ----

  lemma {:induction false} PowerAdd(b: int, m: nat, n: nat)
    ensures Power(b, m + n) == Power(b, m) * Power(b, n)
  {
    if m > 0 {
      PowerAdd(b, m - 1, n);
      calc {
        Power(b, m + n);
        b * Power(b, m - 1 + n);
        b * (Power(b, m - 1) * Power(b, n));
        { ProductAssociates(b, Power(b, m - 1), Power(b, n)); }
        (b * Power(b, m - 1)) * Power(b, n);
        Power(b, m) * Power(b, n);
      }
    }
  }

  lemma {:induction false} PowerOfPower(b: int, m: nat, n: nat)
    ensures Power(Power(b, m), n) == Power(b, m * n)
  {
    if n == 0 {
      assert m * n == 0;
    } else {
      PowerOfPower(b, m, n - 1);
      assert m * n == m + m * (n - 1);
      PowerAdd(b, m, m * (n - 1));
    }
  }

  lemma {:induction false} PowerGrows(x: nat, m: nat, n: nat)
    requires x >= 1 && m <= n
    ensures 1 <= Power(x, m) <= Power(x, n)
    decreases n
  {
    if m < n {
      PowerGrows(x, m, n - 1);
      var p := Power(x, n - 1);
      assert x * p >= p;
    } else if n > 0 {
      PowerGrows(x, n - 1, n - 1);
      var p := Power(x, n - 1);
      assert x * p >= p;
    }
  }

  lemma {:induction false} PowerBounded(a: int, x: nat, e: nat)
    requires Abs(a) <= x
    ensures Abs(Power(a, e)) <= Power(x, e)
  {
    if e > 0 {
      PowerBounded(a, x, e - 1);
      var p, q := Power(a, e - 1), Power(x, e - 1);
      ProductBounded(a, p, x, q);
    }
  }

  lemma ProductBounded(a: int, b: int, x: nat, y: nat)
    requires Abs(a) <= x && Abs(b) <= y
    ensures Abs(a * b) <= x * y
  {
    AbsProduct(a, b);
    assert Abs(a) * Abs(b) <= x * Abs(b) <= x * y;
  }

  // ---- the magnitude bound ----

  function Larger(a: nat, b: nat): nat {
    if a < b then b else a
  }

  function Height(e: Expr): nat
    decreases e
  {
    match e
    case Binary(_, left, right) => 1 + Larger(Height(left), Height(right))
    case Unary(_, operand) => 1 + Height(operand)
    case Call(_, args, _) => 1 + HeightOfAll(args)
    case _ => 0
  }

  function HeightOfAll(es: seq<Expr>): nat
    decreases es
  {
    if es == [] then 0 else Larger(Height(es[0]), HeightOfAll(es[1..]))
  }

  /** The largest absolute integer constant of the expression, or 2. */
  function LargestConstant(e: Expr): nat
    decreases e
  {
    match e
    case Int(n) => Larger(2, Abs(n))
    case Binary(_, left, right) => Larger(LargestConstant(left), LargestConstant(right))
    case Unary(_, operand) => LargestConstant(operand)
    case Call(_, args, _) => LargestOfAll(args)
    case _ => 2
  }

  function LargestOfAll(es: seq<Expr>): nat
    decreases es
  {
    if es == [] then 2 else Larger(LargestConstant(es[0]), LargestOfAll(es[1..]))
  }

  /** M ^ (256 ^ h) */
  function Bound(m: nat, h: nat): int {
    Power(m, Power(256, h))
  }

  lemma BoundGrows(m: nat, g: nat, h: nat)
    requires m >= 2 && g <= h
    ensures 2 <= m <= Bound(m, g) <= Bound(m, h)
  {
    PowerGrows(256, 0, g);
    PowerGrows(256, g, h);
    PowerGrows(m, 1, Power(256, g));
    PowerGrows(m, Power(256, g), Power(256, h));
    assert Power(m, 1) == m * Power(m, 0);
  }

  lemma BoundStep(m: nat, h: nat)
    requires m >= 2
    ensures Bound(m, h + 1) == Power(Bound(m, h), 256)
  {
    PowerGrows(256, 0, h);
    PowerOfPower(m, Power(256, h), 256);
  }

  lemma SquareBelowPower(x: nat)
    requires x >= 2
    ensures x + x <= x * x <= Power(x, 256)
    ensures x <= Power(x, 256)
  {
    PowerGrows(x, 2, 256);
    assert Power(x, 2) == x * Power(x, 1) && Power(x, 1) == x * Power(x, 0);
    assert x * x >= 2 * x;
  }

  /** One operator raises the magnitude at most to its 256th power. */
  lemma ApplyBounded(op: BinaryOp, a: int, b: int, x: nat)
    requires x >= 2 && Abs(a) <= x && Abs(b) <= x && Apply(op, a, b).Value?
    ensures Abs(Apply(op, a, b).value) <= Power(x, 256)
  {
    SquareBelowPower(x);
    match op
    case Add =>
    case Sub =>
    case Mult => ProductBounded(a, b, x, x);
    case FloorDiv => QuotientShrinks(a, b);
    case Mod => FloorDivisionLaw(a, b, PyFloorDiv(a, b), PyMod(a, b));
    case Pow =>
      PowerBounded(a, x, b);
      PowerGrows(x, b, 256);
    case _ =>
  }

  /** Every integer value is bounded by the constants and the height alone. */
  lemma {:induction false} MagnitudeBounded(e: Expr, m: nat)
    requires LargestConstant(e) <= m && m >= 2
    ensures Eval(e).Value? ==> Abs(Eval(e).value) <= Bound(m, Height(e))
    decreases e
  {
    hide Bound, Apply, CallFunction, KnownFunction;
    BoundGrows(m, 0, Height(e));
    match e
    case Binary(op, left, right) =>
      var h := Larger(Height(left), Height(right));
      MagnitudeBounded(left, m);
      MagnitudeBounded(right, m);
      BoundGrows(m, Height(left), h);
      BoundGrows(m, Height(right), h);
      BoundStep(m, h);
      if Eval(e).Value? {
        ApplyBounded(op, Eval(left).value, Eval(right).value, Bound(m, h));
      }
    case Unary(_, operand) =>
      MagnitudeBounded(operand, m);
      BoundGrows(m, Height(operand), Height(e));
    case Call(func, args, _) =>
      ArgumentsBounded(args, m);
      BoundGrows(m, HeightOfAll(args), Height(e));
      if Eval(e).Value? {
        CallBounded(func, EvalAll(args).values, Bound(m, HeightOfAll(args)));
      }
    case _ =>
  }

  lemma {:induction false} ArgumentsBounded(es: seq<Expr>, m: nat)
    requires LargestOfAll(es) <= m && m >= 2
    ensures EvalAll(es).Values? ==>
      forall k :: 0 <= k < |es| ==> Abs(EvalAll(es).values[k]) <= Bound(m, HeightOfAll(es))
    decreases es
  {
    hide Bound;
    if es != [] {
      MagnitudeBounded(es[0], m);
      ArgumentsBounded(es[1..], m);
      BoundGrows(m, Height(es[0]), HeightOfAll(es));
      BoundGrows(m, HeightOfAll(es[1..]), HeightOfAll(es));
    }
  }

  lemma CallBounded(func: string, values: seq<int>, x: nat)
    requires (forall k :: 0 <= k < |values| ==> Abs(values[k]) <= x) && CallFunction(func, values).Value?
    ensures Abs(CallFunction(func, values).value) <= x
  {
    if values != [] {
      MinMaxLaw(values);
    }
  }

  // ---- the bound is attained ----

  /** ((m ** 256) ** 256) ..., h times. */
  function Tower(m: nat, h: nat): Expr {
    if h == 0 then Int(m) else Binary(Pow, Tower(m, h - 1), Int(256))
  }

  lemma {:induction false} TowerAttainsBound(m: nat, h: nat)
    requires m >= 256
    ensures Height(Tower(m, h)) == h && LargestConstant(Tower(m, h)) == m
    ensures Eval(Tower(m, h)) == Value(Bound(m, h))
  {
    if h == 0 {
      assert Power(256, 0) == 1 && Power(m, 1) == m * Power(m, 0);
    } else {
      TowerAttainsBound(m, h - 1);
      BoundStep(m, h - 1);
      hide Bound, Power;
    }
  }
}
