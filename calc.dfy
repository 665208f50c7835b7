/**
 * The calculator (internal/tools/calc/calc.go). Go's expression parser and `strconv.ParseFloat`
 * are parameters; the tree walk `evalAST`, the input normalisation `preprocess` and `Percentage`
 * are modelled on exact real numbers, with the one non-number the walk can produce (NaN from
 * `math.Mod` by zero) kept explicit.
 */
module Calc {
  import opened Basics
  import opened Text

  /** A float64 result without rounding: an exact real, or NaN. */
  datatype Value = Num(r: real) | NaN

  /** `token.INT`, `token.FLOAT`, `token.IMAG`, `token.CHAR`, `token.STRING`. */
  datatype LitKind = IntLit | FloatLit | ImagLit | CharLit | StringLit

  /** Binary operators: the five `evalAST` knows, and every other Go operator token. */
  datatype BinOp = Add | Sub | Mul | Quo | Rem | OtherBinOp(token: string)

  /** Unary operators: `+`, `-`, and every other Go unary token (`!`, `^`, `&`, `<-`, `~`). */
  datatype UnOp = Plus | Minus | OtherUnOp(token: string)

  /** The `go/ast` expression nodes `evalAST` distinguishes; every other node kind is `OtherNode`. */
  datatype Expr =
    | BasicLit(kind: LitKind, literal: string)
    | Binary(op: BinOp, x: Expr, y: Expr)
    | Paren(inner: Expr)
    | Unary(unop: UnOp, operand: Expr)
    | OtherNode(nodeKind: string)

  datatype CalcError =
    | InvalidExpression
    | InvalidNumber(literal: string)
    | UnsupportedLiteral
    | DivisionByZero
    | UnsupportedOperator(token: string)
    | UnsupportedUnaryOperator(token: string)
    | UnsupportedExpression

  datatype Result = Ok(value: Value) | Error(error: CalcError)

  /** Go's `strconv.ParseFloat(s, 64)` without rounding: `None` is a parse error. */
  type FloatParser = string -> Option<real>

  /** Go's `parser.ParseExpr`: `None` is a syntax error. */
  type ExprParser = string -> Option<Expr>

  /** `preprocess`: every space removed, every comma turned into a dot. */
  function Preprocess(expr: string): (r: string)
    ensures forall i :: 0 <= i < |r| ==> r[i] != ' ' && r[i] != ','
  {
    var noSpaces := ReplaceChar(expr, ' ', "");
    var r := ReplaceChar(noSpaces, ',', ".");
    assert forall i :: 0 <= i < |r| ==> r[i] != ',';
    NoSpaceSurvivesComma(noSpaces);
    r
  }

  lemma {:induction false} NoSpaceSurvivesComma(s: string)
    requires forall i :: 0 <= i < |s| ==> s[i] != ' '
    ensures forall i :: 0 <= i < |ReplaceChar(s, ',', ".")| ==> ReplaceChar(s, ',', ".")[i] != ' '
    decreases |s|
  {
    if |s| > 0 {
      NoSpaceSurvivesComma(s[1..]);
    }
  }

  /** Normalising an already normalised expression changes nothing. */
  lemma PreprocessIdempotent(expr: string)
    ensures Preprocess(Preprocess(expr)) == Preprocess(expr)
  {
    var p := Preprocess(expr);
    ReplaceCharAbsent(p, ' ', "");
    ReplaceCharAbsent(p, ',', ".");
  }

  /** `preprocess` distributes over concatenation. */
  lemma PreprocessConcat(a: string, b: string)
    ensures Preprocess(a + b) == Preprocess(a) + Preprocess(b)
  {
    ReplaceCharConcat(a, b, ' ', "");
    ReplaceCharConcat(ReplaceChar(a, ' ', ""), ReplaceChar(b, ' ', ""), ',', ".");
  }

  /** What `preprocess` makes of one character: a space vanishes, a comma becomes a dot. */
  function Normalised(c: char): string {
    if c == ' ' then "" else if c == ',' then "." else [c]
  }

  /**
   * `preprocess` works character by character, so "3,14 * 2" is read as "3.14*2": the Russian
   * decimal comma becomes Go's decimal point.
   */
  lemma PreprocessCons(c: char, s: string)
    ensures Preprocess([c] + s) == Normalised(c) + Preprocess(s)
  {
    assert ([c] + s)[1..] == s;
    var head := if c == ' ' then "" else [c];
    assert ReplaceChar([c] + s, ' ', "") == head + ReplaceChar(s, ' ', "");
    ReplaceCharConcat(head, ReplaceChar(s, ' ', ""), ',', ".");
    if c != ' ' {
      assert head[1..] == [];
    }
  }

  /** Go's float64 `x - y*trunc(x/y)` rounding aside: `math.Mod`, NaN when `y` is zero. */
  function FMod(x: Value, y: Value): (r: Value)
    ensures (y == Num(0.0) || x == NaN || y == NaN) <==> r == NaN
  {
    if x.NaN? || y.NaN? || y.r == 0.0 then NaN
    else
      var q := x.r / y.r;
      var t := if q >= 0.0 then q.Floor else -((-q).Floor);
      Num(x.r - y.r * t as real)
  }

  /** The result of one of the four arithmetic operators, NaN in and NaN out. */
  function Arith(op: BinOp, x: Value, y: Value): (r: Value)
    requires op.Add? || op.Sub? || op.Mul? || (op.Quo? && y != Num(0.0))
  {
    if x.NaN? || y.NaN? then NaN
    else match op
      case Add => Num(x.r + y.r)
      case Sub => Num(x.r - y.r)
      case Mul => Num(x.r * y.r)
      case Quo => Num(x.r / y.r)
  }

  /** `evalAST`: left operand first, then right; the first error met is the one returned. */
  function EvalAST(n: Expr, parseFloat: FloatParser): (r: Result)
  {
    match n
    case BasicLit(kind, literal) =>
      if kind == IntLit || kind == FloatLit then
        (match parseFloat(literal)
         case Some(v) => Ok(Num(v))
         case None => Error(InvalidNumber(literal)))
      else Error(UnsupportedLiteral)
    case Binary(op, x, y) =>
      var left := EvalAST(x, parseFloat);
      if left.Error? then left
      else
        var right := EvalAST(y, parseFloat);
        if right.Error? then right
        else (match op
          case Quo => if right.value == Num(0.0) then Error(DivisionByZero) else Ok(Arith(Quo, left.value, right.value))
          case Rem => Ok(FMod(left.value, right.value))
          case OtherBinOp(t) => Error(UnsupportedOperator(t))
          case _ => Ok(Arith(op, left.value, right.value)))
    case Paren(inner) => EvalAST(inner, parseFloat)
    case Unary(unop, operand) =>
      var v := EvalAST(operand, parseFloat);
      if v.Error? then v
      else (match unop
        case Minus => Ok(if v.value.NaN? then NaN else Num(-v.value.r))
        case Plus => v
        case OtherUnOp(t) => Error(UnsupportedUnaryOperator(t)))
    case OtherNode(_) => Error(UnsupportedExpression)
  }

  /** `Eval`: normalise, parse, walk. */
  function Eval(expr: string, parse: ExprParser, parseFloat: FloatParser): (r: Result)
    ensures parse(Preprocess(expr)).None? ==> r == Error(InvalidExpression)
    ensures parse(Preprocess(expr)).Some? ==> r == EvalAST(parse(Preprocess(expr)).value, parseFloat)
  {
    match parse(Preprocess(expr))
    case None => Error(InvalidExpression)
    case Some(n) => EvalAST(n, parseFloat)
  }

  /** Normalising the input first changes nothing: "3,14*2" evaluates as "3.14*2" does. */
  lemma EvalNormalised(expr: string, parse: ExprParser, parseFloat: FloatParser)
    ensures Eval(Preprocess(expr), parse, parseFloat) == Eval(expr, parse, parseFloat)
  {
    PreprocessIdempotent(expr);
  }

  /** A decimal comma anywhere evaluates as a decimal point: "3,14*2" as "3.14*2". */
  lemma EvalDecimalComma(before: string, after: string, parse: ExprParser, parseFloat: FloatParser)
    ensures Eval(before + "," + after, parse, parseFloat) == Eval(before + "." + after, parse, parseFloat)
  {
    PreprocessConcat(before + ",", after);
    PreprocessConcat(before, ",");
    PreprocessConcat(before + ".", after);
    PreprocessConcat(before, ".");
    assert Preprocess(",") == "." == Preprocess(".");
  }

  /**
   * What `Eval` can return: "invalid expression" exactly when the normalised text does not parse;
   * a result only for a parsed tree of supported nodes, where the only error left is a division by
   * zero, and that needs a `/` in the tree.
   */
  lemma EvalOutcomes(expr: string, parse: ExprParser, parseFloat: FloatParser)
    ensures var t := parse(Preprocess(expr)); var r := Eval(expr, parse, parseFloat);
            (r == Error(InvalidExpression) <==> t.None?)
            && (r.Ok? <==> t.Some? && EvalAST(t.value, parseFloat).Ok?)
            && (r.Ok? ==> t.Some? && Supported(t.value, parseFloat))
            && (t.Some? && Supported(t.value, parseFloat) ==> r.Ok? || r == Error(DivisionByZero))
            && (r == Error(DivisionByZero) ==> t.Some? && HasDivision(t.value))
  {
    var t := parse(Preprocess(expr));
    if t.Some? {
      EvalErrors(t.value, parseFloat);
    }
  }

  /** `Percentage(percent, value) = value * percent / 100`. */
  function Percentage(percent: real, value: real): (r: real)
    ensures percent == 100.0 ==> r == value
    ensures value * percent == 100.0 * r
  {
    value * percent / 100.0
  }

  /** The two cases the calculator's tests check. */
  lemma PercentageExamples()
    ensures Percentage(15.0, 2500.0) == 375.0
    ensures Percentage(50.0, 200.0) == 100.0
  {
  }

  /** Every node in the tree is one `evalAST` evaluates without complaint, division aside. */
  predicate Supported(n: Expr, parseFloat: FloatParser) {
    match n
    case BasicLit(kind, literal) => (kind == IntLit || kind == FloatLit) && parseFloat(literal).Some?
    case Binary(op, x, y) => !op.OtherBinOp? && Supported(x, parseFloat) && Supported(y, parseFloat)
    case Paren(inner) => Supported(inner, parseFloat)
    case Unary(unop, operand) => !unop.OtherUnOp? && Supported(operand, parseFloat)
    case OtherNode(_) => false
  }

  /** The tree contains a division. */
  predicate HasDivision(n: Expr) {
    match n
    case BasicLit(_, _) => false
    case Binary(op, x, y) => op == Quo || HasDivision(x) || HasDivision(y)
    case Paren(inner) => HasDivision(inner)
    case Unary(_, operand) => HasDivision(operand)
    case OtherNode(_) => false
  }

  /**
   * Error structure of the walk: a tree of supported nodes fails only by dividing by zero, and a tree
   * containing any unsupported literal, operator or node kind always fails.
   */
  lemma {:induction false} EvalErrors(n: Expr, parseFloat: FloatParser)
    ensures EvalAST(n, parseFloat).Ok? ==> Supported(n, parseFloat)
    ensures Supported(n, parseFloat) && EvalAST(n, parseFloat).Error? ==> EvalAST(n, parseFloat).error == DivisionByZero
    ensures EvalAST(n, parseFloat) == Error(DivisionByZero) ==> HasDivision(n)
    ensures EvalAST(n, parseFloat) != Error(InvalidExpression)
  {
    match n
    case BasicLit(_, _) =>
    case Binary(op, x, y) =>
      EvalErrors(x, parseFloat);
      EvalErrors(y, parseFloat);
    case Paren(inner) =>
      EvalErrors(inner, parseFloat);
    case Unary(_, operand) =>
      EvalErrors(operand, parseFloat);
    case OtherNode(_) =>
  }

  /** Errors pass through a binary node unchanged, the left operand's first, and through a unary node. */
  lemma ErrorPropagation(op: BinOp, unop: UnOp, x: Expr, y: Expr, parseFloat: FloatParser)
    ensures EvalAST(x, parseFloat).Error? ==> EvalAST(Binary(op, x, y), parseFloat) == EvalAST(x, parseFloat)
    ensures EvalAST(x, parseFloat).Ok? && EvalAST(y, parseFloat).Error?
            ==> EvalAST(Binary(op, x, y), parseFloat) == EvalAST(y, parseFloat)
    ensures EvalAST(x, parseFloat).Error? ==> EvalAST(Unary(unop, x), parseFloat) == EvalAST(x, parseFloat)
  {
  }

  /** Division by a right operand equal to zero is an error whatever the left operand is. */
  lemma DivisionByZeroFails(x: Expr, y: Expr, parseFloat: FloatParser)
    requires EvalAST(x, parseFloat).Ok? && EvalAST(y, parseFloat) == Ok(Num(0.0))
    ensures EvalAST(Binary(Quo, x, y), parseFloat) == Error(DivisionByZero)
  {
  }

  /** Parentheses are transparent, unary minus negates, unary plus is the identity. */
  lemma UnaryAndParen(x: Expr, parseFloat: FloatParser)
    ensures EvalAST(Paren(x), parseFloat) == EvalAST(x, parseFloat)
    ensures EvalAST(Unary(Plus, x), parseFloat) == EvalAST(x, parseFloat)
    ensures EvalAST(x, parseFloat).Ok? && EvalAST(x, parseFloat).value.Num?
            ==> EvalAST(Unary(Minus, x), parseFloat) == Ok(Num(-EvalAST(x, parseFloat).value.r))
  {
  }

  /** `10 % 0` is NaN, not an error: only `/` checks for a zero divisor. */
  lemma RemainderByZeroIsNaN(x: Expr, y: Expr, parseFloat: FloatParser)
    requires EvalAST(x, parseFloat).Ok? && EvalAST(y, parseFloat) == Ok(Num(0.0))
    ensures EvalAST(Binary(Rem, x, y), parseFloat) == Ok(NaN)
  {
  }
}
