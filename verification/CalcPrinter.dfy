/** Syntax trees printed with as few parentheses as their shape allows: reading them back gives
    their meaning, so precedence and associativity are the usual ones. */
module CalcPrinter {
  import opened Wrappers
  import opened Whitespace
  import opened Calc
  import opened CalcFacts

  datatype Op = AddOp | SubOp | MulOp | DivOp

  /** A syntax tree. `ws` is white space to print in front of a node's token, `left` and `right`
      what to print in front of its parentheses where it needs them. */
  datatype Ast =
    | Lit(ws: string, lexeme: string)
    | Pos(ws: string, x: Ast)
    | Neg(ws: string, x: Ast)
    | Bin(l: Ast, ws: string, op: Op, r: Ast, left: string, right: string)

  predicate WellFormed(x: Ast) {
    match x
    case Lit(ws, lexeme) => AllSpace(ws) && IsNumeral(lexeme)
    case Pos(ws, y) => AllSpace(ws) && WellFormed(y)
    case Neg(ws, y) => AllSpace(ws) && WellFormed(y)
    case Bin(l, ws, _, r, left, right) =>
      WellFormed(l) && AllSpace(ws) && WellFormed(r) && AllSpace(left) && AllSpace(right)
  }

  predicate IsSum(x: Ast) {
    x.Bin? && (x.op.AddOp? || x.op.SubOp?)
  }

  predicate IsProduct(x: Ast) {
    x.Bin? && (x.op.MulOp? || x.op.DivOp?)
  }

  /** What a tree means, by its shape alone. */
  function Meaning(a: Arith, x: Ast): Result<Float, CalcError> {
    match x
    case Lit(_, lexeme) => Numeral(a, lexeme)
    case Pos(_, y) => Meaning(a, y)
    case Neg(_, y) => Negated(a, Meaning(a, y))
    case Bin(l, _, op, r, _, _) => Applied(a, op, Meaning(a, l), Meaning(a, r))
  }

  function Applied(a: Arith, op: Op, x: Result<Float, CalcError>, y: Result<Float, CalcError>): Result<Float, CalcError> {
    match op
    case AddOp => Both(a.add, x, y)
    case SubOp => Both(a.sub, x, y)
    case MulOp => Both(a.mul, x, y)
    case DivOp => Quotient(a, x, y)
  }

  // ---- printing ----

  function ProductOf(x: Ast): Term
    requires IsProduct(x)
    decreases x, 0
  {
    if x.op.MulOp? then Mul(ToTerm(x.l), x.ws, ToFactor(x.r)) else Div(ToTerm(x.l), x.ws, ToFactor(x.r))
  }

  function SumOf(x: Ast): Expr
    requires IsSum(x)
    decreases x, 0
  {
    if x.op.AddOp? then Add(ToExpr(x.l), x.ws, ToTerm(x.r)) else Sub(ToExpr(x.l), x.ws, ToTerm(x.r))
  }

  function ToFactor(x: Ast): Factor
    decreases x, 1
  {
    match x
    case Lit(ws, lexeme) => Num(ws, lexeme)
    case Pos(ws, y) => Plus(ws, ToFactor(y))
    case Neg(ws, y) => Minus(ws, ToFactor(y))
    case Bin(_, _, _, _, left, right) => Paren(left, if IsSum(x) then SumOf(x) else OneTerm(ProductOf(x)), right)
  }

  function ToTerm(x: Ast): Term
    decreases x, 2
  {
    if IsProduct(x) then ProductOf(x) else OneFactor(ToFactor(x))
  }

  function ToExpr(x: Ast): Expr
    decreases x, 3
  {
    if IsSum(x) then SumOf(x) else OneTerm(ToTerm(x))
  }

  function Print(x: Ast): string {
    YieldE(ToExpr(x))
  }

  // ---- printed trees mean what they say ----

  lemma {:induction false} ProductMeans(a: Arith, x: Ast)
    requires WellFormed(x) && IsProduct(x)
    ensures WellFormedT(ProductOf(x)) && ValueT(a, ProductOf(x)) == Meaning(a, x)
    decreases x, 0
  {
    TermMeans(a, x.l);
    FactorMeans(a, x.r);
  }

  lemma {:induction false} SumMeans(a: Arith, x: Ast)
    requires WellFormed(x) && IsSum(x)
    ensures WellFormedE(SumOf(x)) && ValueE(a, SumOf(x)) == Meaning(a, x)
    decreases x, 0
  {
    ExprMeans(a, x.l);
    TermMeans(a, x.r);
  }

  lemma {:induction false} FactorMeans(a: Arith, x: Ast)
    requires WellFormed(x)
    ensures WellFormedF(ToFactor(x)) && ValueF(a, ToFactor(x)) == Meaning(a, x)
    decreases x, 1
  {
    match x
    case Lit(_, _) =>
    case Pos(_, y) => FactorMeans(a, y);
    case Neg(_, y) => FactorMeans(a, y);
    case Bin(_, _, _, _, _, _) =>
      if IsSum(x) {
        SumMeans(a, x);
      } else {
        ProductMeans(a, x);
      }
  }

  lemma {:induction false} TermMeans(a: Arith, x: Ast)
    requires WellFormed(x)
    ensures WellFormedT(ToTerm(x)) && ValueT(a, ToTerm(x)) == Meaning(a, x)
    decreases x, 2
  {
    if IsProduct(x) {
      ProductMeans(a, x);
    } else {
      FactorMeans(a, x);
    }
  }

  lemma {:induction false} ExprMeans(a: Arith, x: Ast)
    requires WellFormed(x)
    ensures WellFormedE(ToExpr(x)) && ValueE(a, ToExpr(x)) == Meaning(a, x)
    decreases x, 3
  {
    if IsSum(x) {
      SumMeans(a, x);
    } else {
      TermMeans(a, x);
    }
  }

  /** Evaluating the printed form of any tree, with white space wherever it may stand, gives what
      the tree means. */
  lemma PrintedEvaluates(a: Arith, x: Ast, end: string)
    requires WellFormed(x) && AllSpace(end)
    ensures Eval(a, Print(x) + end) == Meaning(a, x)
  {
    ExprMeans(a, x);
    Complete(a, Print(x) + end, ToExpr(x), end);
  }

  // ---- when there is no value ----

  /** Every numeral of the tree stands for a number. */
  predicate AllNumbers(a: Arith, x: Ast) {
    match x
    case Lit(_, lexeme) => a.parse(lexeme).Some?
    case Pos(_, y) => AllNumbers(a, y)
    case Neg(_, y) => AllNumbers(a, y)
    case Bin(l, _, _, r, _, _) => AllNumbers(a, l) && AllNumbers(a, r)
  }

  /** Some divisor in the tree has a value, and it is zero. */
  predicate HasZeroDivisor(a: Arith, x: Ast) {
    match x
    case Lit(_, _) => false
    case Pos(_, y) => HasZeroDivisor(a, y)
    case Neg(_, y) => HasZeroDivisor(a, y)
    case Bin(l, _, op, r, _, _) =>
      || HasZeroDivisor(a, l) || HasZeroDivisor(a, r)
      || (op.DivOp? && Meaning(a, r).Ok? && a.isZero(Meaning(a, r).value))
  }

  /** With numbers for all numerals, evaluation fails exactly when some divisor is zero. */
  lemma {:induction false} FailsOnZeroOnly(a: Arith, x: Ast)
    requires AllNumbers(a, x)
    ensures HasZeroDivisor(a, x) <==> Meaning(a, x).Err?
    ensures HasZeroDivisor(a, x) <==> Meaning(a, x) == Err(DivisionByZero)
  {
    match x
    case Lit(_, _) =>
    case Pos(_, y) => FailsOnZeroOnly(a, y);
    case Neg(_, y) => FailsOnZeroOnly(a, y);
    case Bin(l, _, _, r, _, _) =>
      FailsOnZeroOnly(a, l);
      FailsOnZeroOnly(a, r);
  }
}
