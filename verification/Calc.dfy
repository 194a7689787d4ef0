/** The arithmetic expressions of the calculator tool: their grammar with its meaning, and the
    recursive-descent parser as functions of the input and a position. Everything is stated for
    an arbitrary arithmetic, so it holds for floating-point numbers with all their rounding. */
module Calc {
  import opened Wrappers
  import opened Whitespace

  // ---- characters ----

  predicate IsDigit(c: char) {
    '0' <= c <= '9'
  }

  // ---- numbers ----

  /** A floating-point number, known by its bits. */
  datatype Float = Float(bits: nat)

  /** How to calculate with them. `parse` fails on numerals that stand for no such number. */
  datatype Arith = Arith(
    parse: string -> Option<Float>,
    neg: Float -> Float,
    add: (Float, Float) -> Float,
    sub: (Float, Float) -> Float,
    mul: (Float, Float) -> Float,
    div: (Float, Float) -> Float,
    isZero: Float -> bool)

  /** Digits with at most one point among them, and none once a point was seen. */
  predicate NumberText(x: string, dotSeen: bool) {
    x != "" ==>
      if x[0] == '.' then !dotSeen && NumberText(x[1..], true) else IsDigit(x[0]) && NumberText(x[1..], dotSeen)
  }

  predicate IsNumeral(lexeme: string) {
    lexeme != "" && NumberText(lexeme, false)
  }

  // ---- the grammar ----

  /** Derivation trees. `ws` is the white space in front of a token. */
  datatype Factor =
    | Plus(ws: string, f: Factor)
    | Minus(ws: string, f: Factor)
    | Paren(ws: string, e: Expr, wsEnd: string)
    | Num(ws: string, lexeme: string)

  datatype Term =
    | OneFactor(f: Factor)
    | Mul(t: Term, ws: string, f: Factor)
    | Div(t: Term, ws: string, f: Factor)

  datatype Expr =
    | OneTerm(t: Term)
    | Add(e: Expr, ws: string, t: Term)
    | Sub(e: Expr, ws: string, t: Term)

  predicate WellFormedF(f: Factor) {
    match f
    case Plus(ws, g) => AllSpace(ws) && WellFormedF(g)
    case Minus(ws, g) => AllSpace(ws) && WellFormedF(g)
    case Paren(ws, e, wsEnd) => AllSpace(ws) && WellFormedE(e) && AllSpace(wsEnd)
    case Num(ws, lexeme) => AllSpace(ws) && IsNumeral(lexeme)
  }

  predicate WellFormedT(t: Term) {
    match t
    case OneFactor(f) => WellFormedF(f)
    case Mul(l, ws, f) => WellFormedT(l) && AllSpace(ws) && WellFormedF(f)
    case Div(l, ws, f) => WellFormedT(l) && AllSpace(ws) && WellFormedF(f)
  }

  predicate WellFormedE(e: Expr) {
    match e
    case OneTerm(t) => WellFormedT(t)
    case Add(l, ws, t) => WellFormedE(l) && AllSpace(ws) && WellFormedT(t)
    case Sub(l, ws, t) => WellFormedE(l) && AllSpace(ws) && WellFormedT(t)
  }

  /** The text of a tree. */
  function YieldF(f: Factor): string {
    match f
    case Plus(ws, g) => ws + ("+" + YieldF(g))
    case Minus(ws, g) => ws + ("-" + YieldF(g))
    case Paren(ws, e, wsEnd) => ws + ("(" + (YieldE(e) + (wsEnd + ")")))
    case Num(ws, lexeme) => ws + lexeme
  }

  function YieldT(t: Term): string {
    match t
    case OneFactor(f) => YieldF(f)
    case Mul(l, ws, f) => YieldT(l) + (ws + ("*" + YieldF(f)))
    case Div(l, ws, f) => YieldT(l) + (ws + ("/" + YieldF(f)))
  }

  function YieldE(e: Expr): string {
    match e
    case OneTerm(t) => YieldT(t)
    case Add(l, ws, t) => YieldE(l) + (ws + ("+" + YieldT(t)))
    case Sub(l, ws, t) => YieldE(l) + (ws + ("-" + YieldT(t)))
  }

  datatype CalcError =
    | EmptyExpression
    | ExpectedNumber(pos: nat)
    | InvalidNumber(lexeme: string)
    | DivisionByZero
    | MissingParen(pos: nat)
    | UnexpectedToken(pos: nat)

  /** An error of a number or a division rather than of the text's form. */
  predicate IsValueError(e: CalcError) {
    e.InvalidNumber? || e.DivisionByZero?
  }

  /** The value of a tree, or the leftmost number or division that has none. */
  function ValueF(a: Arith, f: Factor): (r: Result<Float, CalcError>)
    ensures r.Err? ==> IsValueError(r.error)
    decreases f
  {
    match f
    case Plus(_, g) => ValueF(a, g)
    case Minus(_, g) => Negated(a, ValueF(a, g))
    case Paren(_, e, _) => ValueE(a, e)
    case Num(_, lexeme) => Numeral(a, lexeme)
  }

  function ValueT(a: Arith, t: Term): (r: Result<Float, CalcError>)
    ensures r.Err? ==> IsValueError(r.error)
    decreases t
  {
    match t
    case OneFactor(f) => ValueF(a, f)
    case Mul(l, _, f) => Both(a.mul, ValueT(a, l), ValueF(a, f))
    case Div(l, _, f) => Quotient(a, ValueT(a, l), ValueF(a, f))
  }

  function ValueE(a: Arith, e: Expr): (r: Result<Float, CalcError>)
    ensures r.Err? ==> IsValueError(r.error)
    decreases e
  {
    match e
    case OneTerm(t) => ValueT(a, t)
    case Add(l, _, t) => Both(a.add, ValueE(a, l), ValueT(a, t))
    case Sub(l, _, t) => Both(a.sub, ValueE(a, l), ValueT(a, t))
  }

  function Numeral(a: Arith, lexeme: string): Result<Float, CalcError> {
    var v := a.parse(lexeme);
    if v.Some? then Ok(v.value) else Err(InvalidNumber(lexeme))
  }

  function Negated(a: Arith, x: Result<Float, CalcError>): Result<Float, CalcError> {
    if x.Ok? then Ok(a.neg(x.value)) else x
  }

  function Both(op: (Float, Float) -> Float, x: Result<Float, CalcError>, y: Result<Float, CalcError>): Result<Float, CalcError> {
    if x.Err? then x else if y.Err? then y else Ok(op(x.value, y.value))
  }

  function Quotient(a: Arith, x: Result<Float, CalcError>, y: Result<Float, CalcError>): Result<Float, CalcError> {
    if x.Ok? && y.Ok? && a.isZero(y.value) then Err(DivisionByZero) else Both(a.div, x, y)
  }

  /** The whole input is an expression, possibly followed by white space. */
  predicate Derives(e: Expr, ws: string, s: string) {
    WellFormedE(e) && AllSpace(ws) && s == YieldE(e) + ws
  }

  // ---- the parser ----

  datatype Parsed = Good(value: Float, next: nat) | Fail(error: CalcError)

  function SkipWS(s: string, pos: nat): (n: nat)
    requires pos <= |s|
    ensures pos <= n <= |s| && (n < |s| ==> !IsSpace(s[n]))
    decreases |s| - pos
  {
    if pos < |s| && IsSpace(s[pos]) then SkipWS(s, pos + 1) else pos
  }

  predicate At(s: string, pos: nat, c: char) {
    pos < |s| && s[pos] == c
  }

  /** The end of the longest numeral from here on, where at most one point may come. */
  function NumEnd(s: string, pos: nat, dotSeen: bool): (n: nat)
    requires pos <= |s|
    ensures pos <= n <= |s|
    decreases |s| - pos
  {
    if At(s, pos, '.') && !dotSeen then NumEnd(s, pos + 1, true)
    else if pos < |s| && IsDigit(s[pos]) then NumEnd(s, pos + 1, dotSeen)
    else pos
  }

  /** A successful parse moves on. */
  predicate MovesOn(s: string, pos: nat, r: Parsed) {
    r.Good? ==> pos < r.next <= |s|
  }

  /** The value x of text that ends at `next`. */
  function Outcome(x: Result<Float, CalcError>, next: nat): Parsed {
    if x.Ok? then Good(x.value, next) else Fail(x.error)
  }

  function ParseNumber(a: Arith, s: string, pos: nat): (r: Parsed)
    requires pos <= |s|
    ensures MovesOn(s, pos, r)
  {
    var start := SkipWS(s, pos);
    var end := NumEnd(s, start, false);
    if start == end then Fail(if Blank(s) then EmptyExpression else ExpectedNumber(start))
    else Outcome(Numeral(a, s[start..end]), end)
  }

  function ParseFactor(a: Arith, s: string, pos: nat): (r: Parsed)
    requires pos <= |s|
    ensures MovesOn(s, pos, r)
    decreases |s| - pos, 0
  {
    var p := SkipWS(s, pos);
    if At(s, p, '+') then ParseFactor(a, s, p + 1)
    else if At(s, p, '-') then
      var r := ParseFactor(a, s, p + 1);
      if r.Good? then Good(a.neg(r.value), r.next) else r
    else if At(s, p, '(') then
      var r := ParseExpr(a, s, p + 1);
      if r.Fail? then r
      else
        var q := SkipWS(s, r.next);
        if At(s, q, ')') then Good(r.value, q + 1) else Fail(MissingParen(q))
    else ParseNumber(a, s, p)
  }

  /** Goes on behind a term's first factors, whose value is v. */
  function TermLoop(a: Arith, s: string, pos: nat, v: Float): (r: Parsed)
    requires pos <= |s|
    ensures r.Good? ==> pos <= r.next <= |s|
    decreases |s| - pos, 1
  {
    var p := SkipWS(s, pos);
    if At(s, p, '*') then
      var r := ParseFactor(a, s, p + 1);
      if r.Fail? then r else TermLoop(a, s, r.next, a.mul(v, r.value))
    else if At(s, p, '/') then
      var r := ParseFactor(a, s, p + 1);
      if r.Fail? then r
      else if a.isZero(r.value) then Fail(DivisionByZero)
      else TermLoop(a, s, r.next, a.div(v, r.value))
    else Good(v, p)
  }

  function ParseTerm(a: Arith, s: string, pos: nat): (r: Parsed)
    requires pos <= |s|
    ensures MovesOn(s, pos, r)
    decreases |s| - pos, 2
  {
    var r := ParseFactor(a, s, pos);
    if r.Fail? then r else TermLoop(a, s, r.next, r.value)
  }

  /** Goes on behind an expression's first terms, whose value is v. */
  function ExprLoop(a: Arith, s: string, pos: nat, v: Float): (r: Parsed)
    requires pos <= |s|
    ensures r.Good? ==> pos <= r.next <= |s|
    decreases |s| - pos, 3
  {
    var p := SkipWS(s, pos);
    if At(s, p, '+') then
      var r := ParseTerm(a, s, p + 1);
      if r.Fail? then r else ExprLoop(a, s, r.next, a.add(v, r.value))
    else if At(s, p, '-') then
      var r := ParseTerm(a, s, p + 1);
      if r.Fail? then r else ExprLoop(a, s, r.next, a.sub(v, r.value))
    else Good(v, p)
  }

  function ParseExpr(a: Arith, s: string, pos: nat): (r: Parsed)
    requires pos <= |s|
    ensures MovesOn(s, pos, r)
    decreases |s| - pos, 4
  {
    var r := ParseTerm(a, s, pos);
    if r.Fail? then r else ExprLoop(a, s, r.next, r.value)
  }

  function Eval(a: Arith, s: string): Result<Float, CalcError> {
    var r := ParseExpr(a, s, 0);
    if r.Fail? then Err(r.error)
    else if SkipWS(s, r.next) != |s| then Err(UnexpectedToken(SkipWS(s, r.next)))
    else Ok(r.value)
  }
}
