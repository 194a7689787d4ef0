/** The calculator accepts exactly the expressions of its grammar, with their values. */
module CalcFacts {
  import opened Wrappers
  import opened Whitespace
  import opened Calc

  // ---- pieces of the input ----

  /** The text y stands in s at pos. */
  predicate Has(s: string, pos: nat, y: string) {
    pos + |y| <= |s| && forall i :: 0 <= i < |y| ==> s[pos + i] == y[i]
  }

  lemma Split(s: string, pos: nat, a: string, b: string)
    requires Has(s, pos, a + b)
    ensures Has(s, pos, a) && Has(s, pos + |a|, b)
  {
    forall i | 0 <= i < |a| ensures s[pos + i] == a[i] {
      assert (a + b)[i] == a[i];
    }
    forall i | 0 <= i < |b| ensures s[pos + |a| + i] == b[i] {
      assert (a + b)[|a| + i] == b[i];
    }
  }

  lemma Join(s: string, pos: nat, a: string, b: string)
    requires Has(s, pos, a) && Has(s, pos + |a|, b)
    ensures Has(s, pos, a + b)
  {
    forall i | 0 <= i < |a + b| ensures s[pos + i] == (a + b)[i] {
      if i >= |a| {
        assert s[pos + |a| + (i - |a|)] == b[i - |a|];
      }
    }
  }

  lemma SpacesJoin(a: string, b: string)
    requires AllSpace(a) && AllSpace(b)
    ensures AllSpace(a + b)
  {
  }

  lemma {:induction false} SkipSpaces(s: string, pos: nat, ws: string)
    requires Has(s, pos, ws) && AllSpace(ws)
    requires pos + |ws| < |s| ==> !IsSpace(s[pos + |ws|])
    ensures SkipWS(s, pos) == pos + |ws|
    decreases |ws|
  {
    if ws != [] {
      assert s[pos] == ws[0] && ws == ws[..1] + ws[1..];
      Split(s, pos, ws[..1], ws[1..]);
      SkipSpaces(s, pos + 1, ws[1..]);
    }
  }

  /** White space and then the token c. */
  lemma SkipTo(s: string, pos: nat, ws: string, c: char, y: string)
    requires Has(s, pos, ws + ([c] + y)) && AllSpace(ws) && !IsSpace(c)
    ensures SkipWS(s, pos) == pos + |ws| && At(s, pos + |ws|, c) && Has(s, pos + |ws| + 1, y)
  {
    Split(s, pos, ws, [c] + y);
    Split(s, pos + |ws|, [c], y);
    assert s[pos + |ws|] == [c][0];
    SkipSpaces(s, pos, ws);
  }

  lemma {:induction false} SkipsSpace(s: string, pos: nat)
    requires pos <= |s|
    ensures AllSpace(s[pos..SkipWS(s, pos)])
    decreases |s| - pos
  {
    if pos < |s| && IsSpace(s[pos]) {
      SkipsSpace(s, pos + 1);
      assert s[pos..SkipWS(s, pos)] == [s[pos]] + s[pos + 1..SkipWS(s, pos + 1)];
    }
  }

  lemma SkipTwice(s: string, pos: nat)
    requires pos <= |s|
    ensures SkipWS(s, SkipWS(s, pos)) == SkipWS(s, pos)
  {
  }

  // ---- numerals ----

  /** No numeral goes on here. */
  predicate NumberStops(s: string, pos: nat) {
    pos < |s| ==> !IsDigit(s[pos]) && s[pos] != '.'
  }

  lemma {:induction false} NumberEnds(s: string, pos: nat, x: string, dotSeen: bool)
    requires Has(s, pos, x) && NumberText(x, dotSeen) && NumberStops(s, pos + |x|)
    ensures NumEnd(s, pos, dotSeen) == pos + |x|
    decreases |x|
  {
    if x != [] {
      assert s[pos] == x[0] && x == x[..1] + x[1..];
      Split(s, pos, x[..1], x[1..]);
      NumberEnds(s, pos + 1, x[1..], dotSeen || x[0] == '.');
    }
  }

  lemma {:induction false} NumEndText(s: string, pos: nat, dotSeen: bool)
    requires pos <= |s|
    ensures NumberText(s[pos..NumEnd(s, pos, dotSeen)], dotSeen)
    decreases |s| - pos
  {
    var end := NumEnd(s, pos, dotSeen);
    if end > pos {
      NumEndText(s, pos + 1, dotSeen || s[pos] == '.');
      assert s[pos..end][1..] == s[pos + 1..end];
    }
  }

  // ---- every expression is accepted, with its value ----

  lemma NumComplete(a: Arith, s: string, pos: nat, ws: string, lexeme: string)
    requires AllSpace(ws) && IsNumeral(lexeme) && Has(s, pos, ws + lexeme)
    requires NumberStops(s, pos + |ws + lexeme|)
    ensures ParseFactor(a, s, pos) == Outcome(Numeral(a, lexeme), pos + |ws + lexeme|)
  {
    assert lexeme == [lexeme[0]] + lexeme[1..];
    SkipTo(s, pos, ws, lexeme[0], lexeme[1..]);
    Split(s, pos, ws, lexeme);
    SkipTwice(s, pos);
    NumberEnds(s, pos + |ws|, lexeme, false);
    assert s[pos + |ws|..pos + |ws + lexeme|] == lexeme;
  }

  lemma {:induction false} FactorComplete(a: Arith, s: string, pos: nat, f: Factor)
    requires WellFormedF(f) && Has(s, pos, YieldF(f)) && NumberStops(s, pos + |YieldF(f)|)
    ensures ParseFactor(a, s, pos) == Outcome(ValueF(a, f), pos + |YieldF(f)|)
    decreases f, 1
  {
    match f
    case Plus(ws, g) =>
      Signed(s, pos, ws, '+', g);
      FactorComplete(a, s, pos + |ws| + 1, g);
      SignStep(a, s, pos);
    case Minus(ws, g) =>
      Signed(s, pos, ws, '-', g);
      FactorComplete(a, s, pos + |ws| + 1, g);
      SignStep(a, s, pos);
    case Paren(ws, e, wsEnd) =>
      ParenComplete(a, s, pos, f);
    case Num(ws, lexeme) =>
      NumComplete(a, s, pos, ws, lexeme);
  }

  lemma Signed(s: string, pos: nat, ws: string, c: char, g: Factor)
    requires Has(s, pos, ws + ([c] + YieldF(g))) && AllSpace(ws) && !IsSpace(c)
    ensures SkipWS(s, pos) == pos + |ws| && At(s, pos + |ws|, c) && Has(s, pos + |ws| + 1, YieldF(g))
    ensures pos + |ws| + 1 + |YieldF(g)| == pos + |ws + ([c] + YieldF(g))|
  {
    SkipTo(s, pos, ws, c, YieldF(g));
  }

  lemma SignStep(a: Arith, s: string, pos: nat)
    requires pos <= |s|
    ensures At(s, SkipWS(s, pos), '+') ==> ParseFactor(a, s, pos) == ParseFactor(a, s, SkipWS(s, pos) + 1)
    ensures At(s, SkipWS(s, pos), '-') ==>
              var r := ParseFactor(a, s, SkipWS(s, pos) + 1);
              ParseFactor(a, s, pos) == if r.Good? then Good(a.neg(r.value), r.next) else r
  {
  }

  lemma {:induction false} ParenComplete(a: Arith, s: string, pos: nat, f: Factor)
    requires WellFormedF(f) && f.Paren? && Has(s, pos, YieldF(f))
    ensures ParseFactor(a, s, pos) == Outcome(ValueF(a, f), pos + |YieldF(f)|)
    decreases f, 0
  {
    var inner, close := YieldE(f.e), f.wsEnd + ")";
    var start := pos + |f.ws| + 1;
    var end := start + |inner|;
    SkipTo(s, pos, f.ws, '(', inner + close);
    Split(s, start, inner, close);
    assert close == f.wsEnd + ([')'] + "");
    SkipTo(s, end, f.wsEnd, ')', "");
    Split(s, end, f.wsEnd, ")");
    SpaceIsNoNumber(s, end, f.wsEnd);
    ExprComplete(a, s, start, f.e);
    SkipTwice(s, end);
    ParenStep(a, s, pos, end + |f.wsEnd|, ValueE(a, f.e));
  }

  lemma ParenStep(a: Arith, s: string, pos: nat, q: nat, x: Result<Float, CalcError>)
    requires pos <= |s| && At(s, SkipWS(s, pos), '(') && At(s, q, ')')
    requires ParseExpr(a, s, SkipWS(s, pos) + 1) == Outcome(x, q)
    ensures ParseFactor(a, s, pos) == Outcome(x, q + 1)
  {
  }

  /** No numeral goes on where white space stands before something else. */
  lemma SpaceIsNoNumber(s: string, pos: nat, ws: string)
    requires Has(s, pos, ws) && AllSpace(ws) && NumberStops(s, pos + |ws|)
    ensures NumberStops(s, pos)
  {
    if ws != [] {
      assert s[pos] == ws[0];
    }
  }

  /** An operator and its right operand, in front of which the number before it stops. */
  lemma Operator(s: string, pos: nat, left: string, ws: string, c: char, right: string)
    requires Has(s, pos, left + (ws + ([c] + right)))
    requires AllSpace(ws) && !IsSpace(c) && !IsDigit(c) && c != '.'
    ensures var end := pos + |left|;
            && Has(s, pos, left) && NumberStops(s, end)
            && SkipWS(s, end) == end + |ws| && At(s, end + |ws|, c) && Has(s, end + |ws| + 1, right)
  {
    Split(s, pos, left, ws + ([c] + right));
    SkipTo(s, pos + |left|, ws, c, right);
    Split(s, pos + |left|, ws, [c] + right);
    SpaceIsNoNumber(s, pos + |left|, ws);
  }

  /** Goes on behind factors whose value is x. */
  function TermGoesOn(a: Arith, s: string, pos: nat, x: Result<Float, CalcError>): Parsed
    requires pos <= |s|
  {
    if x.Ok? then TermLoop(a, s, pos, x.value) else Fail(x.error)
  }

  lemma TimesStep(a: Arith, s: string, from: nat, pos: nat, p: nat, x: Result<Float, CalcError>, y: Result<Float, CalcError>, next: nat)
    requires from <= pos <= |s| && next <= |s| && p == SkipWS(s, pos) && At(s, p, '*')
    requires ParseTerm(a, s, from) == TermGoesOn(a, s, pos, x)
    requires ParseFactor(a, s, p + 1) == Outcome(y, next)
    ensures ParseTerm(a, s, from) == TermGoesOn(a, s, next, Both(a.mul, x, y))
  {
  }

  lemma OverStep(a: Arith, s: string, from: nat, pos: nat, p: nat, x: Result<Float, CalcError>, y: Result<Float, CalcError>, next: nat)
    requires from <= pos <= |s| && next <= |s| && p == SkipWS(s, pos) && At(s, p, '/')
    requires ParseTerm(a, s, from) == TermGoesOn(a, s, pos, x)
    requires ParseFactor(a, s, p + 1) == Outcome(y, next)
    ensures ParseTerm(a, s, from) == TermGoesOn(a, s, next, Quotient(a, x, y))
  {
  }

  /** A term is read as its factors from left to right. */
  lemma {:induction false} TermReads(a: Arith, s: string, pos: nat, t: Term)
    requires WellFormedT(t) && Has(s, pos, YieldT(t)) && NumberStops(s, pos + |YieldT(t)|)
    ensures ParseTerm(a, s, pos) == TermGoesOn(a, s, pos + |YieldT(t)|, ValueT(a, t))
    decreases t, 1
  {
    match t
    case OneFactor(f) => FactorComplete(a, s, pos, f);
    case Mul(_, _, _) => MulReads(a, s, pos, t);
    case Div(_, _, _) => DivReads(a, s, pos, t);
  }

  lemma {:induction false} MulReads(a: Arith, s: string, pos: nat, t: Term)
    requires WellFormedT(t) && t.Mul? && Has(s, pos, YieldT(t)) && NumberStops(s, pos + |YieldT(t)|)
    ensures ParseTerm(a, s, pos) == TermGoesOn(a, s, pos + |YieldT(t)|, ValueT(a, t))
    decreases t, 0
  {
    var left, right := YieldT(t.t), YieldF(t.f);
    Operator(s, pos, left, t.ws, '*', right);
    var end := pos + |left|;
    var p := end + |t.ws|;
    var next := p + 1 + |right|;
    assert next == pos + |YieldT(t)|;
    TermReads(a, s, pos, t.t);
    FactorComplete(a, s, p + 1, t.f);
    TimesStep(a, s, pos, end, p, ValueT(a, t.t), ValueF(a, t.f), next);
  }

  lemma {:induction false} DivReads(a: Arith, s: string, pos: nat, t: Term)
    requires WellFormedT(t) && t.Div? && Has(s, pos, YieldT(t)) && NumberStops(s, pos + |YieldT(t)|)
    ensures ParseTerm(a, s, pos) == TermGoesOn(a, s, pos + |YieldT(t)|, ValueT(a, t))
    decreases t, 0
  {
    var left, right := YieldT(t.t), YieldF(t.f);
    Operator(s, pos, left, t.ws, '/', right);
    var end := pos + |left|;
    var p := end + |t.ws|;
    var next := p + 1 + |right|;
    assert next == pos + |YieldT(t)|;
    TermReads(a, s, pos, t.t);
    FactorComplete(a, s, p + 1, t.f);
    OverStep(a, s, pos, end, p, ValueT(a, t.t), ValueF(a, t.f), next);
  }

  /** No factor and no digit follows. */
  predicate TermStops(s: string, pos: nat)
    requires pos <= |s|
  {
    NumberStops(s, pos) && !At(s, SkipWS(s, pos), '*') && !At(s, SkipWS(s, pos), '/')
  }

  lemma TermComplete(a: Arith, s: string, pos: nat, t: Term)
    requires WellFormedT(t) && Has(s, pos, YieldT(t)) && TermStops(s, pos + |YieldT(t)|)
    ensures ParseTerm(a, s, pos) == Outcome(ValueT(a, t), SkipWS(s, pos + |YieldT(t)|))
    decreases t, 2
  {
    TermReads(a, s, pos, t);
  }

  /** Goes on behind terms whose value is x. */
  function ExprGoesOn(a: Arith, s: string, pos: nat, x: Result<Float, CalcError>): Parsed
    requires pos <= |s|
  {
    if x.Ok? then ExprLoop(a, s, pos, x.value) else Fail(x.error)
  }

  lemma PlusStep(a: Arith, s: string, from: nat, p: nat, x: Result<Float, CalcError>, y: Result<Float, CalcError>, next: nat)
    requires from <= p <= |s| && next <= |s| && p == SkipWS(s, p) && At(s, p, '+')
    requires ParseExpr(a, s, from) == ExprGoesOn(a, s, p, x)
    requires ParseTerm(a, s, p + 1) == Outcome(y, next)
    ensures ParseExpr(a, s, from) == ExprGoesOn(a, s, next, Both(a.add, x, y))
  {
  }

  lemma MinusStep(a: Arith, s: string, from: nat, p: nat, x: Result<Float, CalcError>, y: Result<Float, CalcError>, next: nat)
    requires from <= p <= |s| && next <= |s| && p == SkipWS(s, p) && At(s, p, '-')
    requires ParseExpr(a, s, from) == ExprGoesOn(a, s, p, x)
    requires ParseTerm(a, s, p + 1) == Outcome(y, next)
    ensures ParseExpr(a, s, from) == ExprGoesOn(a, s, next, Both(a.sub, x, y))
  {
  }

  /** A plus or a minus sign ends the term before it. */
  lemma SignEndsTerm(s: string, pos: nat, left: string, ws: string, c: char, right: string)
    requires Has(s, pos, left + (ws + ([c] + right))) && AllSpace(ws) && (c == '+' || c == '-')
    ensures var end := pos + |left|;
            && Has(s, pos, left) && TermStops(s, end)
            && SkipWS(s, end) == SkipWS(s, end + |ws|) == end + |ws|
            && At(s, end + |ws|, c) && Has(s, end + |ws| + 1, right)
  {
    Operator(s, pos, left, ws, c, right);
  }

  /** An expression is read as its terms from left to right. */
  lemma {:induction false} ExprReads(a: Arith, s: string, pos: nat, e: Expr)
    requires WellFormedE(e) && Has(s, pos, YieldE(e)) && TermStops(s, pos + |YieldE(e)|)
    ensures ParseExpr(a, s, pos) == ExprGoesOn(a, s, SkipWS(s, pos + |YieldE(e)|), ValueE(a, e))
    decreases e, 1
  {
    match e
    case OneTerm(t) => TermComplete(a, s, pos, t);
    case Add(_, _, _) => AddReads(a, s, pos, e);
    case Sub(_, _, _) => SubReads(a, s, pos, e);
  }

  lemma {:induction false} AddReads(a: Arith, s: string, pos: nat, e: Expr)
    requires WellFormedE(e) && e.Add? && Has(s, pos, YieldE(e)) && TermStops(s, pos + |YieldE(e)|)
    ensures ParseExpr(a, s, pos) == ExprGoesOn(a, s, SkipWS(s, pos + |YieldE(e)|), ValueE(a, e))
    decreases e, 0
  {
    var p := pos + |YieldE(e.e)| + |e.ws|;
    Summed(s, pos, e.e, e.ws, '+', e.t);
    assert ParseExpr(a, s, pos) == ExprGoesOn(a, s, p, ValueE(a, e.e)) by {
      ExprReads(a, s, pos, e.e);
    }
    assert ParseTerm(a, s, p + 1) == Outcome(ValueT(a, e.t), SkipWS(s, pos + |YieldE(e)|)) by {
      TermComplete(a, s, p + 1, e.t);
    }
    PlusStep(a, s, pos, p, ValueE(a, e.e), ValueT(a, e.t), SkipWS(s, pos + |YieldE(e)|));
  }

  lemma {:induction false} SubReads(a: Arith, s: string, pos: nat, e: Expr)
    requires WellFormedE(e) && e.Sub? && Has(s, pos, YieldE(e)) && TermStops(s, pos + |YieldE(e)|)
    ensures ParseExpr(a, s, pos) == ExprGoesOn(a, s, SkipWS(s, pos + |YieldE(e)|), ValueE(a, e))
    decreases e, 0
  {
    var p := pos + |YieldE(e.e)| + |e.ws|;
    Summed(s, pos, e.e, e.ws, '-', e.t);
    assert ParseExpr(a, s, pos) == ExprGoesOn(a, s, p, ValueE(a, e.e)) by {
      ExprReads(a, s, pos, e.e);
    }
    assert ParseTerm(a, s, p + 1) == Outcome(ValueT(a, e.t), SkipWS(s, pos + |YieldE(e)|)) by {
      TermComplete(a, s, p + 1, e.t);
    }
    MinusStep(a, s, pos, p, ValueE(a, e.e), ValueT(a, e.t), SkipWS(s, pos + |YieldE(e)|));
  }

  lemma Summed(s: string, pos: nat, e: Expr, ws: string, c: char, t: Term)
    requires Has(s, pos, YieldE(e) + (ws + ([c] + YieldT(t)))) && AllSpace(ws) && (c == '+' || c == '-')
    ensures var end := pos + |YieldE(e)|;
            && Has(s, pos, YieldE(e)) && TermStops(s, end)
            && SkipWS(s, end) == SkipWS(s, end + |ws|) == end + |ws|
            && At(s, end + |ws|, c) && Has(s, end + |ws| + 1, YieldT(t))
            && end + |ws| + 1 + |YieldT(t)| == pos + |YieldE(e) + (ws + ([c] + YieldT(t)))|
  {
    SignEndsTerm(s, pos, YieldE(e), ws, c, YieldT(t));
  }

  predicate ExprStops(s: string, pos: nat)
    requires pos <= |s|
  {
    TermStops(s, pos) && !At(s, SkipWS(s, pos), '+') && !At(s, SkipWS(s, pos), '-')
  }

  lemma ExprComplete(a: Arith, s: string, pos: nat, e: Expr)
    requires WellFormedE(e) && Has(s, pos, YieldE(e)) && ExprStops(s, pos + |YieldE(e)|)
    ensures ParseExpr(a, s, pos) == Outcome(ValueE(a, e), SkipWS(s, pos + |YieldE(e)|))
    decreases e, 2
  {
    ExprReads(a, s, pos, e);
    SkipTwice(s, pos + |YieldE(e)|);
  }

  lemma WholeText(s: string, e: Expr, ws: string)
    requires Derives(e, ws, s)
    ensures Has(s, 0, YieldE(e)) && SkipWS(s, |YieldE(e)|) == |s| && ExprStops(s, |YieldE(e)|)
  {
    assert Has(s, 0, YieldE(e) + ws);
    Split(s, 0, YieldE(e), ws);
    SkipSpaces(s, |YieldE(e)|, ws);
    SpaceIsNoNumber(s, |YieldE(e)|, ws);
  }

  /** Any expression evaluates to its value, or to the error of the leftmost operation without one. */
  lemma Complete(a: Arith, s: string, e: Expr, ws: string)
    requires Derives(e, ws, s)
    ensures Eval(a, s) == ValueE(a, e)
  {
    WholeText(s, e, ws);
    ExprComplete(a, s, 0, e);
  }

  // ---- only expressions are accepted ----

  /** White space and one token before the text y. */
  lemma Token(s: string, pos: nat, y: string)
    requires pos <= |s| && SkipWS(s, pos) < |s| && Has(s, SkipWS(s, pos) + 1, y)
    ensures var p := SkipWS(s, pos); AllSpace(s[pos..p]) && Has(s, pos, s[pos..p] + ([s[p]] + y))
  {
    var p := SkipWS(s, pos);
    SkipsSpace(s, pos);
    assert Has(s, p, [s[p]]);
    Join(s, p, [s[p]], y);
    Join(s, pos, s[pos..p], [s[p]] + y);
  }

  /** The tree f is the text that was parsed, and its value is the one found. */
  predicate FactorAt(a: Arith, s: string, pos: nat, f: Factor, r: Parsed) {
    && r.Good? && WellFormedF(f) && ValueF(a, f) == Ok(r.value)
    && Has(s, pos, YieldF(f)) && pos + |YieldF(f)| == r.next
  }

  lemma NumSound(a: Arith, s: string, pos: nat) returns (f: Factor)
    requires pos <= |s| && ParseNumber(a, s, SkipWS(s, pos)).Good?
    ensures FactorAt(a, s, pos, f, ParseNumber(a, s, SkipWS(s, pos)))
  {
    var p := SkipWS(s, pos);
    SkipTwice(s, pos);
    SkipsSpace(s, pos);
    var end := NumEnd(s, p, false);
    NumEndText(s, p, false);
    Join(s, pos, s[pos..p], s[p..end]);
    f := Num(s[pos..p], s[p..end]);
  }

  lemma {:induction false} FactorSound(a: Arith, s: string, pos: nat) returns (f: Factor)
    requires pos <= |s| && ParseFactor(a, s, pos).Good?
    ensures FactorAt(a, s, pos, f, ParseFactor(a, s, pos))
    decreases |s| - pos, 1
  {
    var p := SkipWS(s, pos);
    if At(s, p, '+') {
      SignStep(a, s, pos);
      var g := FactorSound(a, s, p + 1);
      Token(s, pos, YieldF(g));
      f := Plus(s[pos..p], g);
    } else if At(s, p, '-') {
      SignStep(a, s, pos);
      var g := FactorSound(a, s, p + 1);
      Token(s, pos, YieldF(g));
      f := Minus(s[pos..p], g);
    } else if At(s, p, '(') {
      f := ParenSound(a, s, pos);
    } else {
      f := NumSound(a, s, pos);
    }
  }

  lemma {:induction false} ParenSound(a: Arith, s: string, pos: nat) returns (f: Factor)
    requires pos <= |s| && At(s, SkipWS(s, pos), '(') && ParseFactor(a, s, pos).Good?
    ensures FactorAt(a, s, pos, f, ParseFactor(a, s, pos))
    decreases |s| - pos, 0
  {
    var p := SkipWS(s, pos);
    var e, ws := ExprSound(a, s, p + 1);
    var r := ParseExpr(a, s, p + 1);
    var wider := Grows(s, p + 1, r.next, YieldE(e), ws, "");
    assert wider + ([')'] + "") == wider + ")";
    Token(s, pos, YieldE(e) + (wider + ")"));
    f := Paren(s[pos..p], e, wider);
  }

  /** Text, white space and one more token with the text behind it. */
  lemma Grows(s: string, from: nat, pos: nat, left: string, ws: string, y: string) returns (wider: string)
    requires Has(s, from, left + ws) && from + |left + ws| == pos && AllSpace(ws)
    requires SkipWS(s, pos) < |s| && Has(s, SkipWS(s, pos) + 1, y)
    ensures AllSpace(wider) && Has(s, from, left + (wider + ([s[SkipWS(s, pos)]] + y)))
    ensures from + |left| + |wider| == SkipWS(s, pos)
  {
    var p := SkipWS(s, pos);
    var token := [s[p]] + y;
    Token(s, pos, y);
    wider := ws + s[pos..p];
    SpacesJoin(ws, s[pos..p]);
    Join(s, from, left + ws, s[pos..p] + token);
    assert (left + ws) + (s[pos..p] + token) == left + (wider + token);
  }

  /** White space behind the text. */
  lemma Ends(s: string, from: nat, pos: nat, left: string, ws: string)
    requires Has(s, from, left + ws) && from + |left + ws| == pos && AllSpace(ws)
    ensures var end := ws + s[pos..SkipWS(s, pos)];
            AllSpace(end) && Has(s, from, left + end) && from + |left + end| == SkipWS(s, pos)
  {
    var p := SkipWS(s, pos);
    SkipsSpace(s, pos);
    SpacesJoin(ws, s[pos..p]);
    Join(s, from, left + ws, s[pos..p]);
    assert (left + ws) + s[pos..p] == left + (ws + s[pos..p]);
  }

  /** The factors read so far are the text from `from` to pos, except for white space. */
  predicate TermSoFar(a: Arith, s: string, from: nat, t: Term, ws: string, r: Parsed) {
    && r.Good? && WellFormedT(t) && ValueT(a, t) == Ok(r.value) && AllSpace(ws)
    && Has(s, from, YieldT(t) + ws) && from + |YieldT(t) + ws| == r.next
  }

  function TermOp(a: Arith, c: char, x: Float, y: Float): Float {
    if c == '*' then a.mul(x, y) else a.div(x, y)
  }

  lemma TermGrows(a: Arith, s: string, from: nat, t: Term, ws: string, r: Parsed, f: Factor) returns (u: Term)
    requires TermSoFar(a, s, from, t, ws, r) && r.next <= |s|
    requires var p := SkipWS(s, r.next); At(s, p, '*') || At(s, p, '/')
    requires FactorAt(a, s, SkipWS(s, r.next) + 1, f, ParseFactor(a, s, SkipWS(s, r.next) + 1))
    requires TermLoop(a, s, r.next, r.value).Good?
    ensures var y := ParseFactor(a, s, SkipWS(s, r.next) + 1);
            var v := TermOp(a, s[SkipWS(s, r.next)], r.value, y.value);
            && TermSoFar(a, s, from, u, "", Good(v, y.next))
            && TermLoop(a, s, r.next, r.value) == TermLoop(a, s, y.next, v)
  {
    var p := SkipWS(s, r.next);
    var wider := Grows(s, from, r.next, YieldT(t), ws, YieldF(f));
    u := if At(s, p, '*') then Mul(t, wider, f) else Div(t, wider, f);
    assert YieldT(u) == YieldT(t) + (wider + ([s[p]] + YieldF(f)));
    assert YieldT(u) + "" == YieldT(u);
  }

  lemma {:induction false} TermLoopSound(a: Arith, s: string, from: nat, t: Term, ws: string, r: Parsed)
    returns (u: Term, end: string)
    requires TermSoFar(a, s, from, t, ws, r) && r.next <= |s| && TermLoop(a, s, r.next, r.value).Good?
    ensures TermSoFar(a, s, from, u, end, TermLoop(a, s, r.next, r.value))
    decreases |s| - r.next, 2
  {
    var p := SkipWS(s, r.next);
    if At(s, p, '*') || At(s, p, '/') {
      var f := FactorSound(a, s, p + 1);
      var y := ParseFactor(a, s, p + 1);
      var more := TermGrows(a, s, from, t, ws, r, f);
      u, end := TermLoopSound(a, s, from, more, "", Good(TermOp(a, s[p], r.value, y.value), y.next));
    } else {
      u, end := t, ws + s[r.next..p];
      TermRests(a, s, from, t, ws, r);
    }
  }

  lemma TermRests(a: Arith, s: string, from: nat, t: Term, ws: string, r: Parsed)
    requires TermSoFar(a, s, from, t, ws, r) && r.next <= |s|
    requires var p := SkipWS(s, r.next); !At(s, p, '*') && !At(s, p, '/')
    ensures TermSoFar(a, s, from, t, ws + s[r.next..SkipWS(s, r.next)], TermLoop(a, s, r.next, r.value))
  {
    Ends(s, from, r.next, YieldT(t), ws);
  }

  lemma {:induction false} TermSound(a: Arith, s: string, pos: nat) returns (t: Term, ws: string)
    requires pos <= |s| && ParseTerm(a, s, pos).Good?
    ensures TermSoFar(a, s, pos, t, ws, ParseTerm(a, s, pos))
    decreases |s| - pos, 3
  {
    var f := FactorSound(a, s, pos);
    assert YieldT(OneFactor(f)) + "" == YieldF(f);
    t, ws := TermLoopSound(a, s, pos, OneFactor(f), "", ParseFactor(a, s, pos));
  }

  /** The terms read so far are the text from `from` to pos, except for white space. */
  predicate ExprSoFar(a: Arith, s: string, from: nat, e: Expr, ws: string, r: Parsed) {
    && r.Good? && WellFormedE(e) && ValueE(a, e) == Ok(r.value) && AllSpace(ws)
    && Has(s, from, YieldE(e) + ws) && from + |YieldE(e) + ws| == r.next
  }

  function ExprOp(a: Arith, c: char, x: Float, y: Float): Float {
    if c == '+' then a.add(x, y) else a.sub(x, y)
  }

  lemma ExprGrows(a: Arith, s: string, from: nat, e: Expr, ws: string, r: Parsed, t: Term, after: string) returns (u: Expr)
    requires ExprSoFar(a, s, from, e, ws, r) && r.next <= |s|
    requires var p := SkipWS(s, r.next); At(s, p, '+') || At(s, p, '-')
    requires TermSoFar(a, s, SkipWS(s, r.next) + 1, t, after, ParseTerm(a, s, SkipWS(s, r.next) + 1))
    ensures var y := ParseTerm(a, s, SkipWS(s, r.next) + 1);
            var v := ExprOp(a, s[SkipWS(s, r.next)], r.value, y.value);
            && ExprSoFar(a, s, from, u, after, Good(v, y.next))
            && ExprLoop(a, s, r.next, r.value) == ExprLoop(a, s, y.next, v)
  {
    var p := SkipWS(s, r.next);
    var wider := Grows(s, from, r.next, YieldE(e), ws, YieldT(t) + after);
    u := if At(s, p, '+') then Add(e, wider, t) else Sub(e, wider, t);
    assert YieldE(u) == YieldE(e) + (wider + ([s[p]] + YieldT(t)));
    assert YieldE(u) + after == YieldE(e) + (wider + ([s[p]] + (YieldT(t) + after)));
  }

  lemma {:induction false} ExprLoopSound(a: Arith, s: string, from: nat, e: Expr, ws: string, r: Parsed)
    returns (u: Expr, end: string)
    requires ExprSoFar(a, s, from, e, ws, r) && r.next <= |s| && ExprLoop(a, s, r.next, r.value).Good?
    ensures ExprSoFar(a, s, from, u, end, ExprLoop(a, s, r.next, r.value))
    decreases |s| - r.next, 4
  {
    var p := SkipWS(s, r.next);
    if At(s, p, '+') || At(s, p, '-') {
      var t, after := TermSound(a, s, p + 1);
      var y := ParseTerm(a, s, p + 1);
      var more := ExprGrows(a, s, from, e, ws, r, t, after);
      u, end := ExprLoopSound(a, s, from, more, after, Good(ExprOp(a, s[p], r.value, y.value), y.next));
    } else {
      u, end := e, ws + s[r.next..p];
      Ends(s, from, r.next, YieldE(e), ws);
    }
  }

  lemma {:induction false} ExprSound(a: Arith, s: string, pos: nat) returns (e: Expr, ws: string)
    requires pos <= |s| && ParseExpr(a, s, pos).Good?
    ensures ExprSoFar(a, s, pos, e, ws, ParseExpr(a, s, pos))
    decreases |s| - pos, 5
  {
    var t, after := TermSound(a, s, pos);
    e, ws := ExprLoopSound(a, s, pos, OneTerm(t), after, ParseTerm(a, s, pos));
  }

  /** Whatever evaluates is an expression with that value. */
  lemma Sound(a: Arith, s: string) returns (e: Expr, ws: string)
    requires Eval(a, s).Ok?
    ensures Derives(e, ws, s) && ValueE(a, e) == Ok(Eval(a, s).value)
  {
    e, ws := ExprSound(a, s, 0);
    var r := ParseExpr(a, s, 0);
    Ends(s, 0, r.next, YieldE(e), ws);
    ws := ws + s[r.next..SkipWS(s, r.next)];
    assert s == YieldE(e) + ws;
  }

  /** Evaluation succeeds with v exactly on the texts of expressions whose value is v. */
  lemma Exact(a: Arith, s: string, v: Float)
    ensures Eval(a, s) == Ok(v) <==> exists e, ws :: Derives(e, ws, s) && ValueE(a, e) == Ok(v)
  {
    if Eval(a, s) == Ok(v) {
      var e, ws := Sound(a, s);
    }
    forall e, ws | Derives(e, ws, s) && ValueE(a, e) == Ok(v) ensures Eval(a, s) == Ok(v) {
      Complete(a, s, e, ws);
    }
  }

  /** The grammar leaves no choice: all readings of a text have the same value. */
  lemma OneValue(a: Arith, s: string, e: Expr, ws: string, f: Expr, ws': string)
    requires Derives(e, ws, s) && Derives(f, ws', s)
    ensures ValueE(a, e) == ValueE(a, f)
  {
    Complete(a, s, e, ws);
    Complete(a, s, f, ws');
  }

  /** Every error but a bad number or a division by zero means that the text is no expression. */
  lemma ErrorsAreSyntax(a: Arith, s: string, e: Expr, ws: string)
    requires Eval(a, s).Err? && !IsValueError(Eval(a, s).error)
    ensures !Derives(e, ws, s)
  {
    if Derives(e, ws, s) {
      Complete(a, s, e, ws);
      assert false;
    }
  }

  // ---- the empty expression ----

  predicate NoToken(c: char) {
    !IsDigit(c) && c != '.' && c != '+' && c != '-' && c != '('
  }

  lemma {:induction false} BlankHasNoToken(s: string)
    requires Blank(s)
    ensures forall i :: 0 <= i < |s| ==> NoToken(s[i])
  {
    if s != [] {
      var n := SpaceLen(s);
      BlankHasNoToken(s[n..]);
      forall i | 0 <= i < |s| ensures NoToken(s[i]) {
        if i >= n {
          assert s[i] == s[n..][i - n];
        }
      }
    }
  }

  /** Only a blank input is reported as empty. */
  predicate Reports(s: string, r: Parsed) {
    r == Fail(EmptyExpression) ==> Blank(s)
  }

  lemma {:induction false} FactorReports(a: Arith, s: string, pos: nat)
    requires pos <= |s|
    ensures Reports(s, ParseFactor(a, s, pos))
    decreases |s| - pos, 0
  {
    var p := SkipWS(s, pos);
    if At(s, p, '+') || At(s, p, '-') {
      FactorReports(a, s, p + 1);
      SignStep(a, s, pos);
    } else if At(s, p, '(') {
      ExprReports(a, s, p + 1);
    }
  }

  lemma {:induction false} TermLoopReports(a: Arith, s: string, pos: nat, v: Float)
    requires pos <= |s|
    ensures Reports(s, TermLoop(a, s, pos, v))
    decreases |s| - pos, 1
  {
    var p := SkipWS(s, pos);
    if At(s, p, '*') || At(s, p, '/') {
      FactorReports(a, s, p + 1);
      var r := ParseFactor(a, s, p + 1);
      if r.Good? {
        TermLoopReports(a, s, r.next, if s[p] == '*' then a.mul(v, r.value) else a.div(v, r.value));
      }
    }
  }

  lemma {:induction false} TermReports(a: Arith, s: string, pos: nat)
    requires pos <= |s|
    ensures Reports(s, ParseTerm(a, s, pos))
    decreases |s| - pos, 2
  {
    FactorReports(a, s, pos);
    var r := ParseFactor(a, s, pos);
    if r.Good? {
      TermLoopReports(a, s, r.next, r.value);
    }
  }

  lemma {:induction false} ExprLoopReports(a: Arith, s: string, pos: nat, v: Float)
    requires pos <= |s|
    ensures Reports(s, ExprLoop(a, s, pos, v))
    decreases |s| - pos, 3
  {
    var p := SkipWS(s, pos);
    if At(s, p, '+') || At(s, p, '-') {
      TermReports(a, s, p + 1);
      var r := ParseTerm(a, s, p + 1);
      if r.Good? {
        ExprLoopReports(a, s, r.next, if s[p] == '+' then a.add(v, r.value) else a.sub(v, r.value));
      }
    }
  }

  lemma {:induction false} ExprReports(a: Arith, s: string, pos: nat)
    requires pos <= |s|
    ensures Reports(s, ParseExpr(a, s, pos))
    decreases |s| - pos, 4
  {
    TermReports(a, s, pos);
    var r := ParseTerm(a, s, pos);
    if r.Good? {
      ExprLoopReports(a, s, r.next, r.value);
    }
  }

  /** The input is reported as empty exactly when it is blank. */
  lemma EmptyIsBlank(a: Arith, s: string)
    ensures Eval(a, s) == Err(EmptyExpression) <==> Blank(s)
  {
    ExprReports(a, s, 0);
    if Blank(s) {
      BlankHasNoToken(s);
      SkipTwice(s, 0);
      var p := SkipWS(s, 0);
      assert p < |s| ==> NoToken(s[p]);
      assert ParseNumber(a, s, p) == Fail(EmptyExpression);
      assert ParseFactor(a, s, 0) == Fail(EmptyExpression);
      assert ParseTerm(a, s, 0) == Fail(EmptyExpression);
      assert ParseExpr(a, s, 0) == Fail(EmptyExpression);
    }
  }
}
