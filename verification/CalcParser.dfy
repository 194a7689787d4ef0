/** The calculator's parser as the object it is: an input and a position that only moves on. */
module CalcParser {
  import opened Wrappers
  import opened Whitespace
  import opened Calc

  class ExprParser {
    const arith: Arith
    const input: string
    var pos: nat

    ghost predicate Valid()
      reads this
    {
      pos <= |input|
    }

    /** What a call returned, and where it left the position, is what parsing from `start` gives. */
    ghost predicate Follows(r: Result<Float, CalcError>, p: Parsed)
      reads this
    {
      match p
      case Good(v, next) => r == Ok(v) && pos == next
      case Fail(e) => r == Err(e)
    }

    constructor (arith: Arith, input: string)
      ensures Valid() && pos == 0 && this.input == input && this.arith == arith
    {
      this.arith := arith;
      this.input := input;
      pos := 0;
    }

    method SkipWhiteSpace()
      requires Valid()
      modifies this`pos
      ensures Valid() && pos == SkipWS(input, old(pos))
    {
      while pos < |input| && IsSpace(input[pos])
        invariant Valid() && SkipWS(input, pos) == SkipWS(input, old(pos))
      {
        pos := pos + 1;
      }
    }

    method Match(c: char) returns (ok: bool)
      requires Valid()
      modifies this`pos
      ensures Valid() && ok == At(input, old(pos), c) && pos == old(pos) + (if ok then 1 else 0)
    {
      ok := pos < |input| && input[pos] == c;
      if ok {
        pos := pos + 1;
      }
    }

    method ParseNumeral() returns (r: Result<Float, CalcError>)
      requires Valid()
      modifies this`pos
      ensures Valid() && old(pos) <= pos && Follows(r, ParseNumber(arith, input, old(pos)))
    {
      SkipWhiteSpace();
      var start, dotSeen := pos, false;
      while pos < |input|
        invariant Valid() && start <= pos
        invariant NumEnd(input, pos, dotSeen) == NumEnd(input, start, false)
      {
        if input[pos] == '.' {
          if dotSeen {
            break;
          }
          dotSeen := true;
          pos := pos + 1;
          continue;
        }
        if !IsDigit(input[pos]) {
          break;
        }
        pos := pos + 1;
      }
      if start == pos {
        return Err(if Blank(input) then EmptyExpression else ExpectedNumber(pos));
      }
      var v := arith.parse(input[start..pos]);
      if v.None? {
        return Err(InvalidNumber(input[start..pos]));
      }
      r := Ok(v.value);
    }

    /** What the expression behind an opening parenthesis and the closing one give. */
    ghost function Parenthesised(r: Parsed): Parsed
      requires r.Good? ==> r.next <= |input|
    {
      if r.Fail? then r
      else
        var q := SkipWS(input, r.next);
        if At(input, q, ')') then Good(r.value, q + 1) else Fail(MissingParen(q))
    }

    /** Reads on behind an opening parenthesis. */
    method ParseRestOfParen() returns (r: Result<Float, CalcError>)
      requires Valid()
      modifies this`pos
      ensures Valid() && old(pos) <= pos && Follows(r, Parenthesised(ParseExpr(arith, input, old(pos))))
      decreases |input| - pos, 3
    {
      r := ParseExprAt();
      if r.Err? {
        return;
      }
      SkipWhiteSpace();
      var closes := Match(')');
      return if closes then r else Err(MissingParen(pos));
    }

    method ParseFactorAt() returns (r: Result<Float, CalcError>)
      requires Valid()
      modifies this`pos
      ensures Valid() && old(pos) <= pos && Follows(r, ParseFactor(arith, input, old(pos)))
      decreases |input| - pos, 0
    {
      SkipWhiteSpace();
      var isPlus := Match('+');
      if isPlus {
        r := ParseFactorAt();
        return;
      }
      var isMinus := Match('-');
      if isMinus {
        r := ParseFactorAt();
        return if r.Ok? then Ok(arith.neg(r.value)) else r;
      }
      var opens := Match('(');
      if opens {
        r := ParseRestOfParen();
        return;
      }
      r := ParseNumeral();
    }

    method ParseTermAt() returns (r: Result<Float, CalcError>)
      requires Valid()
      modifies this`pos
      ensures Valid() && old(pos) <= pos && Follows(r, ParseTerm(arith, input, old(pos)))
      decreases |input| - pos, 1
    {
      ghost var goal := ParseTerm(arith, input, pos);
      r := ParseFactorAt();
      if r.Err? {
        return;
      }
      var v := r.value;
      while true
        invariant Valid() && old(pos) < pos
        invariant TermLoop(arith, input, pos, v) == goal
        decreases |input| - pos
      {
        SkipWhiteSpace();
        var times := Match('*');
        if times {
          r := ParseFactorAt();
          if r.Err? {
            return;
          }
          v := arith.mul(v, r.value);
          continue;
        }
        var over := Match('/');
        if over {
          r := ParseFactorAt();
          if r.Err? {
            return;
          }
          if arith.isZero(r.value) {
            return Err(DivisionByZero);
          }
          v := arith.div(v, r.value);
          continue;
        }
        return Ok(v);
      }
    }

    method ParseExprAt() returns (r: Result<Float, CalcError>)
      requires Valid()
      modifies this`pos
      ensures Valid() && old(pos) <= pos && Follows(r, ParseExpr(arith, input, old(pos)))
      decreases |input| - pos, 2
    {
      ghost var goal := ParseExpr(arith, input, pos);
      r := ParseTermAt();
      if r.Err? {
        return;
      }
      var v := r.value;
      while true
        invariant Valid() && old(pos) < pos
        invariant ExprLoop(arith, input, pos, v) == goal
        decreases |input| - pos
      {
        SkipWhiteSpace();
        var plus := Match('+');
        if plus {
          r := ParseTermAt();
          if r.Err? {
            return;
          }
          v := arith.add(v, r.value);
          continue;
        }
        var minus := Match('-');
        if minus {
          r := ParseTermAt();
          if r.Err? {
            return;
          }
          v := arith.sub(v, r.value);
          continue;
        }
        return Ok(v);
      }
    }
  }

  method EvalExpression(a: Arith, s: string) returns (r: Result<Float, CalcError>)
    ensures r == Eval(a, s)
  {
    var p := new ExprParser(a, s);
    r := p.ParseExprAt();
    if r.Err? {
      return;
    }
    p.SkipWhiteSpace();
    if p.pos != |p.input| {
      return Err(UnexpectedToken(p.pos));
    }
  }
}
