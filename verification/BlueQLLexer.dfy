/**
 The parser as it runs: a cursor over the tokens and methods that move it, each proved to
 agree with the parsing function on the tokens that remain.
 */
module BlueQLLexer {
  import opened Common
  import opened BlueQL

  datatype Result<+T> = Success(value: T) | Failure(error: Error)

  /** The method result `r`, with `rest` left to read, is what the parsing function computed. */
  ghost predicate Agrees<T>(p: Parsed<T>, r: Result<T>, rest: seq<Token>) {
    match p
    case Ok(v, after) => r == Success(v) && rest == after
    case Err(e) => r == Failure(e)
  }

  class Lexer {
    const tokens: seq<Token>
    var pos: nat

    ghost predicate Valid()
      reads this
    {
      pos <= |tokens|
    }

    ghost function Rest(): seq<Token>
      reads this
      requires Valid()
    {
      tokens[pos..]
    }

    constructor (tokens: seq<Token>)
      ensures this.tokens == tokens && Valid() && Rest() == tokens
    {
      this.tokens := tokens;
      pos := 0;
    }

    /** Step over the next token if it is `t`. */
    method Take(t: Token) returns (taken: bool)
      requires Valid()
      modifies this`pos
      ensures Valid() && taken == Next(old(Rest()), t)
      ensures Rest() == if taken then old(Rest())[1..] else old(Rest())
      ensures taken ==> pos == old(pos) + 1
    {
      taken := pos < |tokens| && tokens[pos] == t;
      if taken {
        pos := pos + 1;
      }
    }

    method Ident() returns (r: Result<string>)
      requires Valid()
      modifies this`pos
      ensures Valid() && Agrees(TakeIdent(old(Rest())), r, Rest())
    {
      if pos < |tokens| && tokens[pos].Ident? {
        r := Success(tokens[pos].name);
        pos := pos + 1;
      } else {
        r := Failure(ExpectedIdentifier);
      }
    }

    method Value() returns (r: Result<Literal>)
      requires Valid()
      modifies this`pos
      ensures Valid() && Agrees(TakeValue(old(Rest())), r, Rest())
    {
      if pos < |tokens| && tokens[pos].Lit? {
        r := Success(tokens[pos].value);
        pos := pos + 1;
      } else {
        r := Failure(ExpectedLiteral);
      }
    }

    /** Seconds. */
    method DurationClause() returns (r: Result<nat>)
      requires Valid()
      modifies this`pos
      ensures Valid()
      ensures match TakeDuration(old(Rest()))
        case Ok(d, after) => r == Success(ToSeconds(d)) && Rest() == after
        case Err(e) => r == Failure(e)
    {
      if pos < |tokens| && tokens[pos].Dur? {
        r := Success(ToSeconds(tokens[pos].duration));
        pos := pos + 1;
      } else {
        r := Failure(ExpectedDuration);
      }
    }

    /** The loop over `, value`. */
    method MoreValues(first: Literal) returns (r: Result<seq<Literal>>)
      requires Valid()
      modifies this`pos
      ensures Valid() && Agrees(ValuesTail([first], old(Rest())), r, Rest())
    {
      var values := [first];
      ghost var whole := ValuesTail(values, Rest());
      var more := true;
      while more
        invariant Valid()
        invariant whole == if more then ValuesTail(values, Rest()) else Ok(values, Rest())
        decreases |tokens| - pos, more
      {
        more := Take(Comma);
        if more {
          var v := Value();
          if v.Failure? {
            return Failure(v.error);
          }
          values := values + [v.value];
        }
      }
      r := Success(values);
    }

    method List(field: string) returns (r: Result<Pred>)
      requires Valid()
      modifies this`pos
      ensures Valid() && Agrees(ParseList(field, old(Rest())), r, Rest())
    {
      var open := Take(LParen);
      if !open {
        return Failure(InRequiresList);
      }
      var first := Value();
      if first.Failure? {
        return Failure(first.error);
      }
      var values := MoreValues(first.value);
      if values.Failure? {
        return Failure(values.error);
      }
      var close := Take(RParen);
      if !close {
        return Failure(MissingParenAfterList);
      }
      r := Success(In(field, values.value));
    }

    method Comparison(field: string) returns (r: Result<Pred>)
      requires Valid()
      modifies this`pos
      ensures Valid() && Agrees(ParseComparison(field, old(Rest())), r, Rest())
    {
      if pos == |tokens| || !tokens[pos].Comp? {
        return Failure(ExpectedComparator);
      }
      var op := tokens[pos].op;
      pos := pos + 1;
      var v := Value();
      if v.Failure? {
        return Failure(v.error);
      }
      r := Success(Cmp(field, op, v.value));
    }

    method Primary() returns (r: Result<Pred>)
      requires Valid()
      modifies this`pos
      ensures Valid() && Agrees(ParsePrimary(old(Rest())), r, Rest())
      decreases |tokens| - pos, 0
    {
      var not := Take(NOT);
      if not {
        r := Primary();
        if r.Success? {
          r := Success(Not(r.value));
        }
        return;
      }
      var open := Take(LParen);
      if open {
        r := OrExpr();
        if r.Success? {
          var close := Take(RParen);
          if !close {
            r := Failure(MissingParen);
          }
        }
        return;
      }
      var field := Ident();
      if field.Failure? {
        return Failure(field.error);
      }
      var isIn := Take(IN);
      if isIn {
        r := List(field.value);
      } else {
        r := Comparison(field.value);
      }
    }

    method AndExpr() returns (r: Result<Pred>)
      requires Valid()
      modifies this`pos
      ensures Valid() && Agrees(ParseAnd(old(Rest())), r, Rest())
      decreases |tokens| - pos, 1
    {
      ghost var whole := ParseAnd(Rest());
      ghost var start := pos;
      r := Primary();
      if r.Failure? {
        return;
      }
      var left := r.value;
      var more := true;
      while more
        invariant Valid() && pos > start
        invariant if more then whole == AndTail(left, Rest()) else whole == Ok(left, Rest())
        decreases |tokens| - pos, more
      {
        more := Take(AND);
        if more {
          var right := Primary();
          if right.Failure? {
            return right;
          }
          left := And(left, right.value);
        }
      }
      r := Success(left);
    }

    method OrExpr() returns (r: Result<Pred>)
      requires Valid()
      modifies this`pos
      ensures Valid() && Agrees(ParseOr(old(Rest())), r, Rest())
      decreases |tokens| - pos, 2
    {
      ghost var whole := ParseOr(Rest());
      ghost var start := pos;
      r := AndExpr();
      if r.Failure? {
        return;
      }
      var left := r.value;
      var more := true;
      while more
        invariant Valid() && pos > start
        invariant if more then whole == OrTail(left, Rest()) else whole == Ok(left, Rest())
        decreases |tokens| - pos, more
      {
        more := Take(OR);
        if more {
          var right := AndExpr();
          if right.Failure? {
            return right;
          }
          left := Or(left, right.value);
        }
      }
      r := Success(left);
    }

    method EntityForm() returns (r: Result<Query>)
      requires Valid()
      modifies this`pos
      ensures Valid() && Agrees(ParseEntity(old(Rest())), r, Rest())
    {
      var name := Ident();
      if name.Failure? {
        return Failure(name.error);
      }
      var where := Take(WHERE);
      if !where {
        return Failure(FromRequiresWhere);
      }
      var pred := OrExpr();
      r := if pred.Success? then Success(Entity(name.value, pred.value)) else Failure(pred.error);
    }

    method StepsForm() returns (r: Result<Query>)
      requires Valid()
      modifies this`pos
      ensures Valid() && Agrees(ParseSteps(old(Rest())), r, Rest())
    {
      var first := OrExpr();
      if first.Failure? {
        return Failure(first.error);
      }
      var steps := [first.value];
      ghost var all := StepsTail(steps, Rest());
      var more := true;
      while more
        invariant Valid()
        invariant all == if more then StepsTail(steps, Rest()) else Ok(steps, Rest())
        decreases |tokens| - pos, more
      {
        more := Take(FOLLOWED_BY);
        if more {
          var step := OrExpr();
          if step.Failure? {
            return Failure(step.error);
          }
          steps := steps + [step.value];
        }
      }
      var within := None;
      var has := Take(WITHIN);
      if has {
        var d := DurationClause();
        if d.Failure? {
          return Failure(d.error);
        }
        within := Some(d.value);
      }
      r := Success(Steps(steps, within));
    }

    method Form() returns (r: Result<Query>)
      requires Valid()
      modifies this`pos
      ensures Valid() && Agrees(ParseForm(old(Rest())), r, Rest())
    {
      var from := Take(FROM);
      if from {
        r := EntityForm();
      } else {
        r := StepsForm();
      }
    }
  }

  lemma Finished(tokens: seq<Token>, q: Result<Query>, rest: seq<Token>)
    requires Agrees(ParseForm(tokens), q, rest)
    ensures Parse(tokens) ==
      if q.Failure? then Rejected(q.error) else if rest != [] then Rejected(UnexpectedInput) else Tree(q.value)
  {
  }

  /** The whole parser, proved equal to the parsing function. */
  method ParseQuery(tokens: seq<Token>) returns (r: Outcome)
    ensures r == Parse(tokens)
  {
    var lexer := new Lexer(tokens);
    var q := lexer.Form();
    Finished(tokens, q, lexer.Rest());
    if q.Failure? {
      return Rejected(q.error);
    }
    if lexer.pos < |lexer.tokens| {
      return Rejected(UnexpectedInput);
    }
    r := Tree(q.value);
  }
}
