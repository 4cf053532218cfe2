/**
 BlueQL: tokens, syntax trees, and the recursive-descent parser as functions on the tokens
 that remain.  BlueQLLexer.dfy has the parser with its mutable position and loops.
 */
module BlueQL {
  import opened Common

  datatype Comparator = Ge | Le | Ne | Eq | Gt | Lt

  datatype Literal = Text(text: string) | Truth(truth: bool) | Integer(n: int) | Decimal(d: real)

  datatype Unit = Seconds | Minutes | Hours

  datatype Duration = Duration(count: nat, unit: Unit)

  datatype Token =
    | FROM | WHERE | FOLLOWED_BY | WITHIN | OR | AND | NOT | IN
    | LParen | RParen | Comma
    | Comp(op: Comparator) | Ident(name: string) | Lit(value: Literal) | Dur(duration: Duration)

  datatype Pred =
    | Or(left: Pred, right: Pred)
    | And(left: Pred, right: Pred)
    | Not(inner: Pred)
    | In(field: string, values: seq<Literal>)
    | Cmp(field: string, op: Comparator, value: Literal)

  /** `Steps` is a filter when it has one step and a sequence when it has more. */
  datatype Query =
    | Entity(name: string, pred: Pred)
    | Steps(steps: seq<Pred>, within: Option<nat>)

  datatype Error =
    | ExpectedIdentifier | ExpectedLiteral | ExpectedComparator | ExpectedDuration
    | MissingParen | InRequiresList | MissingParenAfterList | FromRequiresWhere | UnexpectedInput

  datatype Parsed<+T> = Ok(value: T, rest: seq<Token>) | Err(error: Error)

  predicate Next(ts: seq<Token>, t: Token) { ts != [] && ts[0] == t }

  function ToSeconds(d: Duration): nat {
    d.count * match d.unit case Seconds => 1 case Minutes => 60 case Hours => 3600
  }

  function TakeIdent(ts: seq<Token>): (r: Parsed<string>)
    ensures r.Ok? ==> |r.rest| < |ts|
  {
    if ts != [] && ts[0].Ident? then Ok(ts[0].name, ts[1..]) else Err(ExpectedIdentifier)
  }

  function TakeValue(ts: seq<Token>): (r: Parsed<Literal>)
    ensures r.Ok? ==> |r.rest| < |ts|
  {
    if ts != [] && ts[0].Lit? then Ok(ts[0].value, ts[1..]) else Err(ExpectedLiteral)
  }

  function TakeDuration(ts: seq<Token>): (r: Parsed<Duration>)
    ensures r.Ok? ==> |r.rest| < |ts|
  {
    if ts != [] && ts[0].Dur? then Ok(ts[0].duration, ts[1..]) else Err(ExpectedDuration)
  }

  /** The loop over `, value` inside an IN list. */
  function ValuesTail(values: seq<Literal>, ts: seq<Token>): (r: Parsed<seq<Literal>>)
    ensures r.Ok? ==> |r.rest| <= |ts|
    decreases |ts|
  {
    if Next(ts, Comma) then
      var v := TakeValue(ts[1..]);
      if v.Err? then Err(v.error) else ValuesTail(values + [v.value], v.rest)
    else Ok(values, ts)
  }

  /** What follows `field IN`. */
  function ParseList(field: string, ts: seq<Token>): (r: Parsed<Pred>)
    ensures r.Ok? ==> |r.rest| < |ts|
  {
    if !Next(ts, LParen) then Err(InRequiresList)
    else
      var first := TakeValue(ts[1..]);
      if first.Err? then Err(first.error)
      else
        var vs := ValuesTail([first.value], first.rest);
        if vs.Err? then Err(vs.error)
        else if !Next(vs.rest, RParen) then Err(MissingParenAfterList)
        else Ok(In(field, vs.value), vs.rest[1..])
  }

  function ParseComparison(field: string, ts: seq<Token>): (r: Parsed<Pred>)
    ensures r.Ok? ==> |r.rest| < |ts|
  {
    if ts == [] || !ts[0].Comp? then Err(ExpectedComparator)
    else
      var v := TakeValue(ts[1..]);
      if v.Err? then Err(v.error) else Ok(Cmp(field, ts[0].op, v.value), v.rest)
  }

  function ParsePrimary(ts: seq<Token>): (r: Parsed<Pred>)
    ensures r.Ok? ==> |r.rest| < |ts|
    decreases |ts|, 0
  {
    if Next(ts, NOT) then
      var p := ParsePrimary(ts[1..]);
      if p.Err? then p else Ok(Not(p.value), p.rest)
    else if Next(ts, LParen) then
      var p := ParseOr(ts[1..]);
      if p.Err? then p
      else if !Next(p.rest, RParen) then Err(MissingParen)
      else Ok(p.value, p.rest[1..])
    else
      var f := TakeIdent(ts);
      if f.Err? then Err(f.error)
      else if Next(f.rest, IN) then ParseList(f.value, f.rest[1..])
      else ParseComparison(f.value, f.rest)
  }

  function ParseAnd(ts: seq<Token>): (r: Parsed<Pred>)
    ensures r.Ok? ==> |r.rest| < |ts|
    decreases |ts|, 1
  {
    var p := ParsePrimary(ts);
    if p.Err? then p else AndTail(p.value, p.rest)
  }

  function AndTail(left: Pred, ts: seq<Token>): (r: Parsed<Pred>)
    ensures r.Ok? ==> |r.rest| <= |ts|
    decreases |ts|, 2
  {
    if Next(ts, AND) then
      var p := ParsePrimary(ts[1..]);
      if p.Err? then p else AndTail(And(left, p.value), p.rest)
    else Ok(left, ts)
  }

  function ParseOr(ts: seq<Token>): (r: Parsed<Pred>)
    ensures r.Ok? ==> |r.rest| < |ts|
    decreases |ts|, 3
  {
    var p := ParseAnd(ts);
    if p.Err? then p else OrTail(p.value, p.rest)
  }

  function OrTail(left: Pred, ts: seq<Token>): (r: Parsed<Pred>)
    ensures r.Ok? ==> |r.rest| <= |ts|
    decreases |ts|, 4
  {
    if Next(ts, OR) then
      var p := ParseAnd(ts[1..]);
      if p.Err? then p else OrTail(Or(left, p.value), p.rest)
    else Ok(left, ts)
  }

  /** The loop over `FOLLOWED_BY step`. */
  function StepsTail(steps: seq<Pred>, ts: seq<Token>): (r: Parsed<seq<Pred>>)
    ensures r.Ok? ==> |r.rest| <= |ts|
    decreases |ts|
  {
    if Next(ts, FOLLOWED_BY) then
      var p := ParseOr(ts[1..]);
      if p.Err? then Err(p.error) else StepsTail(steps + [p.value], p.rest)
    else Ok(steps, ts)
  }

  function ParseEntity(ts: seq<Token>): Parsed<Query> {
    var name := TakeIdent(ts);
    if name.Err? then Err(name.error)
    else if !Next(name.rest, WHERE) then Err(FromRequiresWhere)
    else
      var p := ParseOr(name.rest[1..]);
      if p.Err? then Err(p.error) else Ok(Entity(name.value, p.value), p.rest)
  }

  function ParseSteps(ts: seq<Token>): Parsed<Query> {
    var first := ParseOr(ts);
    if first.Err? then Err(first.error)
    else
      var steps := StepsTail([first.value], first.rest);
      if steps.Err? then Err(steps.error)
      else if Next(steps.rest, WITHIN) then
        var d := TakeDuration(steps.rest[1..]);
        if d.Err? then Err(d.error) else Ok(Steps(steps.value, Some(ToSeconds(d.value))), d.rest)
      else Ok(Steps(steps.value, None), steps.rest)
  }

  function ParseForm(ts: seq<Token>): Parsed<Query> {
    if Next(ts, FROM) then ParseEntity(ts[1..]) else ParseSteps(ts)
  }

  datatype Outcome = Tree(query: Query) | Rejected(error: Error)

  function Parse(ts: seq<Token>): Outcome {
    var r := ParseForm(ts);
    if r.Err? then Rejected(r.error)
    else if r.rest != [] then Rejected(UnexpectedInput)
    else Tree(r.value)
  }
}
