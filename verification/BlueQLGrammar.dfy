/**
 The BlueQL grammar as derivation trees, and the theorem that the parser decides it: a token
 string is accepted exactly when it has a derivation, the tree returned is the one the
 derivation denotes, and so every accepted string has one meaning.  Printing with the fewest
 parentheses is the inverse of parsing.
 */
module BlueQLGrammar {
  import opened Common
  import opened BlueQL

  // or      ::= and | or OR and
  // and     ::= primary | and AND primary
  // primary ::= NOT primary | ( or ) | field IN ( value {, value} ) | field op value
  datatype OrD = OrOne(only: AndD) | OrMore(front: OrD, last: AndD)
  datatype AndD = AndOne(only: PrimD) | AndMore(front: AndD, last: PrimD)
  datatype PrimD =
    | NotD(inner: PrimD)
    | ParenD(body: OrD)
    | InD(field: string, first: Literal, more: seq<Literal>)
    | CmpD(field: string, op: Comparator, value: Literal)

  // query   ::= FROM field WHERE or | or {FOLLOWED_BY or} [WITHIN duration]
  datatype QueryD =
    | EntityD(name: string, body: OrD)
    | StepsD(first: OrD, more: seq<OrD>, within: Option<Duration>)

  // ---------- the token string of a derivation ----------

  function YieldOr(d: OrD): seq<Token> {
    match d
    case OrOne(a) => YieldAnd(a)
    case OrMore(o, a) => YieldOr(o) + [OR] + YieldAnd(a)
  }

  function YieldAnd(d: AndD): seq<Token> {
    match d
    case AndOne(p) => YieldPrim(p)
    case AndMore(a, p) => YieldAnd(a) + [AND] + YieldPrim(p)
  }

  function YieldPrim(d: PrimD): seq<Token> {
    match d
    case NotD(p) => [NOT] + YieldPrim(p)
    case ParenD(o) => [LParen] + YieldOr(o) + [RParen]
    case InD(f, v, vs) => [Ident(f), IN, LParen, Lit(v)] + YieldValues(vs) + [RParen]
    case CmpD(f, op, v) => [Ident(f), Comp(op), Lit(v)]
  }

  function YieldValues(vs: seq<Literal>): seq<Token> {
    if vs == [] then [] else [Comma, Lit(vs[0])] + YieldValues(vs[1..])
  }

  function YieldMore(ds: seq<OrD>): seq<Token> {
    if ds == [] then [] else [FOLLOWED_BY] + YieldOr(ds[0]) + YieldMore(ds[1..])
  }

  function YieldQuery(d: QueryD): seq<Token> {
    match d
    case EntityD(name, o) => [FROM, Ident(name), WHERE] + YieldOr(o)
    case StepsD(o, more, within) =>
      YieldOr(o) + YieldMore(more) + if within.Some? then [WITHIN, Dur(within.value)] else []
  }

  // ---------- the tree a derivation denotes ----------

  function TreeOr(d: OrD): Pred {
    match d
    case OrOne(a) => TreeAnd(a)
    case OrMore(o, a) => Or(TreeOr(o), TreeAnd(a))
  }

  function TreeAnd(d: AndD): Pred {
    match d
    case AndOne(p) => TreePrim(p)
    case AndMore(a, p) => And(TreeAnd(a), TreePrim(p))
  }

  function TreePrim(d: PrimD): Pred {
    match d
    case NotD(p) => Not(TreePrim(p))
    case ParenD(o) => TreeOr(o)
    case InD(f, v, vs) => In(f, [v] + vs)
    case CmpD(f, op, v) => Cmp(f, op, v)
  }

  function TreeMore(ds: seq<OrD>): seq<Pred> {
    if ds == [] then [] else [TreeOr(ds[0])] + TreeMore(ds[1..])
  }

  function TreeQuery(d: QueryD): Query {
    match d
    case EntityD(name, o) => Entity(name, TreeOr(o))
    case StepsD(o, more, within) =>
      Steps([TreeOr(o)] + TreeMore(more), if within.Some? then Some(SecondsOf(within.value)) else None)
  }

  function SecondsOf(d: Duration): nat {
    match d.unit
    case Seconds => d.count
    case Minutes => 60 * d.count
    case Hours => 60 * 60 * d.count
  }

  // ---------- every derivation is parsed to its tree ----------

  lemma Assoc(a: seq<Token>, b: seq<Token>, c: seq<Token>)
    ensures a + (b + c) == a + b + c
  {
  }

  /** Taking the first token of `[t] + a + b` leaves `a + b`. */
  lemma Cons(t: Token, a: seq<Token>, b: seq<Token>)
    ensures [t] + a + b == [t] + (a + b)
    ensures ([t] + a + b)[0] == t && ([t] + a + b)[1..] == a + b
  {
    Assoc([t], a, b);
  }

  lemma Shift(a: seq<Token>, t: Token, b: seq<Token>, c: seq<Token>)
    ensures a + [t] + b + c == a + ([t] + b + c)
  {
    Regroup(a, t, b, c);
    Assoc([t], b, c);
  }

  lemma Uncons(ts: seq<Token>)
    requires ts != []
    ensures ts == [ts[0]] + ts[1..]
  {
  }

  lemma TakeTwo(t: Token, u: Token, tail: seq<Token>)
    ensures var ts := [t, u] + tail; ts[0] == t && ts[1..] == [u] + tail && ts[1..][0] == u && ts[1..][1..] == tail
  {
  }

  lemma {:induction false} ValuesParsed(done: seq<Literal>, vs: seq<Literal>, rest: seq<Token>)
    requires !Next(rest, Comma)
    ensures ValuesTail(done, YieldValues(vs) + rest) == Ok(done + vs, rest)
    decreases |vs|
  {
    var ts := YieldValues(vs) + rest;
    if vs == [] {
      assert ts == rest && done + vs == done;
    } else {
      var tail := YieldValues(vs[1..]) + rest;
      ValuesParsed(done + [vs[0]], vs[1..], rest);
      Assoc([Comma, Lit(vs[0])], YieldValues(vs[1..]), rest);
      TakeTwo(Comma, Lit(vs[0]), tail);
      assert done + [vs[0]] + vs[1..] == done + vs;
    }
  }

  lemma ListParsed(field: string, v: Literal, vs: seq<Literal>, rest: seq<Token>)
    ensures ParseList(field, [LParen, Lit(v)] + YieldValues(vs) + [RParen] + rest) == Ok(In(field, [v] + vs), rest)
  {
    var ts, tail := [LParen, Lit(v)] + YieldValues(vs) + [RParen] + rest, [RParen] + rest;
    ListTail(v, YieldValues(vs), rest);
    ValuesParsed([v], vs, tail);
    assert tail[1..] == rest;
  }

  lemma ListTail(v: Literal, mid: seq<Token>, rest: seq<Token>)
    ensures var ts := [LParen, Lit(v)] + mid + [RParen] + rest;
      Next(ts, LParen) && ts[1..][0] == Lit(v) && ts[1..][1..] == mid + ([RParen] + rest)
  {
    var tail := [RParen] + rest;
    Assoc([LParen, Lit(v)] + mid, [RParen], rest);
    Assoc([LParen, Lit(v)], mid, tail);
    assert ([LParen, Lit(v)] + (mid + tail))[2..] == mid + tail;
  }

  lemma ComparisonParsed(f: string, op: Comparator, v: Literal, rest: seq<Token>)
    ensures ParsePrimary([Ident(f), Comp(op), Lit(v)] + rest) == Ok(Cmp(f, op, v), rest)
  {
    var ts := [Ident(f), Comp(op), Lit(v)] + rest;
    assert ts[1..] == [Comp(op), Lit(v)] + rest;
    assert ts[1..][1..] == [Lit(v)] + rest && ts[1..][1..][1..] == rest;
  }

  lemma MembershipParsed(f: string, v: Literal, vs: seq<Literal>, rest: seq<Token>)
    ensures ParsePrimary([Ident(f), IN, LParen, Lit(v)] + YieldValues(vs) + [RParen] + rest) == Ok(In(f, [v] + vs), rest)
  {
    var body := [LParen, Lit(v)] + YieldValues(vs) + [RParen] + rest;
    var ts := [Ident(f), IN, LParen, Lit(v)] + YieldValues(vs) + [RParen] + rest;
    assert ts == [Ident(f), IN] + body;
    assert ts[1..] == [IN] + body && ts[1..][1..] == body;
    ListParsed(f, v, vs, rest);
  }

  lemma {:induction false} PrimParsed(d: PrimD, rest: seq<Token>)
    ensures ParsePrimary(YieldPrim(d) + rest) == Ok(TreePrim(d), rest)
    decreases d
  {
    match d {
      case NotD(p) =>
        PrimParsed(p, rest);
        Cons(NOT, YieldPrim(p), rest);
      case ParenD(o) =>
        OrParsed(o, [RParen] + rest);
        Cons(LParen, YieldOr(o), [RParen] + rest);
        Assoc([LParen] + YieldOr(o), [RParen], rest);
        assert ([RParen] + rest)[1..] == rest;
      case InD(f, v, vs) => MembershipParsed(f, v, vs, rest);
      case CmpD(f, op, v) => ComparisonParsed(f, op, v, rest);
    }
  }

  lemma {:induction false} AndParsed(d: AndD, rest: seq<Token>)
    ensures ParseAnd(YieldAnd(d) + rest) == AndTail(TreeAnd(d), rest)
    decreases d
  {
    match d {
      case AndOne(p) => PrimParsed(p, rest);
      case AndMore(a, p) =>
        var tail := [AND] + YieldPrim(p) + rest;
        AndParsed(a, tail);
        Shift(YieldAnd(a), AND, YieldPrim(p), rest);
        Cons(AND, YieldPrim(p), rest);
        PrimParsed(p, rest);
    }
  }

  lemma {:induction false} OrParsed(d: OrD, rest: seq<Token>)
    requires !Next(rest, AND)
    ensures ParseOr(YieldOr(d) + rest) == OrTail(TreeOr(d), rest)
    decreases d
  {
    match d {
      case OrOne(a) => AndParsed(a, rest);
      case OrMore(o, a) =>
        var tail := [OR] + YieldAnd(a) + rest;
        OrParsed(o, tail);
        Shift(YieldOr(o), OR, YieldAnd(a), rest);
        Cons(OR, YieldAnd(a), rest);
        AndParsed(a, rest);
    }
  }

  ghost predicate EndsExpression(rest: seq<Token>) {
    !Next(rest, AND) && !Next(rest, OR)
  }

  lemma {:induction false} MoreParsed(done: seq<Pred>, ds: seq<OrD>, rest: seq<Token>)
    requires EndsExpression(rest) && !Next(rest, FOLLOWED_BY)
    ensures StepsTail(done, YieldMore(ds) + rest) == Ok(done + TreeMore(ds), rest)
    decreases |ds|
  {
    var ts := YieldMore(ds) + rest;
    if ds == [] {
      assert ts == rest && done + [] == done;
    } else {
      var o, more := ds[0], ds[1..];
      var tail := YieldMore(more) + rest;
      assert EndsExpression(tail);
      OrParsed(o, tail);
      assert ds == [o] + more;
      MoreCons(o, more, rest);
      assert ts[1..] == YieldOr(o) + tail;
      MoreParsed(done + [TreeOr(o)], more, rest);
      assert done + [TreeOr(o)] + TreeMore(more) == done + TreeMore(ds);
    }
  }

  lemma EntityParsed(name: string, o: OrD)
    ensures var d := EntityD(name, o); Parse(YieldQuery(d)) == Tree(TreeQuery(d))
  {
    OrParsed(o, []);
    assert YieldQuery(EntityD(name, o))[1..][1..][1..] == YieldOr(o) + [];
  }

  lemma StepsParsed(o: OrD, more: seq<OrD>, within: Option<Duration>)
    ensures var d := StepsD(o, more, within); Parse(YieldQuery(d)) == Tree(TreeQuery(d))
  {
    var last := if within.Some? then [WITHIN, Dur(within.value)] else [];
    var tail := YieldMore(more) + last;
    assert EndsExpression(tail);
    OrParsed(o, tail);
    Assoc(YieldOr(o), YieldMore(more), last);
    assert YieldQuery(StepsD(o, more, within)) == YieldOr(o) + tail;
    MoreParsed([TreeOr(o)], more, last);
    OrStartsInside(o);
    assert (YieldOr(o) + tail)[0] == YieldOr(o)[0];
    if within.Some? { assert last[1..] == [Dur(within.value)] && last[1..][1..] == []; }
  }

  /** Completeness: the token string of any derivation is accepted, with the tree it denotes. */
  lemma DerivationIsParsed(d: QueryD)
    ensures Parse(YieldQuery(d)) == Tree(TreeQuery(d))
  {
    match d {
      case EntityD(name, o) => EntityParsed(name, o);
      case StepsD(o, more, within) => StepsParsed(o, more, within);
    }
  }

  lemma {:induction false} OrStartsInside(d: OrD)
    ensures YieldOr(d) != [] && YieldOr(d)[0] != FROM
    decreases d
  {
    match d {
      case OrOne(a) => AndStartsInside(a);
      case OrMore(o, a) => OrStartsInside(o);
    }
  }

  lemma {:induction false} AndStartsInside(d: AndD)
    ensures YieldAnd(d) != [] && YieldAnd(d)[0] != FROM
    decreases d
  {
    match d {
      case AndOne(p) =>
      case AndMore(a, p) => AndStartsInside(a);
    }
  }

  // ---------- whatever is parsed has a derivation ----------

  lemma {:induction false} ValuesDerived(done: seq<Literal>, ts: seq<Token>) returns (vs: seq<Literal>)
    requires ValuesTail(done, ts).Ok?
    ensures var r := ValuesTail(done, ts); r.value == done + vs && ts == YieldValues(vs) + r.rest
    decreases |ts|
  {
    vs := [];
    if Next(ts, Comma) {
      var v := TakeValue(ts[1..]);
      var more := ValuesDerived(done + [v.value], v.rest);
      vs := [v.value] + more;
      assert vs[1..] == more;
      Uncons(ts);
      Uncons(ts[1..]);
      assert done + [v.value] + more == done + vs;
      var r := ValuesTail(done, ts);
      calc {
        ts;
        [Comma] + ([Lit(v.value)] + (YieldValues(more) + r.rest));
        { Assoc([Comma], [Lit(v.value)], YieldValues(more) + r.rest); }
        [Comma, Lit(v.value)] + (YieldValues(more) + r.rest);
        { Assoc([Comma, Lit(v.value)], YieldValues(more), r.rest); }
        YieldValues(vs) + r.rest;
      }
    }
  }

  lemma Regroup(a: seq<Token>, t: Token, b: seq<Token>, c: seq<Token>)
    ensures a + ([t] + (b + c)) == a + [t] + b + c
  {
    Assoc(a, [t], b + c);
    Assoc(a + [t], b, c);
  }

  lemma ComparisonDerived(f: string, ts: seq<Token>) returns (d: PrimD)
    requires ParseComparison(f, ts).Ok?
    ensures var r := ParseComparison(f, ts); TreePrim(d) == r.value && [Ident(f)] + ts == YieldPrim(d) + r.rest
  {
    d := CmpD(f, ts[0].op, ts[1].value);
    assert ts == [ts[0], ts[1]] + ts[1..][1..];
  }

  lemma ListTokens(f: string, v: Literal, mid: seq<Token>, rest: seq<Token>)
    ensures [Ident(f), IN] + ([LParen] + ([Lit(v)] + (mid + ([RParen] + rest)))) ==
            [Ident(f), IN, LParen, Lit(v)] + mid + [RParen] + rest
  {
    Assoc([Ident(f), IN], [LParen], [Lit(v)] + (mid + ([RParen] + rest)));
    Assoc([Ident(f), IN] + [LParen], [Lit(v)], mid + ([RParen] + rest));
    assert [Ident(f), IN] + [LParen] + [Lit(v)] == [Ident(f), IN, LParen, Lit(v)];
    Assoc([Ident(f), IN, LParen, Lit(v)], mid, [RParen] + rest);
    Assoc([Ident(f), IN, LParen, Lit(v)] + mid, [RParen], rest);
  }

  lemma ListDerived(f: string, ts: seq<Token>) returns (v: Literal, vs: seq<Literal>)
    requires ParseList(f, ts).Ok?
    ensures var r := ParseList(f, ts);
      && r.value == In(f, [v] + vs)
      && ts == [LParen] + ([Lit(v)] + (YieldValues(vs) + ([RParen] + r.rest)))
  {
    var first := TakeValue(ts[1..]);
    v := first.value;
    vs := ValuesDerived([v], first.rest);
    var q := ValuesTail([v], first.rest);
    Uncons(ts);
    Uncons(ts[1..]);
    Uncons(q.rest);
  }

  lemma ParenDerived(ts: seq<Token>, o: OrD)
    requires Next(ts, LParen) && ParsePrimary(ts).Ok?
    requires ts[1..] == YieldOr(o) + ParseOr(ts[1..]).rest
    ensures ts == YieldPrim(ParenD(o)) + ParsePrimary(ts).rest
  {
    var q := ParseOr(ts[1..]);
    Uncons(ts);
    Uncons(q.rest);
    Assoc([LParen], YieldOr(o), q.rest);
    Assoc([LParen] + YieldOr(o), [RParen], q.rest[1..]);
  }

  lemma FieldDerived(ts: seq<Token>) returns (d: PrimD)
    requires ParsePrimary(ts).Ok? && !Next(ts, NOT) && !Next(ts, LParen)
    ensures var r := ParsePrimary(ts); TreePrim(d) == r.value && ts == YieldPrim(d) + r.rest
  {
    Uncons(ts);
    var f := TakeIdent(ts);
    if Next(f.rest, IN) {
      var v, vs := ListDerived(f.value, f.rest[1..]);
      d := InD(f.value, v, vs);
      ListTokens(f.value, v, YieldValues(vs), ParsePrimary(ts).rest);
      Uncons(f.rest);
      Assoc([ts[0]], [IN], f.rest[1..]);
    } else {
      d := ComparisonDerived(f.value, f.rest);
    }
  }

  lemma {:induction false} PrimDerived(ts: seq<Token>) returns (d: PrimD)
    requires ParsePrimary(ts).Ok?
    ensures var r := ParsePrimary(ts); TreePrim(d) == r.value && ts == YieldPrim(d) + r.rest
    decreases |ts|, 0
  {
    Uncons(ts);
    if Next(ts, NOT) {
      var p := PrimDerived(ts[1..]);
      d := NotD(p);
      Assoc([NOT], YieldPrim(p), ParsePrimary(ts).rest);
    } else if Next(ts, LParen) {
      var o := OrDerived(ts[1..]);
      d := ParenD(o);
      ParenDerived(ts, o);
    } else {
      d := FieldDerived(ts);
    }
  }

  lemma {:induction false} AndTailDerived(left: AndD, ts: seq<Token>) returns (d: AndD)
    requires AndTail(TreeAnd(left), ts).Ok?
    ensures var r := AndTail(TreeAnd(left), ts); TreeAnd(d) == r.value && YieldAnd(left) + ts == YieldAnd(d) + r.rest
    decreases |ts|, 2
  {
    d := left;
    if Next(ts, AND) {
      var p := PrimDerived(ts[1..]);
      var more := AndMore(left, p);
      var q := ParsePrimary(ts[1..]);
      d := AndTailDerived(more, q.rest);
      Uncons(ts);
      Regroup(YieldAnd(left), AND, YieldPrim(p), q.rest);
    }
  }

  lemma {:induction false} AndDerived(ts: seq<Token>) returns (d: AndD)
    requires ParseAnd(ts).Ok?
    ensures var r := ParseAnd(ts); TreeAnd(d) == r.value && ts == YieldAnd(d) + r.rest
    decreases |ts|, 1
  {
    var p := PrimDerived(ts);
    d := AndTailDerived(AndOne(p), ParsePrimary(ts).rest);
  }

  lemma {:induction false} OrTailDerived(left: OrD, ts: seq<Token>) returns (d: OrD)
    requires OrTail(TreeOr(left), ts).Ok?
    ensures var r := OrTail(TreeOr(left), ts); TreeOr(d) == r.value && YieldOr(left) + ts == YieldOr(d) + r.rest
    decreases |ts|, 4
  {
    d := left;
    if Next(ts, OR) {
      var a := AndDerived(ts[1..]);
      var more := OrMore(left, a);
      var q := ParseAnd(ts[1..]);
      d := OrTailDerived(more, q.rest);
      Uncons(ts);
      Regroup(YieldOr(left), OR, YieldAnd(a), q.rest);
    }
  }

  lemma {:induction false} OrDerived(ts: seq<Token>) returns (d: OrD)
    requires ParseOr(ts).Ok?
    ensures var r := ParseOr(ts); TreeOr(d) == r.value && ts == YieldOr(d) + r.rest
    decreases |ts|, 3
  {
    var a := AndDerived(ts);
    d := OrTailDerived(OrOne(a), ParseAnd(ts).rest);
  }

  lemma MoreCons(o: OrD, more: seq<OrD>, rest: seq<Token>)
    ensures [FOLLOWED_BY] + (YieldOr(o) + (YieldMore(more) + rest)) == YieldMore([o] + more) + rest
    ensures TreeMore([o] + more) == [TreeOr(o)] + TreeMore(more)
  {
    assert ([o] + more)[1..] == more;
    Assoc([FOLLOWED_BY], YieldOr(o), YieldMore(more) + rest);
    Assoc([FOLLOWED_BY] + YieldOr(o), YieldMore(more), rest);
  }

  lemma {:induction false} MoreDerived(done: seq<Pred>, ts: seq<Token>) returns (ds: seq<OrD>)
    requires StepsTail(done, ts).Ok?
    ensures var r := StepsTail(done, ts); r.value == done + TreeMore(ds) && ts == YieldMore(ds) + r.rest
    decreases |ts|
  {
    ds := [];
    if Next(ts, FOLLOWED_BY) {
      var o := OrDerived(ts[1..]);
      var q := ParseOr(ts[1..]);
      var more := MoreDerived(done + [q.value], q.rest);
      ds := [o] + more;
      Uncons(ts);
      MoreCons(o, more, StepsTail(done, ts).rest);
    }
  }

  /** Soundness: an accepted token string has a derivation, and the tree returned is the one it denotes. */
  lemma ParsedIsDerived(ts: seq<Token>) returns (d: QueryD)
    requires Parse(ts).Tree?
    ensures YieldQuery(d) == ts && Parse(ts) == Tree(TreeQuery(d))
  {
    if Next(ts, FROM) {
      var name := TakeIdent(ts[1..]);
      var o := OrDerived(name.rest[1..]);
      d := EntityD(name.value, o);
      assert ts == [FROM, Ident(name.value), WHERE] + name.rest[1..];
    } else {
      d := StepsDerived(ts);
    }
  }

  lemma WithinDerived(rest: seq<Token>)
    requires |rest| == 2 && rest[0] == WITHIN && rest[1].Dur?
    ensures rest == [WITHIN, Dur(rest[1].duration)] && ToSeconds(rest[1].duration) == SecondsOf(rest[1].duration)
  {
  }

  lemma StepsDerived(ts: seq<Token>) returns (d: QueryD)
    requires Parse(ts).Tree? && !Next(ts, FROM)
    ensures YieldQuery(d) == ts && Parse(ts) == Tree(TreeQuery(d))
  {
    var o := OrDerived(ts);
    var first := ParseOr(ts);
    var more := MoreDerived([first.value], first.rest);
    var steps := StepsTail([first.value], first.rest);
    Assoc(YieldOr(o), YieldMore(more), steps.rest);
    if Next(steps.rest, WITHIN) {
      d := StepsD(o, more, Some(steps.rest[1].duration));
      WithinDerived(steps.rest);
    } else {
      d := StepsD(o, more, None);
      assert steps.rest == [];
    }
  }

  ghost predicate Derivable(ts: seq<Token>, q: Query) {
    exists d :: YieldQuery(d) == ts && TreeQuery(d) == q
  }

  /** The parser accepts exactly the token strings of the grammar and returns the one tree each
      of them denotes. */
  lemma ParserDecidesGrammar(ts: seq<Token>, q: Query)
    ensures Parse(ts) == Tree(q) <==> Derivable(ts, q)
  {
    if Parse(ts) == Tree(q) {
      var d := ParsedIsDerived(ts);
      assert YieldQuery(d) == ts && TreeQuery(d) == q;
    }
    if Derivable(ts, q) {
      var d :| YieldQuery(d) == ts && TreeQuery(d) == q;
      DerivationIsParsed(d);
    }
  }

  /** No token string denotes two trees. */
  lemma GrammarIsUnambiguous(ts: seq<Token>, q: Query, q': Query)
    requires Derivable(ts, q) && Derivable(ts, q')
    ensures q == q'
  {
    ParserDecidesGrammar(ts, q);
    ParserDecidesGrammar(ts, q');
  }

  // ---------- printing with the fewest parentheses ----------

  /** Trees the parser can return: IN lists are not empty. */
  ghost predicate Proper(p: Pred) {
    match p
    case Or(l, r) => Proper(l) && Proper(r)
    case And(l, r) => Proper(l) && Proper(r)
    case Not(i) => Proper(i)
    case In(_, vs) => vs != []
    case Cmp(_, _, _) => true
  }

  ghost predicate ProperQuery(q: Query) {
    match q
    case Entity(_, p) => Proper(p)
    case Steps(steps, _) => steps != [] && forall p :: p in steps ==> Proper(p)
  }

  ghost function OrOf(p: Pred): OrD
    requires Proper(p)
    decreases p, 2
  {
    if p.Or? then OrMore(OrOf(p.left), AndOf(p.right)) else OrOne(AndOf(p))
  }

  ghost function AndOf(p: Pred): AndD
    requires Proper(p)
    decreases p, if p.Or? then 4 else 1
  {
    if p.And? then AndMore(AndOf(p.left), PrimOf(p.right)) else AndOne(PrimOf(p))
  }

  ghost function PrimOf(p: Pred): PrimD
    requires Proper(p)
    decreases p, if p.Or? || p.And? then 3 else 0
  {
    match p
    case Not(i) => NotD(PrimOf(i))
    case In(f, vs) => InD(f, vs[0], vs[1..])
    case Cmp(f, op, v) => CmpD(f, op, v)
    case _ => ParenD(OrOf(p))
  }

  ghost function OrsOf(ps: seq<Pred>): seq<OrD>
    requires forall p :: p in ps ==> Proper(p)
  {
    if ps == [] then [] else [OrOf(ps[0])] + OrsOf(ps[1..])
  }

  ghost function QueryOf(q: Query): QueryD
    requires ProperQuery(q)
  {
    match q
    case Entity(name, p) => EntityD(name, OrOf(p))
    case Steps(steps, within) =>
      StepsD(OrOf(steps[0]), OrsOf(steps[1..]), if within.Some? then Some(Duration(within.value, Seconds)) else None)
  }

  /** Parentheses only where the grammar needs them; durations in seconds. */
  ghost function Print(q: Query): seq<Token>
    requires ProperQuery(q)
  {
    YieldQuery(QueryOf(q))
  }

  lemma LeafForms(p: Pred)
    requires Proper(p) && !p.Or? && !p.And?
    ensures AndOf(p) == AndOne(PrimOf(p)) && OrOf(p) == OrOne(AndOf(p))
    ensures TreeOr(OrOf(p)) == TreeAnd(AndOf(p)) == TreePrim(PrimOf(p))
  {
  }

  lemma {:induction false} OrOfTree(p: Pred)
    requires Proper(p)
    ensures TreeOr(OrOf(p)) == p && TreeAnd(AndOf(p)) == p && TreePrim(PrimOf(p)) == p
  {
    match p {
      case Or(l, r) =>
        OrOfTree(l);
        OrOfTree(r);
        assert TreeOr(OrOf(p)) == p;
      case And(l, r) =>
        OrOfTree(l);
        OrOfTree(r);
        assert TreeAnd(AndOf(p)) == p && OrOf(p) == OrOne(AndOf(p));
      case Not(i) =>
        OrOfTree(i);
        LeafForms(p);
      case In(_, vs) =>
        assert [vs[0]] + vs[1..] == vs;
        LeafForms(p);
      case Cmp(_, _, _) =>
        LeafForms(p);
    }
  }

  lemma {:induction false} OrsOfTree(ps: seq<Pred>)
    requires forall p :: p in ps ==> Proper(p)
    ensures TreeMore(OrsOf(ps)) == ps
  {
    if ps != [] {
      OrOfTree(ps[0]);
      OrsOfTree(ps[1..]);
      assert OrsOf(ps)[1..] == OrsOf(ps[1..]);
    }
  }

  /** Round trip: printing any tree the parser can return and parsing it again gives that tree. */
  lemma PrintThenParse(q: Query)
    requires ProperQuery(q)
    ensures Parse(Print(q)) == Tree(q)
  {
    DerivationIsParsed(QueryOf(q));
    match q {
      case Entity(_, p) => OrOfTree(p);
      case Steps(steps, _) =>
        OrOfTree(steps[0]);
        OrsOfTree(steps[1..]);
        assert [steps[0]] + steps[1..] == steps;
    }
  }

  lemma {:induction false} TreesAreProper(o: OrD)
    ensures Proper(TreeOr(o))
    decreases o
  {
    match o {
      case OrOne(a) => AndTreesAreProper(a);
      case OrMore(f, a) => TreesAreProper(f); AndTreesAreProper(a);
    }
  }

  lemma {:induction false} AndTreesAreProper(a: AndD)
    ensures Proper(TreeAnd(a))
    decreases a
  {
    match a {
      case AndOne(p) => PrimTreesAreProper(p);
      case AndMore(f, p) => AndTreesAreProper(f); PrimTreesAreProper(p);
    }
  }

  lemma {:induction false} PrimTreesAreProper(p: PrimD)
    ensures Proper(TreePrim(p))
    decreases p
  {
    match p {
      case NotD(i) => PrimTreesAreProper(i);
      case ParenD(o) => TreesAreProper(o);
      case InD(_, _, _) =>
      case CmpD(_, _, _) =>
    }
  }

  lemma {:induction false} MoreTreesAreProper(ds: seq<OrD>)
    ensures |TreeMore(ds)| == |ds| && forall p :: p in TreeMore(ds) ==> Proper(p)
  {
    if ds != [] {
      TreesAreProper(ds[0]);
      MoreTreesAreProper(ds[1..]);
    }
  }

  /** Whatever the parser returns is proper: steps and IN lists are never empty. */
  lemma ParsedIsProper(ts: seq<Token>)
    requires Parse(ts).Tree?
    ensures ProperQuery(Parse(ts).query)
  {
    var d := ParsedIsDerived(ts);
    match d {
      case EntityD(_, o) => TreesAreProper(o);
      case StepsD(o, more, _) =>
        TreesAreProper(o);
        MoreTreesAreProper(more);
    }
  }

  // ---------- the printed form is the shortest ----------

  lemma {:induction false} FewestOr(d: OrD)
    ensures Proper(TreeOr(d)) && |YieldOr(OrOf(TreeOr(d)))| <= |YieldOr(d)|
    decreases d
  {
    TreesAreProper(d);
    match d {
      case OrOne(a) => FewestAnd(a);
      case OrMore(f, a) => FewestOr(f); FewestAnd(a);
    }
  }

  lemma {:induction false} FewestAnd(d: AndD)
    ensures Proper(TreeAnd(d)) && |YieldAnd(AndOf(TreeAnd(d)))| <= |YieldAnd(d)|
    decreases d
  {
    AndTreesAreProper(d);
    match d {
      case AndOne(p) => FewestPrim(p);
      case AndMore(f, p) => FewestAnd(f); FewestPrim(p);
    }
  }

  lemma {:induction false} FewestPrim(d: PrimD)
    ensures Proper(TreePrim(d)) && |YieldPrim(PrimOf(TreePrim(d)))| <= |YieldPrim(d)|
    decreases d
  {
    PrimTreesAreProper(d);
    match d {
      case NotD(p) => FewestPrim(p);
      case ParenD(o) => FewestOr(o);
      case InD(_, v, vs) => assert ([v] + vs)[1..] == vs;
      case CmpD(_, _, _) =>
    }
  }

  lemma {:induction false} FewestMore(ds: seq<OrD>)
    ensures (forall p :: p in TreeMore(ds) ==> Proper(p)) && |YieldMore(OrsOf(TreeMore(ds)))| <= |YieldMore(ds)|
  {
    MoreTreesAreProper(ds);
    if ds != [] {
      FewestOr(ds[0]);
      FewestMore(ds[1..]);
      assert TreeMore(ds)[1..] == TreeMore(ds[1..]);
      assert OrsOf(TreeMore(ds))[1..] == OrsOf(TreeMore(ds[1..]));
    }
  }

  /** Every parsed query is one Print covers, and no token string for the same query is shorter
      than the printed one. */
  lemma PrintIsShortest(ts: seq<Token>)
    requires Parse(ts).Tree?
    ensures ProperQuery(Parse(ts).query) && |Print(Parse(ts).query)| <= |ts|
  {
    var d := ParsedIsDerived(ts);
    match d {
      case EntityD(_, o) => FewestOr(o);
      case StepsD(o, more, _) =>
        FewestOr(o);
        MoreTreesAreProper(more);
        FewestMore(more);
        assert ([TreeOr(o)] + TreeMore(more))[1..] == TreeMore(more);
    }
  }
}
