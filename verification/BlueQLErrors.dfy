/** Why a query is rejected: every error names what is missing at some token, after what comes before it. */
module BlueQLErrors {
  import opened Common
  import opened BlueQL

  /** A predicate may start here. */
  predicate Opens(before: Option<Token>) {
    before.None? || before.value in {FROM, WHERE, FOLLOWED_BY, OR, AND, NOT, LParen}
  }

  /** A predicate has just ended. */
  predicate Closes(before: Option<Token>) { before.Some? && (before.value.Lit? || before.value == RParen) }

  predicate Unless(here: Option<Token>, wanted: Token) { here != Some(wanted) }

  /** What an error says about the token before a place and the one there, if any. */
  predicate Reason(before: Option<Token>, here: Option<Token>, e: Error) {
    match e
    case ExpectedIdentifier => Opens(before) && !(here.Some? && here.value.Ident?)
    case FromRequiresWhere => before.Some? && before.value.Ident? && Unless(here, WHERE)
    case ExpectedComparator => before.Some? && before.value.Ident? && !(here.Some? && here.value.Comp?) && Unless(here, IN)
    case ExpectedLiteral =>
      before.Some? && (before.value.Comp? || before.value in {LParen, Comma}) && !(here.Some? && here.value.Lit?)
    case InRequiresList => before == Some(IN) && Unless(here, LParen)
    case MissingParenAfterList => before.Some? && before.value.Lit? && Unless(here, RParen) && Unless(here, Comma)
    case MissingParen => Closes(before) && Unless(here, RParen) && Unless(here, AND) && Unless(here, OR)
    case ExpectedDuration => before == Some(WITHIN) && !(here.Some? && here.value.Dur?)
    case UnexpectedInput => (Closes(before) || (before.Some? && before.value.Dur?)) && here.Some?
  }

  function At(ts: seq<Token>, k: nat): Option<Token> { if k < |ts| then Some(ts[k]) else None }

  function JustBefore(prev: Option<Token>, ts: seq<Token>, k: nat): Option<Token>
    requires k <= |ts|
  {
    if k == 0 then prev else Some(ts[k-1])
  }

  ghost predicate FailsAt(prev: Option<Token>, ts: seq<Token>, k: nat, e: Error) {
    k <= |ts| && Reason(JustBefore(prev, ts, k), At(ts, k), e)
  }

  /** There is a place in `ts`, which follows `prev`, for which the error holds. */
  ghost predicate Fails(prev: Option<Token>, ts: seq<Token>, e: Error) { exists k: nat :: FailsAt(prev, ts, k, e) }

  /** `rest` is what remains of `ts` after `n` tokens. */
  ghost predicate Remains(ts: seq<Token>, rest: seq<Token>, n: nat) { n <= |ts| && rest == ts[n..] }

  /** What is left after a predicate: some tokens are gone, the last of which ends the predicate. */
  ghost predicate EndsBefore(ts: seq<Token>, rest: seq<Token>) {
    exists n: nat :: n > 0 && Remains(ts, rest, n) && Closes(Some(ts[n-1]))
  }

  lemma FailsLater(prev: Option<Token>, ts: seq<Token>, n: nat, e: Error)
    requires n <= |ts| && Fails(JustBefore(prev, ts, n), ts[n..], e)
    ensures Fails(prev, ts, e)
  {
    var k: nat :| FailsAt(JustBefore(prev, ts, n), ts[n..], k, e);
    assert JustBefore(prev, ts, n + k) == JustBefore(JustBefore(prev, ts, n), ts[n..], k);
    assert At(ts, n + k) == At(ts[n..], k);
    assert FailsAt(prev, ts, n + k, e);
  }

  lemma EndsLater(ts: seq<Token>, n: nat, rest: seq<Token>)
    requires n <= |ts| && EndsBefore(ts[n..], rest)
    ensures EndsBefore(ts, rest)
  {
    var m: nat :| m > 0 && Remains(ts[n..], rest, m) && Closes(Some(ts[n..][m-1]));
    assert ts[n..][m..] == ts[n+m..] && ts[n+m-1] == ts[n..][m-1];
    assert Remains(ts, rest, n + m);
  }

  lemma EndsAgain(ts: seq<Token>, mid: seq<Token>, rest: seq<Token>)
    requires EndsBefore(ts, mid) && (rest == mid || EndsBefore(mid, rest))
    ensures EndsBefore(ts, rest)
  {
    var n: nat :| n > 0 && Remains(ts, mid, n) && Closes(Some(ts[n-1]));
    if rest != mid { EndsLater(ts, n, rest); }
  }

  lemma FailsAfterEnd(prev: Option<Token>, ts: seq<Token>, mid: seq<Token>, e: Error)
    requires EndsBefore(ts, mid)
    requires forall before :: Closes(before) ==> Fails(before, mid, e)
    ensures Fails(prev, ts, e)
  {
    var n: nat :| n > 0 && Remains(ts, mid, n) && Closes(Some(ts[n-1]));
    FailsLater(prev, ts, n, e);
  }

  // ---------- the parts of a predicate ----------

  lemma {:induction false} ValuesFail(prev: Option<Token>, values: seq<Literal>, ts: seq<Token>)
    requires prev.Some? && prev.value.Lit?
    ensures var r := ValuesTail(values, ts);
      if r.Err? then Fails(prev, ts, r.error)
      else exists n: nat :: Remains(ts, r.rest, n) && JustBefore(prev, ts, n).value.Lit? && Unless(At(ts, n), Comma)
    decreases |ts|
  {
    if Next(ts, Comma) {
      var v := TakeValue(ts[1..]);
      if v.Err? {
        assert FailsAt(prev, ts, 1, ExpectedLiteral);
      } else {
        assert v.rest == ts[2..];
        ValuesFail(Some(ts[1]), values + [v.value], v.rest);
        var r := ValuesTail(values + [v.value], v.rest);
        if r.Err? { FailsLater(prev, ts, 2, r.error); }
        else {
          var n: nat :| Remains(ts[2..], r.rest, n) && JustBefore(Some(ts[1]), ts[2..], n).value.Lit? && Unless(At(ts[2..], n), Comma);
          assert Remains(ts, r.rest, n + 2) && JustBefore(prev, ts, n + 2) == JustBefore(Some(ts[1]), ts[2..], n);
          assert At(ts, n + 2) == At(ts[2..], n);
        }
      }
    } else {
      assert Remains(ts, ts, 0);
    }
  }

  lemma ListFails(field: string, ts: seq<Token>)
    ensures var r := ParseList(field, ts); if r.Err? then Fails(Some(IN), ts, r.error) else EndsBefore(ts, r.rest)
  {
    var prev := Some(IN);
    if !Next(ts, LParen) {
      assert FailsAt(prev, ts, 0, InRequiresList);
    } else {
      var first := TakeValue(ts[1..]);
      if first.Err? {
        assert FailsAt(prev, ts, 1, ExpectedLiteral);
      } else {
        assert first.rest == ts[2..];
        ValuesFail(Some(ts[1]), [first.value], first.rest);
        var vs := ValuesTail([first.value], first.rest);
        if vs.Err? { FailsLater(prev, ts, 2, vs.error); }
        else {
          var n: nat :| Remains(ts[2..], vs.rest, n) && JustBefore(Some(ts[1]), ts[2..], n).value.Lit? && Unless(At(ts[2..], n), Comma);
          ListEnds(ts, n, vs.rest);
        }
      }
    }
  }

  lemma ListEnds(ts: seq<Token>, n: nat, rest: seq<Token>)
    requires |ts| >= 2 && Remains(ts[2..], rest, n) && JustBefore(Some(ts[1]), ts[2..], n).value.Lit? && Unless(At(ts[2..], n), Comma)
    ensures if Next(rest, RParen) then EndsBefore(ts, rest[1..]) else Fails(Some(IN), ts, MissingParenAfterList)
  {
    assert JustBefore(Some(IN), ts, n + 2) == JustBefore(Some(ts[1]), ts[2..], n) && At(ts, n + 2) == At(ts[2..], n);
    assert rest == ts[n+2..];
    if Next(rest, RParen) {
      assert ts[n+2] == RParen && Remains(ts, rest[1..], n + 3);
    } else {
      assert FailsAt(Some(IN), ts, n + 2, MissingParenAfterList);
    }
  }

  lemma ComparisonFails(field: string, prev: Option<Token>, ts: seq<Token>)
    requires prev.Some? && prev.value.Ident? && !Next(ts, IN)
    ensures var r := ParseComparison(field, ts); if r.Err? then Fails(prev, ts, r.error) else EndsBefore(ts, r.rest)
  {
    var r := ParseComparison(field, ts);
    if ts == [] || !ts[0].Comp? {
      assert FailsAt(prev, ts, 0, ExpectedComparator);
    } else if r.Err? {
      assert FailsAt(prev, ts, 1, ExpectedLiteral);
    } else {
      assert Remains(ts, r.rest, 2) && Closes(Some(ts[1]));
    }
  }

  lemma {:induction false} PrimaryFails(prev: Option<Token>, ts: seq<Token>)
    requires Opens(prev)
    ensures var r := ParsePrimary(ts); if r.Err? then Fails(prev, ts, r.error) else EndsBefore(ts, r.rest)
    decreases |ts|, 0
  {
    var r := ParsePrimary(ts);
    if Next(ts, NOT) {
      PrimaryFails(Some(NOT), ts[1..]);
      if r.Err? { FailsLater(prev, ts, 1, r.error); } else { EndsLater(ts, 1, r.rest); }
    } else if Next(ts, LParen) {
      OrFails(Some(LParen), ts[1..]);
      var p := ParseOr(ts[1..]);
      if p.Err? { FailsLater(prev, ts, 1, p.error); }
      else { ParenthesesEnd(prev, ts, p.rest); }
    } else if ts == [] || !ts[0].Ident? {
      assert FailsAt(prev, ts, 0, ExpectedIdentifier);
    } else {
      FieldFails(prev, ts);
    }
  }

  lemma ParenthesesEnd(prev: Option<Token>, ts: seq<Token>, rest: seq<Token>)
    requires ts != [] && EndsBefore(ts[1..], rest) && !Next(rest, AND) && !Next(rest, OR)
    ensures if Next(rest, RParen) then EndsBefore(ts, rest[1..]) else Fails(prev, ts, MissingParen)
  {
    EndsLater(ts, 1, rest);
    var n: nat :| n > 0 && Remains(ts, rest, n) && Closes(Some(ts[n-1]));
    if Next(rest, RParen) {
      assert Remains(ts, rest[1..], n + 1) && ts[n] == RParen;
    } else {
      assert FailsAt(prev, ts, n, MissingParen);
    }
  }

  lemma FieldFails(prev: Option<Token>, ts: seq<Token>)
    requires ts != [] && ts[0].Ident?
    ensures var r := ParsePrimary(ts); if r.Err? then Fails(prev, ts, r.error) else EndsBefore(ts, r.rest)
  {
    var r, rest := ParsePrimary(ts), ts[1..];
    if Next(rest, IN) {
      ListFails(ts[0].name, rest[1..]);
      assert rest[1..] == ts[2..];
      if r.Err? { FailsLater(prev, ts, 2, r.error); } else { EndsLater(ts, 2, r.rest); }
    } else {
      ComparisonFails(ts[0].name, Some(ts[0]), rest);
      if r.Err? { FailsLater(prev, ts, 1, r.error); } else { EndsLater(ts, 1, r.rest); }
    }
  }

  lemma {:induction false} AndFails(prev: Option<Token>, ts: seq<Token>)
    requires Opens(prev)
    ensures var r := ParseAnd(ts); if r.Err? then Fails(prev, ts, r.error) else EndsBefore(ts, r.rest) && !Next(r.rest, AND)
    decreases |ts|, 1
  {
    PrimaryFails(prev, ts);
    var p := ParsePrimary(ts);
    if p.Ok? {
      AndTailFails(p.value, p.rest);
      var r := AndTail(p.value, p.rest);
      if r.Err? { FailsAfterEnd(prev, ts, p.rest, r.error); } else { EndsAgain(ts, p.rest, r.rest); }
    }
  }

  lemma {:induction false} AndTailFails(left: Pred, ts: seq<Token>)
    ensures var r := AndTail(left, ts);
      if r.Err? then forall before :: Closes(before) ==> Fails(before, ts, r.error)
      else (r.rest == ts || EndsBefore(ts, r.rest)) && !Next(r.rest, AND)
    decreases |ts|, 2
  {
    if Next(ts, AND) {
      PrimaryFails(Some(AND), ts[1..]);
      var p := ParsePrimary(ts[1..]);
      if p.Err? {
        forall before | Closes(before) ensures Fails(before, ts, p.error) { FailsLater(before, ts, 1, p.error); }
      } else {
        EndsLater(ts, 1, p.rest);
        AndTailFails(And(left, p.value), p.rest);
        var r := AndTail(And(left, p.value), p.rest);
        if r.Err? {
          forall before | Closes(before) ensures Fails(before, ts, r.error) { FailsAfterEnd(before, ts, p.rest, r.error); }
        } else {
          EndsAgain(ts, p.rest, r.rest);
        }
      }
    }
  }

  lemma {:induction false} OrFails(prev: Option<Token>, ts: seq<Token>)
    requires Opens(prev)
    ensures var r := ParseOr(ts);
      if r.Err? then Fails(prev, ts, r.error) else EndsBefore(ts, r.rest) && !Next(r.rest, AND) && !Next(r.rest, OR)
    decreases |ts|, 3
  {
    AndFails(prev, ts);
    var p := ParseAnd(ts);
    if p.Ok? {
      OrTailFails(p.value, p.rest);
      var r := OrTail(p.value, p.rest);
      if r.Err? { FailsAfterEnd(prev, ts, p.rest, r.error); } else { EndsAgain(ts, p.rest, r.rest); }
    }
  }

  lemma {:induction false} OrTailFails(left: Pred, ts: seq<Token>)
    requires !Next(ts, AND)
    ensures var r := OrTail(left, ts);
      if r.Err? then forall before :: Closes(before) ==> Fails(before, ts, r.error)
      else (r.rest == ts || EndsBefore(ts, r.rest)) && !Next(r.rest, AND) && !Next(r.rest, OR)
    decreases |ts|, 4
  {
    if Next(ts, OR) {
      AndFails(Some(OR), ts[1..]);
      var p := ParseAnd(ts[1..]);
      if p.Err? {
        forall before | Closes(before) ensures Fails(before, ts, p.error) { FailsLater(before, ts, 1, p.error); }
      } else {
        EndsLater(ts, 1, p.rest);
        OrTailFails(Or(left, p.value), p.rest);
        var r := OrTail(Or(left, p.value), p.rest);
        if r.Err? {
          forall before | Closes(before) ensures Fails(before, ts, r.error) { FailsAfterEnd(before, ts, p.rest, r.error); }
        } else {
          EndsAgain(ts, p.rest, r.rest);
        }
      }
    }
  }

  // ---------- whole queries ----------

  lemma {:induction false} StepsFail(steps: seq<Pred>, ts: seq<Token>)
    ensures var r := StepsTail(steps, ts);
      if r.Err? then forall before :: Closes(before) ==> Fails(before, ts, r.error) else r.rest == ts || EndsBefore(ts, r.rest)
    decreases |ts|
  {
    if Next(ts, FOLLOWED_BY) {
      OrFails(Some(FOLLOWED_BY), ts[1..]);
      var p := ParseOr(ts[1..]);
      if p.Err? {
        forall before | Closes(before) ensures Fails(before, ts, p.error) { FailsLater(before, ts, 1, p.error); }
      } else {
        EndsLater(ts, 1, p.rest);
        StepsFail(steps + [p.value], p.rest);
        var r := StepsTail(steps + [p.value], p.rest);
        if r.Err? {
          forall before | Closes(before) ensures Fails(before, ts, r.error) { FailsAfterEnd(before, ts, p.rest, r.error); }
        } else {
          EndsAgain(ts, p.rest, r.rest);
        }
      }
    }
  }

  lemma LeftOverFails(ts: seq<Token>, rest: seq<Token>)
    requires EndsBefore(ts, rest) && rest != []
    ensures Fails(None, ts, UnexpectedInput)
  {
    var n: nat :| n > 0 && Remains(ts, rest, n) && Closes(Some(ts[n-1]));
    assert FailsAt(None, ts, n, UnexpectedInput);
  }

  lemma EntityFails(ts: seq<Token>)
    requires Next(ts, FROM)
    ensures var r := ParseEntity(ts[1..]); if r.Err? then Fails(None, ts, r.error) else EndsBefore(ts, r.rest)
  {
    var tail := ts[1..];
    var r := ParseEntity(tail);
    if tail == [] || !tail[0].Ident? {
      assert FailsAt(None, ts, 1, ExpectedIdentifier);
    } else if !Next(tail[1..], WHERE) {
      assert FailsAt(None, ts, 2, FromRequiresWhere);
    } else {
      OrFails(Some(WHERE), tail[1..][1..]);
      assert tail[1..][1..] == ts[3..] && ts[2] == WHERE;
      if r.Err? { FailsLater(None, ts, 3, r.error); } else { EndsLater(ts, 3, r.rest); }
    }
  }

  lemma WithinFails(ts: seq<Token>, rest: seq<Token>)
    requires EndsBefore(ts, rest) && Next(rest, WITHIN)
    ensures var d := TakeDuration(rest[1..]);
      if d.Err? then Fails(None, ts, d.error) else d.rest != [] ==> Fails(None, ts, UnexpectedInput)
  {
    var n: nat :| n > 0 && Remains(ts, rest, n) && Closes(Some(ts[n-1]));
    var d := TakeDuration(rest[1..]);
    assert ts[n] == WITHIN && rest[1..] == ts[n+1..];
    if d.Err? { assert FailsAt(None, ts, n + 1, ExpectedDuration); }
    else if d.rest != [] {
      assert d.rest == ts[n+2..];
      assert FailsAt(None, ts, n + 2, UnexpectedInput);
    }
  }

  lemma SequenceFails(ts: seq<Token>)
    requires !Next(ts, FROM)
    ensures Parse(ts).Rejected? ==> Fails(None, ts, Parse(ts).error)
  {
    OrFails(None, ts);
    var first := ParseOr(ts);
    if first.Ok? {
      StepsFail([first.value], first.rest);
      var steps := StepsTail([first.value], first.rest);
      if steps.Err? { FailsAfterEnd(None, ts, first.rest, steps.error); }
      else {
        EndsAgain(ts, first.rest, steps.rest);
        if Next(steps.rest, WITHIN) { WithinFails(ts, steps.rest); }
        else if steps.rest != [] { LeftOverFails(ts, steps.rest); }
      }
    }
  }

  /** Whatever the tokens, a rejection has its reason: there is a place in the query with the tokens around it that
      the error speaks of. */
  lemma RejectionHasItsReason(ts: seq<Token>)
    ensures Parse(ts).Rejected? ==> Fails(None, ts, Parse(ts).error)
  {
    if Next(ts, FROM) {
      EntityFails(ts);
      var r := ParseEntity(ts[1..]);
      if r.Ok? && r.rest != [] { LeftOverFails(ts, r.rest); }
    } else {
      SequenceFails(ts);
    }
  }
}
