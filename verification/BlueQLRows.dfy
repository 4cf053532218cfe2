/**
 The rows of a sequence query, exactly: the events of all reported chains, start after start and step after step,
 each id once, where it comes first.
 */
module BlueQLRows {
  import opened Common
  import opened Sorting
  import opened BlueQL
  import opened BlueQLGrammar
  import opened BlueQLSearch
  import opened BlueQLRaising
  import opened BlueQLValues
  import opened BlueQLMeaning

  /** The positions of the chains reported from the first `n` starts, one chain after the other. */
  ghost function Reports(leaf: Leaf, steps: seq<Pred>, ordered: seq<Event>, window: nat, n: nat): seq<nat>
    requires steps != []
  {
    if n == 0 then [] else Reports(leaf, steps, ordered, window, n - 1) + PositionsFrom(leaf, steps, ordered, window, n - 1)
  }

  lemma {:induction false} CollectReports(leaf: Leaf, steps: seq<Pred>, ordered: seq<Event>, index: nat, window: nat)
    requires steps != [] && index <= |ordered|
    ensures var r := Collect(leaf, steps, ordered, index, Reports(leaf, steps, ordered, window, index), window);
      r.Hits? ==> r.positions == Reports(leaf, steps, ordered, window, |ordered|)
    decreases |ordered| - index
  {
    if index < |ordered| {
      var hits := Reports(leaf, steps, ordered, window, index);
      assert hits + [] == hits;
      CollectReports(leaf, steps, ordered, index + 1, window);
    }
  }

  /** No earlier position holds an event of the same id. */
  ghost predicate ComesFirst(ordered: seq<Event>, hits: seq<nat>, k: nat)
    requires InRange(ordered, hits) && k < |hits|
  {
    forall j :: 0 <= j < k ==> ordered[hits[j]].id != ordered[hits[k]].id
  }

  /** The rows are the events at the places `ks`, in order, which are just the places where an id comes first. */
  ghost predicate FirstsInOrder(ordered: seq<Event>, hits: seq<nat>, ks: seq<nat>, rows: seq<Event>)
    requires InRange(ordered, hits)
  {
    && |ks| == |rows|
    && (forall i :: 0 <= i < |ks| ==> ks[i] < |hits| && ComesFirst(ordered, hits, ks[i]) && rows[i] == ordered[hits[ks[i]]])
    && (forall i, j :: 0 <= i < j < |ks| ==> ks[i] < ks[j])
    && (forall k :: 0 <= k < |hits| && ComesFirst(ordered, hits, k) ==> k in ks)
  }

  lemma ComesFirstInFront(ordered: seq<Event>, hits: seq<nat>, k: nat)
    requires InRange(ordered, hits) && hits != [] && k < |hits| - 1
    ensures ComesFirst(ordered, hits[..|hits|-1], k) <==> ComesFirst(ordered, hits, k)
  {
    var front := hits[..|hits|-1];
    assert forall j :: 0 <= j <= k ==> front[j] == hits[j];
  }

  lemma LastComesFirstIff(ordered: seq<Event>, hits: seq<nat>)
    requires InRange(ordered, hits) && hits != []
    ensures var front := Unique(ordered, hits[..|hits|-1]);
      ComesFirst(ordered, hits, |hits|-1) <==> !exists f :: f in front && f.id == ordered[hits[|hits|-1]].id
  {
    var init, n := hits[..|hits|-1], |hits| - 1;
    if ComesFirst(ordered, hits, n) {
      forall f | f in Unique(ordered, init) ensures f.id != ordered[hits[n]].id {
        var i :| 0 <= i < |Unique(ordered, init)| && Unique(ordered, init)[i] == f;
        var p := UniqueFromHits(ordered, init, i);
        var k :| 0 <= k < |init| && init[k] == p;
        assert hits[k] == init[k];
      }
    } else {
      var j :| 0 <= j < n && ordered[hits[j]].id == ordered[hits[n]].id;
      assert init[j] == hits[j] && hits[j] in init;
      UniqueCovers(ordered, init, hits[j]);
      var i :| 0 <= i < |Unique(ordered, init)| && Unique(ordered, init)[i].id == ordered[hits[j]].id;
      assert Unique(ordered, init)[i] in Unique(ordered, init);
    }
  }

  lemma FirstsStay(ordered: seq<Event>, hits: seq<nat>, ks: seq<nat>, rows: seq<Event>)
    requires InRange(ordered, hits) && hits != [] && FirstsInOrder(ordered, hits[..|hits|-1], ks, rows)
    ensures forall i :: 0 <= i < |ks| ==> ks[i] < |hits| - 1 && ComesFirst(ordered, hits, ks[i]) && rows[i] == ordered[hits[ks[i]]]
    ensures forall k :: 0 <= k < |hits| - 1 && ComesFirst(ordered, hits, k) ==> k in ks
  {
    forall k | 0 <= k < |hits| - 1 ensures ComesFirst(ordered, hits[..|hits|-1], k) <==> ComesFirst(ordered, hits, k) {
      ComesFirstInFront(ordered, hits, k);
    }
  }

  lemma FirstsGrow(ordered: seq<Event>, hits: seq<nat>, ks: seq<nat>, rows: seq<Event>)
    requires InRange(ordered, hits) && hits != [] && FirstsInOrder(ordered, hits[..|hits|-1], ks, rows)
    ensures var n := |hits| - 1;
      if ComesFirst(ordered, hits, n) then FirstsInOrder(ordered, hits, ks + [n], rows + [ordered[hits[n]]])
      else FirstsInOrder(ordered, hits, ks, rows)
  {
    FirstsStay(ordered, hits, ks, rows);
    var more := ks + [|hits| - 1];
    assert forall k :: k in more <==> k in ks || k == |hits| - 1;
  }

  lemma {:induction false} UniqueFirsts(ordered: seq<Event>, hits: seq<nat>) returns (ks: seq<nat>)
    requires InRange(ordered, hits)
    ensures FirstsInOrder(ordered, hits, ks, Unique(ordered, hits))
  {
    ks := [];
    if hits != [] {
      ks := UniqueFirsts(ordered, hits[..|hits|-1]);
      FirstsGrow(ordered, hits, ks, Unique(ordered, hits[..|hits|-1]));
      LastComesFirstIff(ordered, hits);
      if ComesFirst(ordered, hits, |hits| - 1) { ks := ks + [|hits| - 1]; }
    }
  }

  /** The rows are the first occurrences of each id among the reported chains, in that order. */
  lemma RowsAreFirstReports(leaf: Leaf, steps: seq<Pred>, within: Option<nat>, events: seq<Event>) returns (ks: seq<nat>)
    requires steps != []
    ensures var r, ordered := ExecuteSequence(leaf, steps, within, events), SortBy(events, ByTime());
      var hits := Reports(leaf, steps, ordered, Window(within), |ordered|);
      r.Rows? ==> InRange(ordered, hits) && FirstsInOrder(ordered, hits, ks, r.rows)
  {
    var ordered, w := SortBy(events, ByTime()), Window(within);
    ks := [];
    CollectReports(leaf, steps, ordered, 0, w);
    CollectInRange(leaf, steps, ordered, 0, [], w);
    if ExecuteSequence(leaf, steps, within, events).Rows? {
      ks := UniqueFirsts(ordered, Reports(leaf, steps, ordered, w, |ordered|));
    }
  }

  /** The events the predicate holds of, in the order given and as often as given, or an error if it raises on one. */
  ghost predicate Selected(rows: Rows, leaf: Leaf, p: Pred, events: seq<Event>) {
    if exists e :: e in events && !True(leaf, p, e) && !False(leaf, p, e) then rows == RaisedWhileEvaluating
    else rows == Rows(Filter(events, e => Eval(leaf, p, e) == Holds))
  }

  /** An entity query and a query of one step select; one of more steps searches; what is not a query is refused. */
  lemma QueriesAnswer(leaf: Leaf, ts: seq<Token>, events: seq<Event>)
    ensures var a := ExecuteQuery(leaf, ts, events);
      match Parse(ts)
      case Rejected(error) => a == BadQuery(error)
      case Tree(Entity(_, p)) => a.Answer? && Selected(a.rows, leaf, p, events)
      case Tree(Steps(steps, within)) =>
        && steps != [] && a.Answer?
        && if |steps| == 1 then Selected(a.rows, leaf, steps[0], events) else a.rows == ExecuteSequence(leaf, steps, within, events)
  {
    if Parse(ts).Tree? { ParsedIsProper(ts); }
    match Parse(ts) {
      case Rejected(_) =>
      case Tree(Entity(_, p)) => FilterSelects(leaf, p, events);
      case Tree(Steps(steps, _)) => if |steps| == 1 { FilterSelects(leaf, steps[0], events); }
    }
  }

  lemma FilterSelects(leaf: Leaf, p: Pred, events: seq<Event>)
    ensures Selected(FilterRows(leaf, p, events), leaf, p, events)
  {
    FilterRowsSpec(leaf, p, events);
    forall e ensures Eval(leaf, p, e) == Raises <==> !True(leaf, p, e) && !False(leaf, p, e) { EvalDecides(leaf, p, e); }
  }

  /** No window, and a window of zero, are a window of six hundred seconds. */
  lemma NoWindowMeansTenMinutes(leaf: Leaf, steps: seq<Pred>, events: seq<Event>)
    requires steps != []
    ensures ExecuteSequence(leaf, steps, None, events) == ExecuteSequence(leaf, steps, Some(600), events)
    ensures ExecuteSequence(leaf, steps, Some(0), events) == ExecuteSequence(leaf, steps, Some(600), events)
  {
    assert Window(None) == Window(Some(600)) && Window(Some(0)) == Window(Some(600));
  }

  // ---------- a query ----------

  const FAILURE := Cmp("auth.failures", Gt, Integer(0))
  const PRIVILEGE := Cmp("privilege.change", Eq, Truth(true))

  /** The tokens of `auth.failures > 0 FOLLOWED_BY privilege.change = true WITHIN 10m`. */
  const HUNT: seq<Token> := [
    Ident("auth.failures"), Comp(Gt), Lit(Integer(0)), FOLLOWED_BY,
    Ident("privilege.change"), Comp(Eq), Lit(Truth(true)), WITHIN, Dur(Duration(10, Minutes))]

  lemma HuntIsParsed()
    ensures Parse(HUNT) == Tree(Steps([FAILURE, PRIVILEGE], Some(600)))
  {
    var one, two := OneComparison("auth.failures", Gt, Integer(0)), OneComparison("privilege.change", Eq, Truth(true));
    HuntText();
    TwoStepsParsed(one, two, Duration(10, Minutes));
  }

  lemma TwoStepsParsed(one: OrD, two: OrD, d: Duration)
    ensures Parse(YieldOr(one) + ([FOLLOWED_BY] + YieldOr(two)) + [WITHIN, Dur(d)])
            == Tree(Steps([TreeOr(one), TreeOr(two)], Some(SecondsOf(d))))
  {
    var q := StepsD(one, [two], Some(d));
    TwoStepsYield(one, two, d);
    DerivationIsParsed(q);
  }

  lemma TwoStepsYield(one: OrD, two: OrD, d: Duration)
    ensures var q := StepsD(one, [two], Some(d));
      && YieldQuery(q) == YieldOr(one) + ([FOLLOWED_BY] + YieldOr(two)) + [WITHIN, Dur(d)]
      && TreeQuery(q) == Steps([TreeOr(one), TreeOr(two)], Some(SecondsOf(d)))
  {
    OneMore(two);
    assert [TreeOr(one)] + [TreeOr(two)] == [TreeOr(one), TreeOr(two)];
  }

  lemma HuntText()
    ensures [Ident("auth.failures"), Comp(Gt), Lit(Integer(0))]
            + ([FOLLOWED_BY] + [Ident("privilege.change"), Comp(Eq), Lit(Truth(true))])
            + [WITHIN, Dur(Duration(10, Minutes))] == HUNT
  {
  }

  function OneComparison(field: string, op: Comparator, l: Literal): (d: OrD)
    ensures YieldOr(d) == [Ident(field), Comp(op), Lit(l)] && TreeOr(d) == Cmp(field, op, l)
  {
    var p := CmpD(field, op, l);
    assert YieldAnd(AndOne(p)) == YieldPrim(p) && TreeAnd(AndOne(p)) == TreePrim(p);
    OrOne(AndOne(p))
  }

  lemma OneMore(d: OrD)
    ensures YieldMore([d]) == [FOLLOWED_BY] + YieldOr(d) && TreeMore([d]) == [TreeOr(d)]
  {
    assert [d][1..] == [];
  }

  lemma HuntMeans(repr: Repr, e: Event)
    ensures Eval(LeafOf(repr), FAILURE, e) == if FailedLogin(e) then Holds else Fails
    ensures Eval(LeafOf(repr), PRIVILEGE, e) == if FlagSet(e, "privilege.change") then Holds else Fails
  {
    FailuresAreCounted(e);
    FlagEquals(repr, "privilege.change", Truth(true), e);
  }

  /** A failed login and a change of privileges at most ten minutes after it. */
  predicate FollowedInTime(e: Event, f: Event) {
    FailedLogin(e) && FlagSet(f, "privilege.change") && f.time - e.time <= 10 * 60 * 1_000_000
  }

  lemma HuntReturnsRows(repr: Repr, events: seq<Event>)
    ensures var a := ExecuteQuery(LeafOf(repr), HUNT, events);
      a == Answer(ExecuteSequence(LeafOf(repr), [FAILURE, PRIVILEGE], Some(600), events)) && a.rows.Rows?
    ensures NothingRaises(LeafOf(repr), [FAILURE, PRIVILEGE], SortBy(events, ByTime()))
  {
    HuntIsParsed();
    forall e ensures Eval(LeafOf(repr), FAILURE, e) != Raises && Eval(LeafOf(repr), PRIVILEGE, e) != Raises { HuntMeans(repr, e); }
    NothingRaisesMeansRows(LeafOf(repr), [FAILURE, PRIVILEGE], Some(600), events);
  }

  lemma HuntRowIsSound(repr: Repr, events: seq<Event>, e: Event)
    requires OnChain(LeafOf(repr), [FAILURE, PRIVILEGE], SortBy(events, ByTime()), 600, e)
    ensures FailedLogin(e) || FlagSet(e, "privilege.change")
  {
    HuntMeans(repr, e);
  }

  lemma HuntIsComplete(repr: Repr, events: seq<Event>, i: nat, j: nat)
    requires var ordered := SortBy(events, ByTime()); i < j < |ordered| && FollowedInTime(ordered[i], ordered[j])
    ensures var r := ExecuteSequence(LeafOf(repr), [FAILURE, PRIVILEGE], Some(600), events);
      r.Rows? && HasId(r.rows, SortBy(events, ByTime())[i].id)
  {
    var ordered := SortBy(events, ByTime());
    HuntReturnsRows(repr, events);
    HuntMeans(repr, ordered[i]);
    HuntMeans(repr, ordered[j]);
    assert Link(ordered, i, j, 600);
    TwoStepStartsAreInRows(LeafOf(repr), [FAILURE, PRIVILEGE], Some(600), events, [i, j]);
  }

  /** The hunt never raises.  It returns, each id once, only failed logins and changes of privileges among the events;
      and every failed login that some later change of privileges follows within ten minutes. */
  lemma HuntFinds(repr: Repr, events: seq<Event>)
    ensures var a, ordered := ExecuteQuery(LeafOf(repr), HUNT, events), SortBy(events, ByTime());
      && a.Answer? && a.rows.Rows? && DistinctIds(a.rows.rows)
      && (forall k :: 0 <= k < |a.rows.rows| ==>
            a.rows.rows[k] in events && (FailedLogin(a.rows.rows[k]) || FlagSet(a.rows.rows[k], "privilege.change")))
      && forall i, j :: 0 <= i < j < |ordered| && FollowedInTime(ordered[i], ordered[j]) ==> HasId(a.rows.rows, ordered[i].id)
  {
    HuntReturnsRows(repr, events);
    SequenceRowsAreSound(LeafOf(repr), [FAILURE, PRIVILEGE], Some(600), events);
    var rows, ordered := ExecuteQuery(LeafOf(repr), HUNT, events).rows.rows, SortBy(events, ByTime());
    forall k | 0 <= k < |rows| ensures rows[k] in events && (FailedLogin(rows[k]) || FlagSet(rows[k], "privilege.change")) {
      HuntRowIsSound(repr, events, rows[k]);
    }
    forall i: nat, j: nat | 0 <= i < j < |ordered| && FollowedInTime(ordered[i], ordered[j]) ensures HasId(rows, ordered[i].id) {
      HuntIsComplete(repr, events, i, j);
    }
  }
}
