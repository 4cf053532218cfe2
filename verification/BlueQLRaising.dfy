/**
 When a sequence query raises, and what that does to completeness and to widening the window.
 */
module BlueQLRaising {
  import opened Common
  import opened Sorting
  import opened BlueQL
  import opened BlueQLSearch

  // ---------- when one start raises ----------

  /** The steps matched so far, each as early as possible, end at `ps`; going on from there, the next
      step holds nowhere before `q`, which is inside the window and where it raises. */
  ghost predicate Stumbles(leaf: Leaf, steps: seq<Pred>, ordered: seq<Event>, ps: seq<nat>, q: nat, window: nat) {
    && |ps| < |steps|
    && Prefix(leaf, steps, ordered, ps, window)
    && Link(ordered, ps[|ps|-1], q, window)
    && (forall i :: ps[|ps|-1] < i < q ==> Eval(leaf, steps[|ps|], ordered[i]) == Fails)
    && Eval(leaf, steps[|ps|], ordered[q]) == Raises
  }

  ghost predicate RaisesFrom(leaf: Leaf, steps: seq<Pred>, ordered: seq<Event>, index: nat, window: nat)
    requires steps != [] && index < |ordered|
  {
    || Eval(leaf, steps[0], ordered[index]) == Raises
    || exists ps: seq<nat>, q: nat :: Stumbles(leaf, steps, ordered, ps, q, window) && ps[0] == index
  }

  lemma {:induction false} FindNextBroken(leaf: Leaf, step: Pred, ordered: seq<Event>, pos: nat, cursor: int, window: nat) returns (q: nat)
    requires FindNext(leaf, step, ordered, pos, cursor, window).Broken?
    ensures pos <= q < |ordered| && ordered[q].time - cursor <= window * MICROS && Eval(leaf, step, ordered[q]) == Raises
    ensures forall i :: pos <= i < q ==> Eval(leaf, step, ordered[i]) == Fails
    decreases |ordered| - pos
  {
    if Eval(leaf, step, ordered[pos]) == Raises { q := pos; }
    else { q := FindNextBroken(leaf, step, ordered, pos + 1, cursor, window); }
  }

  lemma {:induction false} ExtendRaised(leaf: Leaf, all: seq<Pred>, ordered: seq<Event>, matched: seq<nat>, window: nat) returns (ps: seq<nat>, q: nat)
    requires Prefix(leaf, all, ordered, matched, window)
    requires Extend(leaf, all[|matched|..], ordered, matched, window).MatchRaised?
    ensures Stumbles(leaf, all, ordered, ps, q, window) && ps[0] == matched[0]
    decreases |all| - |matched|
  {
    var n, last := |matched|, matched[|matched|-1];
    var c := FindNext(leaf, all[n], ordered, last + 1, ordered[last].time, window);
    if c.Broken? {
      ps := matched;
      q := FindNextBroken(leaf, all[n], ordered, last + 1, ordered[last].time, window);
    } else {
      FindNextSpec(leaf, all[n], ordered, last + 1, ordered[last].time, window);
      PrefixGrows(leaf, all, ordered, matched, window, c.at);
      assert all[n..][1..] == all[n+1..];
      ps, q := ExtendRaised(leaf, all, ordered, matched + [c.at], window);
    }
  }

  lemma {:induction false} FindNextBreaks(leaf: Leaf, step: Pred, ordered: seq<Event>, pos: nat, cursor: int, window: nat, q: nat)
    requires IsSorted(ordered, ByTime())
    requires pos <= q < |ordered| && ordered[q].time - cursor <= window * MICROS
    requires Eval(leaf, step, ordered[q]) == Raises
    requires forall i :: pos <= i < q ==> Eval(leaf, step, ordered[i]) == Fails
    ensures FindNext(leaf, step, ordered, pos, cursor, window).Broken?
    decreases |ordered| - pos
  {
    assert ByTime()(ordered[pos]) == ordered[pos].time && ByTime()(ordered[q]) == ordered[q].time;
    if pos < q { FindNextBreaks(leaf, step, ordered, pos + 1, cursor, window, q); }
  }

  lemma {:induction false} ExtendSplit(leaf: Leaf, a: seq<Pred>, b: seq<Pred>, ordered: seq<Event>, matched: seq<nat>, window: nat)
    requires matched != [] && matched[|matched|-1] < |ordered|
    ensures var r := Extend(leaf, a, ordered, matched, window);
      if r.Matched? then
        && r.positions != [] && r.positions[|r.positions|-1] < |ordered|
        && Extend(leaf, a + b, ordered, matched, window) == Extend(leaf, b, ordered, r.positions, window)
      else Extend(leaf, a + b, ordered, matched, window) == r
    decreases |a|
  {
    if a == [] {
      assert a + b == b;
    } else {
      assert (a + b)[0] == a[0] && (a + b)[1..] == a[1..] + b;
      var last := matched[|matched|-1];
      var c := FindNext(leaf, a[0], ordered, last + 1, ordered[last].time, window);
      if c.Hit? && last < c.at < |ordered| { ExtendSplit(leaf, a[1..], b, ordered, matched + [c.at], window); }
    }
  }

  lemma ExtendStumbles(leaf: Leaf, steps: seq<Pred>, ordered: seq<Event>, ps: seq<nat>, q: nat, window: nat)
    requires IsSorted(ordered, ByTime()) && Stumbles(leaf, steps, ordered, ps, q, window)
    ensures Extend(leaf, steps[1..], ordered, ps[..1], window).MatchRaised?
  {
    var n := |ps|;
    ExtendFinds(leaf, steps[..n], ordered, ps, 1, window);
    ExtendSplit(leaf, steps[..n][1..], steps[n..], ordered, ps[..1], window);
    assert steps[..n][1..] + steps[n..] == steps[1..];
    FindNextBreaks(leaf, steps[n], ordered, ps[n-1] + 1, ordered[ps[n-1]].time, window, q);
  }

  /** A start raises exactly if its own step raises there or the greedy scan stumbles on the way. */
  lemma MatchRaisesIff(leaf: Leaf, steps: seq<Pred>, ordered: seq<Event>, index: nat, window: nat)
    requires steps != [] && index < |ordered| && IsSorted(ordered, ByTime())
    ensures MatchFrom(leaf, steps, ordered, index, window).MatchRaised? <==> RaisesFrom(leaf, steps, ordered, index, window)
  {
    if Eval(leaf, steps[0], ordered[index]) == Holds {
      if MatchFrom(leaf, steps, ordered, index, window).MatchRaised? {
        assert Prefix(leaf, steps, ordered, [index], window);
        var ps, q := ExtendRaised(leaf, steps, ordered, [index], window);
      }
    }
    if ps: seq<nat>, q: nat :| Stumbles(leaf, steps, ordered, ps, q, window) && ps[0] == index {
      assert steps[..|ps|][0] == steps[0] && Eval(leaf, steps[0], ordered[index]) == Holds;
      ExtendStumbles(leaf, steps, ordered, ps, q, window);
      assert ps[..1] == [index];
    }
  }

  // ---------- when the search raises ----------

  lemma {:induction false} CollectRaises(leaf: Leaf, steps: seq<Pred>, ordered: seq<Event>, index: nat, hits: seq<nat>, window: nat)
    requires steps != []
    ensures Collect(leaf, steps, ordered, index, hits, window).HitsRaised? <==>
            exists i :: index <= i < |ordered| && MatchFrom(leaf, steps, ordered, i, window).MatchRaised?
    decreases |ordered| - index
  {
    if index < |ordered| {
      match MatchFrom(leaf, steps, ordered, index, window) {
        case MatchRaised =>
        case NoMatch => CollectRaises(leaf, steps, ordered, index + 1, hits, window);
        case Matched(ps) => CollectRaises(leaf, steps, ordered, index + 1, hits + ps, window);
      }
    }
  }

  ghost predicate Raising(leaf: Leaf, steps: seq<Pred>, ordered: seq<Event>, window: nat)
    requires steps != []
  {
    || (exists i :: 0 <= i < |ordered| && Eval(leaf, steps[0], ordered[i]) == Raises)
    || exists ps: seq<nat>, q: nat :: Stumbles(leaf, steps, ordered, ps, q, window)
  }

  /** A sequence query raises exactly if its first step raises on some event or the greedy scan from
      some start stumbles: nothing else it evaluates, or leaves unevaluated, matters. */
  lemma SequenceRaisesIff(leaf: Leaf, steps: seq<Pred>, within: Option<nat>, events: seq<Event>)
    requires steps != []
    ensures ExecuteSequence(leaf, steps, within, events).RaisedWhileEvaluating? <==>
            Raising(leaf, steps, SortBy(events, ByTime()), Window(within))
  {
    var ordered, w := SortBy(events, ByTime()), Window(within);
    SortSpec(events, ByTime());
    CollectRaises(leaf, steps, ordered, 0, [], w);
    if i :| 0 <= i < |ordered| && MatchFrom(leaf, steps, ordered, i, w).MatchRaised? {
      MatchRaisesIff(leaf, steps, ordered, i, w);
    }
    if i :| 0 <= i < |ordered| && Eval(leaf, steps[0], ordered[i]) == Raises {
      assert MatchFrom(leaf, steps, ordered, i, w).MatchRaised?;
    }
    if ps: seq<nat>, q: nat :| Stumbles(leaf, steps, ordered, ps, q, w) {
      assert ps[0] < |ordered|;
      MatchRaisesIff(leaf, steps, ordered, ps[0], w);
    }
  }

  /** In particular it does not raise if no step raises on any event. */
  lemma NothingRaisesMeansRows(leaf: Leaf, steps: seq<Pred>, within: Option<nat>, events: seq<Event>)
    requires steps != [] && NothingRaises(leaf, steps, SortBy(events, ByTime()))
    ensures ExecuteSequence(leaf, steps, within, events).Rows?
  {
    var ordered := SortBy(events, ByTime());
    SequenceRaisesIff(leaf, steps, within, events);
    forall k, i | 0 <= k < |steps| && 0 <= i < |ordered| ensures Eval(leaf, steps[k], ordered[i]) != Raises {
      assert steps[k] in steps && ordered[i] in ordered;
    }
  }

  // ---------- completeness for two steps ----------

  /** For a two-step query that raises nowhere, every event that starts a chain is in the rows, by id. */
  lemma TwoStepStartsAreInRows(leaf: Leaf, steps: seq<Pred>, within: Option<nat>, events: seq<Event>, ps: seq<nat>)
    requires |steps| == 2
    requires var ordered := SortBy(events, ByTime());
      NothingRaises(leaf, steps, ordered) && Chain(leaf, steps, ordered, ps, Window(within))
    ensures var r, ordered := ExecuteSequence(leaf, steps, within, events), SortBy(events, ByTime());
      r.Rows? && HasId(r.rows, ordered[ps[0]].id)
  {
    var ordered, w := SortBy(events, ByTime()), Window(within);
    SortSpec(events, ByTime());
    NothingRaisesMeansRows(leaf, steps, within, events);
    TwoStepsComplete(leaf, steps, ordered, w);
    MatchIsEarliestChain(leaf, steps, ordered, ps[0], w);
    assert ps[0] in PositionsFrom(leaf, steps, ordered, w, ps[0]);
    ReportedIsInRows(leaf, steps, within, events, ps[0]);
  }

  // ---------- widening the window ----------

  lemma StumblesWider(leaf: Leaf, steps: seq<Pred>, ordered: seq<Event>, ps: seq<nat>, q: nat, window: nat, wider: nat)
    requires Stumbles(leaf, steps, ordered, ps, q, window) && window <= wider
    ensures Stumbles(leaf, steps, ordered, ps, q, wider)
  {
    forall k | 0 <= k < |ps| - 1 ensures Link(ordered, ps[k], ps[k+1], wider) {
      assert Link(ordered, ps[k], ps[k+1], window);
    }
  }

  /** A search that raises under a window raises under every wider one. */
  lemma RaisingSurvivesWidening(leaf: Leaf, steps: seq<Pred>, ordered: seq<Event>, window: nat, wider: nat)
    requires steps != [] && window <= wider && Raising(leaf, steps, ordered, window)
    ensures Raising(leaf, steps, ordered, wider)
  {
    if ps: seq<nat>, q: nat :| Stumbles(leaf, steps, ordered, ps, q, window) {
      StumblesWider(leaf, steps, ordered, ps, q, window, wider);
    }
  }

  /** Rows come back, and every row of `r` is among them, by id. */
  ghost predicate Keeps(r: Rows, r': Rows)
    requires r.Rows?
  {
    r'.Rows? && forall i :: 0 <= i < |r.rows| ==> HasId(r'.rows, r.rows[i].id)
  }

  /** Widening the effective window keeps every row, for any number of steps, exactly if the wider search
      does not raise, and if it does not then neither did the narrower one.  If no step raises on any
      event, both searches come back with rows and none is lost. */
  lemma WideningKeepsRows(leaf: Leaf, steps: seq<Pred>, within: Option<nat>, wider: Option<nat>, events: seq<Event>)
    requires steps != [] && Window(within) <= Window(wider)
    ensures var r, r' := ExecuteSequence(leaf, steps, within, events), ExecuteSequence(leaf, steps, wider, events);
      var ordered := SortBy(events, ByTime());
      && (r.Rows? && Keeps(r, r') <==> !Raising(leaf, steps, ordered, Window(wider)))
      && (NothingRaises(leaf, steps, ordered) ==> r.Rows? && Keeps(r, r'))
  {
    var r, r' := ExecuteSequence(leaf, steps, within, events), ExecuteSequence(leaf, steps, wider, events);
    var ordered := SortBy(events, ByTime());
    SequenceRaisesIff(leaf, steps, within, events);
    SequenceRaisesIff(leaf, steps, wider, events);
    if Raising(leaf, steps, ordered, Window(within)) {
      RaisingSurvivesWidening(leaf, steps, ordered, Window(within), Window(wider));
    }
    if r'.Rows? { RowsAreKept(leaf, steps, within, wider, events); }
    if NothingRaises(leaf, steps, ordered) { NothingRaisesMeansRows(leaf, steps, wider, events); }
  }

  lemma RowsAreKept(leaf: Leaf, steps: seq<Pred>, within: Option<nat>, wider: Option<nat>, events: seq<Event>)
    requires steps != [] && Window(within) <= Window(wider)
    requires ExecuteSequence(leaf, steps, within, events).Rows? && ExecuteSequence(leaf, steps, wider, events).Rows?
    ensures Keeps(ExecuteSequence(leaf, steps, within, events), ExecuteSequence(leaf, steps, wider, events))
  {
    var r, r' := ExecuteSequence(leaf, steps, within, events), ExecuteSequence(leaf, steps, wider, events);
    var ordered, w := SortBy(events, ByTime()), Window(within);
    var hits := Collect(leaf, steps, ordered, 0, [], w).positions;
    CollectInRange(leaf, steps, ordered, 0, [], w);
    CollectSound(leaf, steps, ordered, 0, [], w);
    forall i | 0 <= i < |r.rows| ensures HasId(r'.rows, r.rows[i].id) {
      var p := UniqueFromHits(ordered, hits, i);
      ReportedSurvivesWidening(leaf, steps, ordered, w, Window(wider), p);
      ReportedIsInRows(leaf, steps, wider, events, p);
    }
  }
}
