/**
 Two queries on which the search falls short, evaluated on the field values of the source: a chain that
 the greedy scan misses, and a window that is wide enough to raise.
 */
module BlueQLExamples {
  import opened Common
  import opened Sorting
  import opened BlueQL
  import opened BlueQLSearch
  import opened BlueQLRaising
  import opened BlueQLValues

  // ---------- a missed chain: A@0 B@1 B@9 C@15 C@15 ... with a window of ten seconds ----------

  function Named(name: string): Pred { Cmp("event_type", Eq, Text(name)) }

  function EventAt(name: string, id: string, seconds: int): Event {
    Event(id, seconds * MICROS, map["event_type" := name])
  }

  predicate Letter(s: string) { s == "A" || s == "B" || s == "C" }

  /** An event is selected by its own name and by no other. */
  lemma NamesTell(repr: Repr, name: string, e: Event)
    requires Letter(name) && "event_type" in e.fields && Letter(e.fields["event_type"])
    ensures Eval(LeafOf(repr), Named(name), e) == if e.fields["event_type"] == name then Holds else Fails
  {
    LowerOne('A');
    LowerOne('B');
    LowerOne('C');
    assert FieldValue(e, "event_type") == Some(Word(e.fields["event_type"]));
  }

  lemma LowerOne(c: char)
    ensures Lower([c]) == [LowerChar(c)]
  {
    assert [c][1..] == "";
  }

  function TailSteps(n: nat): (s: seq<Pred>)
    ensures |s| == n && forall k :: 0 <= k < n ==> s[k] == Named("C")
  {
    if n == 0 then [] else TailSteps(n - 1) + [Named("C")]
  }

  function TailEvents(n: nat): (s: seq<Event>)
    ensures |s| == n && forall k :: 0 <= k < n ==> s[k].time == 15 * MICROS && s[k].fields == map["event_type" := "C"]
  {
    if n == 0 then [] else TailEvents(n - 1) + [EventAt("C", "c", 15)]
  }

  function MissedSteps(n: nat): (s: seq<Pred>)
    requires n >= 3
    ensures |s| == n
  {
    [Named("A"), Named("B")] + TailSteps(n - 2)
  }

  function MissedEvents(n: nat): seq<Event>
    requires n >= 3
  {
    [EventAt("A", "a", 0), EventAt("B", "b", 1), EventAt("B", "b2", 9)] + TailEvents(n - 2)
  }

  function MissedChain(n: nat): (ps: seq<nat>)
    requires n >= 3
    ensures |ps| == n && ps[0] == 0 && forall k :: 1 <= k < n ==> ps[k] == k + 1
  {
    if n == 3 then [0, 2, 3] else MissedChain(n - 1) + [n]
  }

  function StepName(k: nat): string { if k == 0 then "A" else if k == 1 then "B" else "C" }
  function EventName(i: nat): string { if i == 0 then "A" else if i <= 2 then "B" else "C" }
  function EventSecond(i: nat): nat { if i == 0 then 0 else if i == 1 then 1 else if i == 2 then 9 else 15 }

  lemma MissedShape(n: nat)
    requires n >= 3
    ensures |MissedEvents(n)| == n + 1
    ensures forall k :: 0 <= k < n ==> MissedSteps(n)[k] == Named(StepName(k))
    ensures forall i :: 0 <= i <= n ==> MissedEvents(n)[i].time == EventSecond(i) * MICROS
    ensures forall i :: 0 <= i <= n ==> MissedEvents(n)[i].fields == map["event_type" := EventName(i)]
  {
    forall k | 2 <= k < n ensures MissedSteps(n)[k] == Named("C") { assert MissedSteps(n)[k] == TailSteps(n - 2)[k-2]; }
    forall i | 3 <= i <= n
      ensures MissedEvents(n)[i].time == 15 * MICROS && MissedEvents(n)[i].fields == map["event_type" := "C"]
    {
      assert MissedEvents(n)[i] == TailEvents(n - 2)[i-3];
    }
  }

  lemma MissedEval(repr: Repr, n: nat, k: nat, i: nat)
    requires n >= 3 && k < n && i <= n
    ensures |MissedEvents(n)| == n + 1
    ensures Eval(LeafOf(repr), MissedSteps(n)[k], MissedEvents(n)[i]) == if StepName(k) == EventName(i) then Holds else Fails
  {
    MissedShape(n);
    NamesTell(repr, StepName(k), MissedEvents(n)[i]);
  }

  lemma MissedChainIsChain(repr: Repr, n: nat)
    requires n >= 3
    ensures Chain(LeafOf(repr), MissedSteps(n), MissedEvents(n), MissedChain(n), 10)
  {
    var ordered, ps := MissedEvents(n), MissedChain(n);
    MissedShape(n);
    forall k | 0 <= k < n ensures ps[k] < |ordered| && Eval(LeafOf(repr), MissedSteps(n)[k], ordered[ps[k]]) == Holds {
      MissedEval(repr, n, k, ps[k]);
    }
    forall k | 0 <= k < n - 1 ensures Link(ordered, ps[k], ps[k+1], 10) {}
  }

  lemma MissedEventsAreOrdinary(repr: Repr, n: nat)
    requires n >= 3
    ensures IsSorted(MissedEvents(n), ByTime()) && NothingRaises(LeafOf(repr), MissedSteps(n), MissedEvents(n))
  {
    var steps, ordered := MissedSteps(n), MissedEvents(n);
    MissedShape(n);
    forall i, j | 0 <= i < j < |ordered| ensures ByTime()(ordered[i]) <= ByTime()(ordered[j]) {
      assert ordered[i].time == EventSecond(i) * MICROS && ordered[j].time == EventSecond(j) * MICROS;
    }
    forall p, e | p in steps && e in ordered ensures Eval(LeafOf(repr), p, e) != Raises {
      var k :| 0 <= k < n && steps[k] == p;
      var i :| 0 <= i <= n && ordered[i] == e;
      MissedEval(repr, n, k, i);
    }
  }

  /** From A the search takes the B at 1 s, cannot reach C at 15 s within ten seconds of it, and
      gives up, although the B at 9 s would have led on. */
  lemma GreedyMissesAChain(repr: Repr, n: nat)
    requires n >= 3
    ensures MatchFrom(LeafOf(repr), MissedSteps(n), MissedEvents(n), 0, 10) == NoMatch
    ensures Chain(LeafOf(repr), MissedSteps(n), MissedEvents(n), MissedChain(n), 10)
  {
    var leaf, steps, ordered := LeafOf(repr), MissedSteps(n), MissedEvents(n);
    MissedChainIsChain(repr, n);
    MissedShape(n);
    MissedEval(repr, n, 0, 0);
    MissedEval(repr, n, 1, 1);
    MissedEval(repr, n, 2, 2);
    assert FindNext(leaf, steps[1], ordered, 1, 0, 10) == Hit(1);
    assert FindNext(leaf, steps[2], ordered, 3, MICROS, 10) == Miss;
    assert FindNext(leaf, steps[2], ordered, 2, MICROS, 10) == Miss;
    var later := steps[1..];
    assert later[0] == steps[1] && later[1..][0] == steps[2];
    assert Extend(leaf, later[1..], ordered, [0, 1], 10) == NoMatch;
    assert [0] + [1] == [0, 1];
  }

  /** Every start of a chain is reported, for all queries of `n` steps that do not raise. */
  ghost predicate CompleteFor(repr: Repr, n: nat)
    requires n > 0
  {
    forall steps: seq<Pred>, ordered: seq<Event>, window: nat {:trigger CompleteOn(LeafOf(repr), steps, ordered, window)} ::
      |steps| == n && IsSorted(ordered, ByTime()) && NothingRaises(LeafOf(repr), steps, ordered) ==>
        CompleteOn(LeafOf(repr), steps, ordered, window)
  }

  /** The greedy search is complete, over all queries and events, exactly for sequences of at most
      two steps. */
  lemma CompleteIffAtMostTwoSteps(repr: Repr, n: nat)
    requires n > 0
    ensures CompleteFor(repr, n) <==> n <= 2
  {
    if n <= 2 {
      forall steps: seq<Pred>, ordered: seq<Event>, window: nat
        | |steps| == n && IsSorted(ordered, ByTime()) && NothingRaises(LeafOf(repr), steps, ordered)
        ensures CompleteOn(LeafOf(repr), steps, ordered, window)
      {
        TwoStepsComplete(LeafOf(repr), steps, ordered, window);
      }
    } else {
      GreedyMissesAChain(repr, n);
      MissedEventsAreOrdinary(repr, n);
      assert !CompleteOn(LeafOf(repr), MissedSteps(n), MissedEvents(n), 10);
    }
  }

  // ---------- a wider window that raises: A@0 B@1 A@100 C@150 ----------

  /** `event_type = "B" OR src_ip > 5`: comparing an address with a number raises. */
  const SECOND_STEP := Or(Named("B"), Cmp("src_ip", Gt, Integer(5)))

  const WIDENING_STEPS := [Named("A"), SECOND_STEP]

  function Addressed(): Event {
    Event("x", 150 * MICROS, map["event_type" := "C", "src_ip" := "10.0.0.1"])
  }

  function WideningEvents(): seq<Event> {
    [EventAt("A", "a", 0), EventAt("B", "b", 1), EventAt("A", "a2", 100), Addressed()]
  }

  lemma WideningEvals(repr: Repr)
    ensures var leaf, es := LeafOf(repr), WideningEvents();
      && Eval(leaf, Named("A"), es[0]) == Holds && Eval(leaf, Named("A"), es[1]) == Fails
      && Eval(leaf, Named("A"), es[2]) == Holds && Eval(leaf, Named("A"), es[3]) == Fails
      && Eval(leaf, SECOND_STEP, es[1]) == Holds && Eval(leaf, SECOND_STEP, es[3]) == Raises
  {
    var es := WideningEvents();
    NamesTell(repr, "A", es[0]);
    NamesTell(repr, "A", es[1]);
    NamesTell(repr, "A", es[2]);
    NamesTell(repr, "A", es[3]);
    NamesTell(repr, "B", es[1]);
    NamesTell(repr, "B", es[3]);
    assert FieldValue(es[3], "src_ip") == Some(Word("10.0.0.1"));
  }

  lemma WideningSorted()
    ensures SortBy(WideningEvents(), ByTime()) == WideningEvents()
  {
    var es := WideningEvents();
    forall i, j | 0 <= i < j < |es| ensures ByTime()(es[i]) <= ByTime()(es[j]) {
      assert es[0].time == 0 && es[1].time == 1 * MICROS && es[2].time == 100 * MICROS && es[3].time == 150 * MICROS;
    }
    SortIdentity(es, ByTime());
  }

  /** With ten seconds the query returns the first two events; with sixty it raises and returns none. */
  lemma WideningLosesRows(repr: Repr)
    ensures ExecuteSequence(LeafOf(repr), WIDENING_STEPS, Some(10), WideningEvents()) == Rows(WideningEvents()[..2])
    ensures ExecuteSequence(LeafOf(repr), WIDENING_STEPS, Some(60), WideningEvents()) == RaisedWhileEvaluating
  {
    WideningSorted();
    NarrowFinds(repr);
    WideStumbles(repr);
    SequenceRaisesIff(LeafOf(repr), WIDENING_STEPS, Some(60), WideningEvents());
  }

  lemma WideStumbles(repr: Repr)
    ensures Stumbles(LeafOf(repr), WIDENING_STEPS, WideningEvents(), [2], 3, 60)
  {
    WideningEvals(repr);
    assert WIDENING_STEPS[..1] == [Named("A")];
  }

  lemma NarrowFinds(repr: Repr)
    requires SortBy(WideningEvents(), ByTime()) == WideningEvents()
    ensures ExecuteSequence(LeafOf(repr), WIDENING_STEPS, Some(10), WideningEvents()) == Rows(WideningEvents()[..2])
  {
    var leaf, steps, es := LeafOf(repr), WIDENING_STEPS, WideningEvents();
    WideningEvals(repr);
    FirstStartMatches(repr);
    assert MatchFrom(leaf, steps, es, 1, 10) == NoMatch;
    assert steps[1..] == [SECOND_STEP];
    assert FindNext(leaf, SECOND_STEP, es, 3, 100 * MICROS, 10) == Miss;
    assert MatchFrom(leaf, steps, es, 2, 10) == NoMatch;
    assert MatchFrom(leaf, steps, es, 3, 10) == NoMatch;
    assert Collect(leaf, steps, es, 4, [0, 1], 10) == Hits([0, 1]);
    assert Collect(leaf, steps, es, 2, [0, 1], 10) == Hits([0, 1]);
    assert [] + [0, 1] == [0, 1];
    assert Collect(leaf, steps, es, 0, [], 10) == Hits([0, 1]);
    BothUnique();
  }

  lemma FirstStartMatches(repr: Repr)
    ensures MatchFrom(LeafOf(repr), WIDENING_STEPS, WideningEvents(), 0, 10) == Matched([0, 1])
  {
    var leaf, es := LeafOf(repr), WideningEvents();
    WideningEvals(repr);
    assert WIDENING_STEPS[1..] == [SECOND_STEP] && [SECOND_STEP][1..] == [];
    assert [0] + [1] == [0, 1];
    assert FindNext(leaf, SECOND_STEP, es, 1, 0, 10) == Hit(1);
    assert Extend(leaf, [], es, [0, 1], 10) == Matched([0, 1]);
    assert Extend(leaf, [SECOND_STEP], es, [0], 10) == Matched([0, 1]);
  }

  lemma BothUnique()
    ensures Unique(WideningEvents(), [0, 1]) == WideningEvents()[..2]
  {
    var es := WideningEvents();
    assert [0, 1][..1] == [0] && [0][..0] == [];
    assert Unique(es, [0]) == [es[0]];
    assert es[0].id != es[1].id;
    assert es[..2] == [es[0]] + [es[1]];
  }
}
