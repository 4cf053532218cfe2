/**
 Running a BlueQL query: predicate evaluation with its short circuits and errors, filters, and
 the greedy FOLLOWED_BY search, with what that search finds, what it misses, and its cost.
 */
module BlueQLSearch {
  import opened Common
  import opened Sorting
  import opened BlueQL
  import opened BlueQLGrammar
  import opened BlueQLLexer

  /** `time` is in microseconds. */
  datatype Event = Event(id: string, time: int, fields: map<string, string>)

  const MICROS := 1_000_000

  /** Looking up a field and comparing it may raise (unknown field, values that do not compare). */
  datatype Verdict = Holds | Fails | Raises

  type Leaf = (Pred, Event) -> Verdict

  function Eval(leaf: Leaf, p: Pred, e: Event): Verdict {
    match p
    case And(l, r) => if Eval(leaf, l, e) == Holds then Eval(leaf, r, e) else Eval(leaf, l, e)
    case Or(l, r) => if Eval(leaf, l, e) == Fails then Eval(leaf, r, e) else Eval(leaf, l, e)
    case Not(i) => (match Eval(leaf, i, e) case Holds => Fails case Fails => Holds case Raises => Raises)
    case _ => leaf(p, e)
  }

  datatype Rows = Rows(rows: seq<Event>) | RaisedWhileEvaluating

  function FilterRows(leaf: Leaf, p: Pred, events: seq<Event>): Rows {
    if events == [] then Rows([])
    else
      match Eval(leaf, p, events[0])
      case Raises => RaisedWhileEvaluating
      case v =>
        var rest := FilterRows(leaf, p, events[1..]);
        if rest.Rows? then Rows((if v == Holds then [events[0]] else []) + rest.rows) else rest
  }

  // ---------- the sequence search ----------

  /** The effective window in seconds: none, and zero, mean ten minutes. */
  function Window(within: Option<nat>): nat {
    if within.Some? && within.value != 0 then within.value else 600
  }

  function ByTime(): Event -> int { (e: Event) => e.time }

  datatype Candidate = Hit(at: nat) | Miss | Broken

  /** Scan forward from `pos` for the first event inside the window that satisfies `step`. */
  function FindNext(leaf: Leaf, step: Pred, ordered: seq<Event>, pos: nat, cursor: int, window: nat): Candidate
    decreases |ordered| - pos
  {
    if pos >= |ordered| then Miss
    else if ordered[pos].time - cursor > window * MICROS then Miss
    else
      match Eval(leaf, step, ordered[pos])
      case Raises => Broken
      case Holds => Hit(pos)
      case Fails => FindNext(leaf, step, ordered, pos + 1, cursor, window)
  }

  datatype Match = Matched(positions: seq<nat>) | NoMatch | MatchRaised

  /** Match the remaining steps one after the other, each from just after the last match. */
  function Extend(leaf: Leaf, steps: seq<Pred>, ordered: seq<Event>, matched: seq<nat>, window: nat): Match
    requires matched != [] && matched[|matched|-1] < |ordered|
  {
    if steps == [] then Matched(matched)
    else
      var last := matched[|matched|-1];
      match FindNext(leaf, steps[0], ordered, last + 1, ordered[last].time, window)
      case Broken => MatchRaised
      case Miss => NoMatch
      case Hit(q) => if last < q < |ordered| then Extend(leaf, steps[1..], ordered, matched + [q], window) else NoMatch
  }

  function MatchFrom(leaf: Leaf, steps: seq<Pred>, ordered: seq<Event>, index: nat, window: nat): Match
    requires steps != [] && index < |ordered|
  {
    match Eval(leaf, steps[0], ordered[index])
    case Raises => MatchRaised
    case Fails => NoMatch
    case Holds => Extend(leaf, steps[1..], ordered, [index], window)
  }

  datatype Hits = Hits(positions: seq<nat>) | HitsRaised

  function Collect(leaf: Leaf, steps: seq<Pred>, ordered: seq<Event>, index: nat, hits: seq<nat>, window: nat): Hits
    requires steps != []
    decreases |ordered| - index
  {
    if index >= |ordered| then Hits(hits)
    else
      match MatchFrom(leaf, steps, ordered, index, window)
      case MatchRaised => HitsRaised
      case NoMatch => Collect(leaf, steps, ordered, index + 1, hits, window)
      case Matched(ps) => Collect(leaf, steps, ordered, index + 1, hits + ps, window)
  }

  predicate InRange(ordered: seq<Event>, hits: seq<nat>) {
    forall k :: 0 <= k < |hits| ==> hits[k] < |ordered|
  }

  /** The events at the hit positions, each id once, in first-hit order. */
  function Unique(ordered: seq<Event>, hits: seq<nat>): seq<Event>
    requires InRange(ordered, hits)
  {
    if hits == [] then []
    else
      var front := Unique(ordered, hits[..|hits|-1]);
      var e := ordered[hits[|hits|-1]];
      if exists f :: f in front && f.id == e.id then front else front + [e]
  }

  // ---------- what a chain is ----------

  /** Positions that run strictly forward in time order, step by step satisfied, no gap too long. */
  ghost predicate Chain(leaf: Leaf, steps: seq<Pred>, ordered: seq<Event>, ps: seq<nat>, window: nat) {
    && |ps| == |steps|
    && (forall k :: 0 <= k < |ps| ==> ps[k] < |ordered| && Eval(leaf, steps[k], ordered[ps[k]]) == Holds)
    && (forall k :: 0 <= k < |ps| - 1 ==> Link(ordered, ps[k], ps[k+1], window))
  }

  ghost predicate Link(ordered: seq<Event>, p: nat, q: nat, window: nat) {
    p < q < |ordered| && ordered[q].time - ordered[p].time <= window * MICROS
  }

  /** Each position after the first is the first one past its predecessor where its step holds. */
  ghost predicate Earliest(leaf: Leaf, steps: seq<Pred>, ordered: seq<Event>, ps: seq<nat>)
    requires |ps| == |steps|
  {
    forall k, q :: 0 <= k < |ps| - 1 && ps[k] < q < ps[k+1] && q < |ordered| ==> Eval(leaf, steps[k+1], ordered[q]) == Fails
  }

  ghost predicate NothingRaises(leaf: Leaf, steps: seq<Pred>, ordered: seq<Event>) {
    forall p, e :: p in steps && e in ordered ==> Eval(leaf, p, e) != Raises
  }

  // ---------- the search is sound ----------

  lemma {:induction false} FindNextSpec(leaf: Leaf, step: Pred, ordered: seq<Event>, pos: nat, cursor: int, window: nat)
    ensures var c := FindNext(leaf, step, ordered, pos, cursor, window);
      c.Hit? ==> pos <= c.at < |ordered| && Eval(leaf, step, ordered[c.at]) == Holds
                 && ordered[c.at].time - cursor <= window * MICROS
                 && forall q :: pos <= q < c.at ==> Eval(leaf, step, ordered[q]) == Fails
    decreases |ordered| - pos
  {
    if pos < |ordered| && ordered[pos].time - cursor <= window * MICROS && Eval(leaf, step, ordered[pos]) == Fails {
      FindNextSpec(leaf, step, ordered, pos + 1, cursor, window);
    }
  }

  /** A partial match of the first |matched| steps of `all`. */
  ghost predicate Prefix(leaf: Leaf, all: seq<Pred>, ordered: seq<Event>, matched: seq<nat>, window: nat) {
    && 0 < |matched| <= |all|
    && Chain(leaf, all[..|matched|], ordered, matched, window)
    && Earliest(leaf, all[..|matched|], ordered, matched)
  }

  lemma PrefixGrows(leaf: Leaf, all: seq<Pred>, ordered: seq<Event>, matched: seq<nat>, window: nat, q: nat)
    requires Prefix(leaf, all, ordered, matched, window) && |matched| < |all|
    requires Link(ordered, matched[|matched|-1], q, window)
    requires Eval(leaf, all[|matched|], ordered[q]) == Holds
    requires forall i :: matched[|matched|-1] < i < q ==> Eval(leaf, all[|matched|], ordered[i]) == Fails
    ensures Prefix(leaf, all, ordered, matched + [q], window)
  {
    var n := |matched|;
    var more := matched + [q];
    assert forall k :: 0 <= k < n ==> all[..n][k] == all[..n+1][k];
    forall k | 0 <= k < n ensures Link(ordered, more[k], more[k+1], window) {
      if k < n - 1 { assert Link(ordered, matched[k], matched[k+1], window); }
    }
  }

  lemma {:induction false} ExtendSpec(leaf: Leaf, all: seq<Pred>, ordered: seq<Event>, matched: seq<nat>, window: nat)
    requires Prefix(leaf, all, ordered, matched, window)
    ensures var r := Extend(leaf, all[|matched|..], ordered, matched, window);
      r.Matched? ==> matched <= r.positions && |r.positions| == |all| && Prefix(leaf, all, ordered, r.positions, window)
    decreases |all| - |matched|
  {
    var n := |matched|;
    if n < |all| {
      var last := matched[n-1];
      FindNextSpec(leaf, all[n], ordered, last + 1, ordered[last].time, window);
      var c := FindNext(leaf, all[n], ordered, last + 1, ordered[last].time, window);
      if c.Hit? {
        PrefixGrows(leaf, all, ordered, matched, window, c.at);
        ExtendSpec(leaf, all, ordered, matched + [c.at], window);
        assert all[n..][1..] == all[n+1..];
      }
    }
  }

  /** Soundness for any number of steps: a reported match is a chain from its start, and each later
      position is the earliest one possible. */
  lemma MatchIsEarliestChain(leaf: Leaf, steps: seq<Pred>, ordered: seq<Event>, index: nat, window: nat)
    requires steps != [] && index < |ordered|
    ensures var r := MatchFrom(leaf, steps, ordered, index, window);
      r.Matched? ==> Chain(leaf, steps, ordered, r.positions, window) && r.positions[0] == index
                     && Earliest(leaf, steps, ordered, r.positions)
  {
    if Eval(leaf, steps[0], ordered[index]) == Holds {
      assert Prefix(leaf, steps, ordered, [index], window);
      ExtendSpec(leaf, steps, ordered, [index], window);
      var r := MatchFrom(leaf, steps, ordered, index, window);
      if r.Matched? { assert steps[..|steps|] == steps; }
    }
  }

  // ---------- exactly which chains are found ----------

  lemma {:induction false} FindNextFinds(leaf: Leaf, step: Pred, ordered: seq<Event>, pos: nat, cursor: int, window: nat, q: nat)
    requires IsSorted(ordered, ByTime())
    requires pos <= q < |ordered| && ordered[q].time - cursor <= window * MICROS
    requires Eval(leaf, step, ordered[q]) == Holds
    requires forall i :: pos <= i < q ==> Eval(leaf, step, ordered[i]) == Fails
    ensures FindNext(leaf, step, ordered, pos, cursor, window) == Hit(q)
    decreases |ordered| - pos
  {
    assert ByTime()(ordered[pos]) == ordered[pos].time && ByTime()(ordered[q]) == ordered[q].time;
    if pos < q { FindNextFinds(leaf, step, ordered, pos + 1, cursor, window, q); }
  }

  lemma NextIsFound(leaf: Leaf, steps: seq<Pred>, ordered: seq<Event>, ps: seq<nat>, n: nat, window: nat)
    requires IsSorted(ordered, ByTime())
    requires Chain(leaf, steps, ordered, ps, window) && Earliest(leaf, steps, ordered, ps)
    requires 0 < n < |steps|
    ensures ps[n-1] < ps[n] < |ordered|
    ensures FindNext(leaf, steps[n], ordered, ps[n-1] + 1, ordered[ps[n-1]].time, window) == Hit(ps[n])
  {
    assert Link(ordered, ps[n-1], ps[n-1+1], window);
    FindNextFinds(leaf, steps[n], ordered, ps[n-1] + 1, ordered[ps[n-1]].time, window, ps[n]);
  }

  lemma SliceAt<T>(s: seq<T>, n: nat)
    requires n < |s|
    ensures s[..n] + [s[n]] == s[..n+1] && s[n..][0] == s[n] && s[n..][1..] == s[n+1..]
  {
  }

  lemma ExtendOnce(leaf: Leaf, steps: seq<Pred>, ordered: seq<Event>, matched: seq<nat>, window: nat, q: nat)
    requires steps != [] && matched != [] && matched[|matched|-1] < q < |ordered|
    requires var last := matched[|matched|-1]; FindNext(leaf, steps[0], ordered, last + 1, ordered[last].time, window) == Hit(q)
    ensures Extend(leaf, steps, ordered, matched, window) == Extend(leaf, steps[1..], ordered, matched + [q], window)
  {
  }

  lemma {:induction false} ExtendFinds(leaf: Leaf, steps: seq<Pred>, ordered: seq<Event>, ps: seq<nat>, n: nat, window: nat)
    requires IsSorted(ordered, ByTime())
    requires Chain(leaf, steps, ordered, ps, window) && Earliest(leaf, steps, ordered, ps)
    requires 0 < n <= |steps|
    ensures Extend(leaf, steps[n..], ordered, ps[..n], window) == Matched(ps)
    decreases |steps| - n
  {
    if n == |steps| {
      assert ps[..n] == ps;
    } else {
      NextIsFound(leaf, steps, ordered, ps, n, window);
      SliceAt(steps, n);
      SliceAt(ps, n);
      ExtendOnce(leaf, steps[n..], ordered, ps[..n], window, ps[n]);
      ExtendFinds(leaf, steps, ordered, ps, n + 1, window);
    }
  }

  /** For any number of steps, the search from a start reports `ps` if and only if `ps` is a chain
      from that start in which every position is the earliest possible. */
  lemma MatchIffEarliestChain(leaf: Leaf, steps: seq<Pred>, ordered: seq<Event>, index: nat, window: nat, ps: seq<nat>)
    requires steps != [] && index < |ordered| && IsSorted(ordered, ByTime())
    ensures MatchFrom(leaf, steps, ordered, index, window) == Matched(ps) <==>
            Chain(leaf, steps, ordered, ps, window) && ps[0] == index && Earliest(leaf, steps, ordered, ps)
  {
    MatchIsEarliestChain(leaf, steps, ordered, index, window);
    if Chain(leaf, steps, ordered, ps, window) && ps[0] == index && Earliest(leaf, steps, ordered, ps) {
      ExtendFinds(leaf, steps, ordered, ps, 1, window);
      assert ps[..1] == [index];
    }
  }

  // ---------- completeness ----------

  /** The search reports every start from which some chain exists. */
  ghost predicate CompleteOn(leaf: Leaf, steps: seq<Pred>, ordered: seq<Event>, window: nat)
    requires steps != []
  {
    forall ps {:trigger Chain(leaf, steps, ordered, ps, window)} ::
      Chain(leaf, steps, ordered, ps, window) ==> MatchFrom(leaf, steps, ordered, ps[0], window).Matched?
  }

  /** The first position in [lo..hi] where a step that does not raise holds. */
  lemma {:induction false} FirstHold(leaf: Leaf, step: Pred, ordered: seq<Event>, lo: nat, hi: nat) returns (q: nat)
    requires lo <= hi < |ordered| && Eval(leaf, step, ordered[hi]) == Holds
    requires forall i :: lo <= i <= hi ==> Eval(leaf, step, ordered[i]) != Raises
    ensures lo <= q <= hi && Eval(leaf, step, ordered[q]) == Holds
    ensures forall i :: lo <= i < q ==> Eval(leaf, step, ordered[i]) == Fails
    decreases hi - lo
  {
    if Eval(leaf, step, ordered[lo]) == Holds { q := lo; } else { q := FirstHold(leaf, step, ordered, lo + 1, hi); }
  }

  lemma TwoStepsComplete(leaf: Leaf, steps: seq<Pred>, ordered: seq<Event>, window: nat)
    requires 1 <= |steps| <= 2 && IsSorted(ordered, ByTime()) && NothingRaises(leaf, steps, ordered)
    ensures CompleteOn(leaf, steps, ordered, window)
  {
    forall ps | Chain(leaf, steps, ordered, ps, window) ensures MatchFrom(leaf, steps, ordered, ps[0], window).Matched? {
      if |steps| == 2 {
        assert Link(ordered, ps[0], ps[0+1], window);
        var q := FirstHold(leaf, steps[1], ordered, ps[0] + 1, ps[1]);
        assert ByTime()(ordered[q]) <= ByTime()(ordered[ps[1]]) by {
          if q < ps[1] { assert IsSorted(ordered, ByTime()); }
        }
        assert Link(ordered, ps[0], q, window);
        MatchIffEarliestChain(leaf, steps, ordered, ps[0], window, [ps[0], q]);
      } else {
        MatchIffEarliestChain(leaf, steps, ordered, ps[0], window, ps);
      }
    }
  }

  // ---------- widening the window ----------

  lemma {:induction false} FindNextWider(leaf: Leaf, step: Pred, ordered: seq<Event>, pos: nat, cursor: int, window: nat, wider: nat)
    requires window <= wider
    ensures var c := FindNext(leaf, step, ordered, pos, cursor, window);
      c.Hit? ==> FindNext(leaf, step, ordered, pos, cursor, wider) == c
    decreases |ordered| - pos
  {
    if pos < |ordered| { FindNextWider(leaf, step, ordered, pos + 1, cursor, window, wider); }
  }

  lemma {:induction false} ExtendWider(leaf: Leaf, steps: seq<Pred>, ordered: seq<Event>, matched: seq<nat>, window: nat, wider: nat)
    requires matched != [] && matched[|matched|-1] < |ordered| && window <= wider
    ensures var r := Extend(leaf, steps, ordered, matched, window);
      r.Matched? ==> Extend(leaf, steps, ordered, matched, wider) == r
    decreases |steps|
  {
    if steps != [] {
      var last := matched[|matched|-1];
      FindNextWider(leaf, steps[0], ordered, last + 1, ordered[last].time, window, wider);
      var c := FindNext(leaf, steps[0], ordered, last + 1, ordered[last].time, window);
      if c.Hit? && last < c.at < |ordered| {
        ExtendWider(leaf, steps[1..], ordered, matched + [c.at], window, wider);
      }
    }
  }

  /** The greedy match found under a window is the very match found under any wider one. */
  lemma MatchSurvivesWidening(leaf: Leaf, steps: seq<Pred>, ordered: seq<Event>, index: nat, window: nat, wider: nat)
    requires steps != [] && index < |ordered| && window <= wider
    ensures var r := MatchFrom(leaf, steps, ordered, index, window);
      r.Matched? ==> MatchFrom(leaf, steps, ordered, index, wider) == r
  {
    if Eval(leaf, steps[0], ordered[index]) == Holds {
      ExtendWider(leaf, steps[1..], ordered, [index], window, wider);
    }
  }

  // ---------- the rows of a sequence query ----------

  function ExecuteSequence(leaf: Leaf, steps: seq<Pred>, within: Option<nat>, events: seq<Event>): Rows
    requires steps != []
  {
    var ordered := SortBy(events, ByTime());
    var hits := Collect(leaf, steps, ordered, 0, [], Window(within));
    CollectInRange(leaf, steps, ordered, 0, [], Window(within));
    if hits.Hits? then Rows(Unique(ordered, hits.positions)) else RaisedWhileEvaluating
  }

  lemma {:induction false} CollectInRange(leaf: Leaf, steps: seq<Pred>, ordered: seq<Event>, index: nat, hits: seq<nat>, window: nat)
    requires steps != [] && InRange(ordered, hits)
    ensures var r := Collect(leaf, steps, ordered, index, hits, window); r.Hits? ==> InRange(ordered, r.positions)
    decreases |ordered| - index
  {
    if index < |ordered| {
      MatchIsEarliestChain(leaf, steps, ordered, index, window);
      var m := MatchFrom(leaf, steps, ordered, index, window);
      if m.Matched? {
        CollectInRange(leaf, steps, ordered, index + 1, hits + m.positions, window);
      } else if m.NoMatch? {
        CollectInRange(leaf, steps, ordered, index + 1, hits, window);
      }
    }
  }

  /** The positions the search reports from a start, if it matches. */
  ghost function PositionsFrom(leaf: Leaf, steps: seq<Pred>, ordered: seq<Event>, window: nat, i: nat): seq<nat>
    requires steps != []
  {
    if i < |ordered| && MatchFrom(leaf, steps, ordered, i, window).Matched?
    then MatchFrom(leaf, steps, ordered, i, window).positions else []
  }

  /** Position `p` belongs to the match the search reports from some start. */
  ghost predicate Reported(leaf: Leaf, steps: seq<Pred>, ordered: seq<Event>, window: nat, p: nat)
    requires steps != []
  {
    exists i: nat :: p in PositionsFrom(leaf, steps, ordered, window, i)
  }

  lemma {:induction false} CollectSound(leaf: Leaf, steps: seq<Pred>, ordered: seq<Event>, index: nat, hits: seq<nat>, window: nat)
    requires steps != []
    requires forall p :: p in hits ==> Reported(leaf, steps, ordered, window, p)
    ensures var r := Collect(leaf, steps, ordered, index, hits, window);
      r.Hits? ==> forall p :: p in r.positions ==> Reported(leaf, steps, ordered, window, p)
    decreases |ordered| - index
  {
    if index < |ordered| {
      var m := MatchFrom(leaf, steps, ordered, index, window);
      if m.Matched? {
        forall p | p in m.positions ensures Reported(leaf, steps, ordered, window, p) {
          assert p in PositionsFrom(leaf, steps, ordered, window, index);
        }
        CollectSound(leaf, steps, ordered, index + 1, hits + m.positions, window);
      } else if m.NoMatch? {
        CollectSound(leaf, steps, ordered, index + 1, hits, window);
      }
    }
  }

  lemma {:induction false} CollectComplete(leaf: Leaf, steps: seq<Pred>, ordered: seq<Event>, index: nat, hits: seq<nat>, window: nat, i: nat)
    requires steps != []
    ensures var r := Collect(leaf, steps, ordered, index, hits, window);
      r.Hits? ==>
        && hits <= r.positions
        && (index <= i ==> forall p :: p in PositionsFrom(leaf, steps, ordered, window, i) ==> p in r.positions)
    decreases |ordered| - index
  {
    if index < |ordered| {
      var m := MatchFrom(leaf, steps, ordered, index, window);
      if m.Matched? {
        CollectComplete(leaf, steps, ordered, index + 1, hits + m.positions, window, i);
        var r := Collect(leaf, steps, ordered, index, hits, window);
        if r.Hits? && i == index {
          forall p | p in m.positions ensures p in r.positions {
            assert p in hits + m.positions;
          }
        }
      } else if m.NoMatch? {
        CollectComplete(leaf, steps, ordered, index + 1, hits, window, i);
      }
    }
  }

  ghost predicate HasId(rows: seq<Event>, id: string) {
    exists j :: 0 <= j < |rows| && rows[j].id == id
  }

  ghost predicate DistinctIds(rows: seq<Event>) {
    forall i, j :: 0 <= i < j < |rows| ==> rows[i].id != rows[j].id
  }

  lemma {:induction false} UniqueDistinct(ordered: seq<Event>, hits: seq<nat>)
    requires InRange(ordered, hits)
    ensures DistinctIds(Unique(ordered, hits))
  {
    if hits != [] { UniqueDistinct(ordered, hits[..|hits|-1]); }
  }

  lemma {:induction false} UniqueFromHits(ordered: seq<Event>, hits: seq<nat>, i: nat) returns (p: nat)
    requires InRange(ordered, hits) && i < |Unique(ordered, hits)|
    ensures p in hits && p < |ordered| && ordered[p] == Unique(ordered, hits)[i]
  {
    var init := hits[..|hits|-1];
    if i < |Unique(ordered, init)| { p := UniqueFromHits(ordered, init, i); } else { p := hits[|hits|-1]; }
  }

  lemma {:induction false} UniqueCovers(ordered: seq<Event>, hits: seq<nat>, p: nat)
    requires InRange(ordered, hits) && p in hits
    ensures p < |ordered| && HasId(Unique(ordered, hits), ordered[p].id)
  {
    var init, last := hits[..|hits|-1], hits[|hits|-1];
    assert hits == init + [last];
    var front, u := Unique(ordered, init), Unique(ordered, hits);
    if p == last {
      if f :| f in front && f.id == ordered[p].id {
        var i :| 0 <= i < |front| && front[i] == f;
        assert u[i].id == ordered[p].id;
      } else {
        assert u[|front|] == ordered[p];
      }
    } else {
      UniqueCovers(ordered, init, p);
      var i :| 0 <= i < |front| && front[i].id == ordered[p].id;
      assert u[i] == front[i];
    }
  }

  /** The event lies on a chain of the query. */
  ghost predicate OnChain(leaf: Leaf, steps: seq<Pred>, ordered: seq<Event>, window: nat, e: Event) {
    exists ps: seq<nat>, k :: Chain(leaf, steps, ordered, ps, window) && 0 <= k < |ps| && ordered[ps[k]] == e
  }

  lemma ReportedIsOnChain(leaf: Leaf, steps: seq<Pred>, ordered: seq<Event>, window: nat, p: nat)
    requires steps != [] && Reported(leaf, steps, ordered, window, p)
    ensures p < |ordered| && OnChain(leaf, steps, ordered, window, ordered[p])
  {
    var i: nat :| p in PositionsFrom(leaf, steps, ordered, window, i);
    MatchIsEarliestChain(leaf, steps, ordered, i, window);
    var ps := PositionsFrom(leaf, steps, ordered, window, i);
    var k :| 0 <= k < |ps| && ps[k] == p;
    assert Chain(leaf, steps, ordered, ps, window) && ordered[ps[k]] == ordered[p];
  }

  /** The rows of a sequence query are events of the input, no id twice, each one on a chain. */
  lemma SequenceRowsAreSound(leaf: Leaf, steps: seq<Pred>, within: Option<nat>, events: seq<Event>)
    requires steps != []
    ensures var r, ordered := ExecuteSequence(leaf, steps, within, events), SortBy(events, ByTime());
      r.Rows? ==>
        && DistinctIds(r.rows)
        && forall i :: 0 <= i < |r.rows| ==> r.rows[i] in events && OnChain(leaf, steps, ordered, Window(within), r.rows[i])
  {
    var r, ordered, w := ExecuteSequence(leaf, steps, within, events), SortBy(events, ByTime()), Window(within);
    if r.Rows? {
      var hits := Collect(leaf, steps, ordered, 0, [], w).positions;
      CollectInRange(leaf, steps, ordered, 0, [], w);
      CollectSound(leaf, steps, ordered, 0, [], w);
      UniqueDistinct(ordered, hits);
      SortMembers(events, ByTime());
      forall i | 0 <= i < |r.rows| ensures r.rows[i] in events && OnChain(leaf, steps, ordered, w, r.rows[i]) {
        var p := UniqueFromHits(ordered, hits, i);
        ReportedIsOnChain(leaf, steps, ordered, w, p);
        assert ordered[p] in ordered;
      }
    }
  }

  /** No event of a reported match is lost: each is there, by id. */
  lemma ReportedIsInRows(leaf: Leaf, steps: seq<Pred>, within: Option<nat>, events: seq<Event>, p: nat)
    requires steps != [] && Reported(leaf, steps, SortBy(events, ByTime()), Window(within), p)
    ensures var r, ordered := ExecuteSequence(leaf, steps, within, events), SortBy(events, ByTime());
      r.Rows? ==> p < |ordered| && HasId(r.rows, ordered[p].id)
  {
    var r, ordered, w := ExecuteSequence(leaf, steps, within, events), SortBy(events, ByTime()), Window(within);
    if r.Rows? {
      var hits := Collect(leaf, steps, ordered, 0, [], w).positions;
      CollectInRange(leaf, steps, ordered, 0, [], w);
      var i: nat :| p in PositionsFrom(leaf, steps, ordered, w, i);
      CollectComplete(leaf, steps, ordered, 0, [], w, i);
      UniqueCovers(ordered, hits, p);
    }
  }

  lemma ReportedSurvivesWidening(leaf: Leaf, steps: seq<Pred>, ordered: seq<Event>, window: nat, wider: nat, p: nat)
    requires steps != [] && window <= wider && Reported(leaf, steps, ordered, window, p)
    ensures Reported(leaf, steps, ordered, wider, p)
  {
    var i: nat :| p in PositionsFrom(leaf, steps, ordered, window, i);
    MatchSurvivesWidening(leaf, steps, ordered, i, window, wider);
    assert p in PositionsFrom(leaf, steps, ordered, wider, i);
  }

  // ---------- what the search looks at ----------

  /** How many candidates one scan looks at, the one that ends it included. */
  function NextLooks(leaf: Leaf, step: Pred, ordered: seq<Event>, pos: nat, cursor: int, window: nat): nat
    decreases |ordered| - pos
  {
    if pos >= |ordered| then 0
    else if ordered[pos].time - cursor > window * MICROS || Eval(leaf, step, ordered[pos]) != Fails then 1
    else 1 + NextLooks(leaf, step, ordered, pos + 1, cursor, window)
  }

  /** How many the remaining steps look at. */
  function ExtendLooks(leaf: Leaf, steps: seq<Pred>, ordered: seq<Event>, matched: seq<nat>, window: nat): nat
    requires matched != [] && matched[|matched|-1] < |ordered|
  {
    if steps == [] then 0
    else
      var last := matched[|matched|-1];
      var looks := NextLooks(leaf, steps[0], ordered, last + 1, ordered[last].time, window);
      match FindNext(leaf, steps[0], ordered, last + 1, ordered[last].time, window)
      case Hit(q) => looks + if last < q < |ordered| then ExtendLooks(leaf, steps[1..], ordered, matched + [q], window) else 0
      case _ => looks
  }

  /** How many one start looks at. */
  function LooksFrom(leaf: Leaf, steps: seq<Pred>, ordered: seq<Event>, index: nat, window: nat): nat
    requires steps != [] && index < |ordered|
  {
    if Eval(leaf, steps[0], ordered[index]) == Holds then ExtendLooks(leaf, steps[1..], ordered, [index], window) else 0
  }

  /** How many the starts from `index` on look at; the search ends where a match raises. */
  function Looks(leaf: Leaf, steps: seq<Pred>, ordered: seq<Event>, index: nat, window: nat): nat
    requires steps != []
    decreases |ordered| - index
  {
    if index >= |ordered| then 0
    else
      LooksFrom(leaf, steps, ordered, index, window)
      + if MatchFrom(leaf, steps, ordered, index, window).MatchRaised? then 0 else Looks(leaf, steps, ordered, index + 1, window)
  }

  lemma {:induction false} NextLooksBound(leaf: Leaf, step: Pred, ordered: seq<Event>, pos: nat, cursor: int, window: nat)
    requires pos <= |ordered|
    ensures var looks, c := NextLooks(leaf, step, ordered, pos, cursor, window), FindNext(leaf, step, ordered, pos, cursor, window);
      looks <= |ordered| - pos && (c.Hit? ==> pos + looks == c.at + 1)
    decreases |ordered| - pos
  {
    if pos < |ordered| { NextLooksBound(leaf, step, ordered, pos + 1, cursor, window); }
  }

  lemma {:induction false} ExtendLooksBound(leaf: Leaf, steps: seq<Pred>, ordered: seq<Event>, matched: seq<nat>, window: nat)
    requires matched != [] && matched[|matched|-1] < |ordered|
    ensures ExtendLooks(leaf, steps, ordered, matched, window) <= |ordered| - 1 - matched[|matched|-1]
    decreases |steps|
  {
    if steps != [] {
      var last := matched[|matched|-1];
      NextLooksBound(leaf, steps[0], ordered, last + 1, ordered[last].time, window);
      var c := FindNext(leaf, steps[0], ordered, last + 1, ordered[last].time, window);
      if c.Hit? && last < c.at < |ordered| {
        ExtendLooksBound(leaf, steps[1..], ordered, matched + [c.at], window);
      }
    }
  }

  /** However many steps the query has, a start looks at no more candidates than come after it. */
  lemma LooksFromBound(leaf: Leaf, steps: seq<Pred>, ordered: seq<Event>, index: nat, window: nat)
    requires steps != [] && index < |ordered|
    ensures LooksFrom(leaf, steps, ordered, index, window) <= |ordered| - 1 - index
  {
    if Eval(leaf, steps[0], ordered[index]) == Holds { ExtendLooksBound(leaf, steps[1..], ordered, [index], window); }
  }

  /** So from `index` on, with m events left, the search looks at no more than m(m-1)/2. */
  lemma {:induction false} LooksBound(leaf: Leaf, steps: seq<Pred>, ordered: seq<Event>, index: nat, window: nat)
    requires steps != [] && index <= |ordered|
    ensures var m := |ordered| - index; 2 * Looks(leaf, steps, ordered, index, window) <= m * (m - 1)
    decreases |ordered| - index
  {
    if index < |ordered| {
      LooksFromBound(leaf, steps, ordered, index, window);
      LooksBound(leaf, steps, ordered, index + 1, window);
      var m := |ordered| - index;
      assert m * (m - 1) == (m - 1) * (m - 2) + 2 * (m - 1);
    }
  }

  // ---------- the loops ----------

  function Prepend(kept: seq<Event>, r: Rows): Rows {
    match r
    case Rows(rest) => Rows(kept + rest)
    case RaisedWhileEvaluating => RaisedWhileEvaluating
  }

  lemma FilterOne(leaf: Leaf, p: Pred, events: seq<Event>, i: nat, kept: seq<Event>)
    requires i < |events|
    ensures Prepend(kept, FilterRows(leaf, p, events[i..])) ==
      match Eval(leaf, p, events[i])
      case Raises => RaisedWhileEvaluating
      case Holds => Prepend(kept + [events[i]], FilterRows(leaf, p, events[i+1..]))
      case Fails => Prepend(kept, FilterRows(leaf, p, events[i+1..]))
  {
    var rest := FilterRows(leaf, p, events[i+1..]);
    assert events[i..][0] == events[i] && events[i..][1..] == events[i+1..];
    if rest.Rows? { assert kept + ([events[i]] + rest.rows) == kept + [events[i]] + rest.rows; }
  }

  method Filtered(leaf: Leaf, p: Pred, events: seq<Event>) returns (r: Rows)
    ensures r == FilterRows(leaf, p, events)
  {
    var kept: seq<Event> := [];
    var i := 0;
    assert Prepend([], FilterRows(leaf, p, events[0..])) == FilterRows(leaf, p, events) by { assert events[0..] == events; }
    while i < |events|
      invariant 0 <= i <= |events|
      invariant Prepend(kept, FilterRows(leaf, p, events[i..])) == FilterRows(leaf, p, events)
    {
      FilterOne(leaf, p, events, i, kept);
      var v := Eval(leaf, p, events[i]);
      if v == Raises {
        return RaisedWhileEvaluating;
      }
      if v == Holds {
        kept := kept + [events[i]];
      }
      i := i + 1;
    }
    assert events[i..] == [];
    r := Rows(kept);
  }

  /** The inner scan.  `pos` ends just past the last candidate looked at. */
  method Scan(leaf: Leaf, step: Pred, ordered: seq<Event>, start: nat, cursor: int, window: nat) returns (c: Candidate, pos: nat)
    requires start <= |ordered|
    ensures c == FindNext(leaf, step, ordered, start, cursor, window)
    ensures pos == start + NextLooks(leaf, step, ordered, start, cursor, window)
    ensures pos <= |ordered| && (c.Hit? ==> pos == c.at + 1)
  {
    pos := start;
    while pos < |ordered|
      invariant start <= pos <= |ordered|
      invariant FindNext(leaf, step, ordered, pos, cursor, window) == FindNext(leaf, step, ordered, start, cursor, window)
      invariant pos + NextLooks(leaf, step, ordered, pos, cursor, window) == start + NextLooks(leaf, step, ordered, start, cursor, window)
    {
      var candidate := ordered[pos];
      pos := pos + 1;
      if candidate.time - cursor > window * MICROS {
        return Miss, pos;
      }
      var v := Eval(leaf, step, candidate);
      if v == Raises {
        return Broken, pos;
      }
      if v == Holds {
        return Hit(pos - 1), pos;
      }
    }
    c := Miss;
  }

  /** One start: match the steps in turn.  `checks` counts the candidates looked at. */
  method TryStart(leaf: Leaf, steps: seq<Pred>, ordered: seq<Event>, index: nat, window: nat) returns (m: Match, ghost checks: nat)
    requires steps != [] && index < |ordered|
    ensures m == MatchFrom(leaf, steps, ordered, index, window)
    ensures checks == LooksFrom(leaf, steps, ordered, index, window)
  {
    checks := 0;
    var v := Eval(leaf, steps[0], ordered[index]);
    if v != Holds {
      return if v == Raises then MatchRaised else NoMatch, 0;
    }
    var matched := [index];
    var pos := index + 1;
    var k := 1;
    while k < |steps|
      invariant 1 <= k <= |steps| && index < pos <= |ordered|
      invariant matched != [] && pos == matched[|matched|-1] + 1
      invariant Extend(leaf, steps[k..], ordered, matched, window) == MatchFrom(leaf, steps, ordered, index, window)
      invariant checks + ExtendLooks(leaf, steps[k..], ordered, matched, window) == LooksFrom(leaf, steps, ordered, index, window)
    {
      var cursor := ordered[matched[|matched|-1]].time;
      FindNextSpec(leaf, steps[k], ordered, pos, cursor, window);
      assert steps[k..][0] == steps[k] && steps[k..][1..] == steps[k+1..];
      ghost var before := pos;
      var c;
      c, pos := Scan(leaf, steps[k], ordered, pos, cursor, window);
      checks := checks + (pos - before);
      match c {
        case Broken => return MatchRaised, checks;
        case Miss => return NoMatch, checks;
        case Hit(at) => matched := matched + [at];
      }
      k := k + 1;
    }
    m := Matched(matched);
  }

  /** The whole search.  `checks` counts the candidates looked at: by LooksBound at most n(n-1)/2. */
  method Sequence(leaf: Leaf, steps: seq<Pred>, within: Option<nat>, events: seq<Event>) returns (r: Rows, ghost checks: nat)
    requires steps != []
    ensures r == ExecuteSequence(leaf, steps, within, events)
    ensures checks == Looks(leaf, steps, SortBy(events, ByTime()), 0, Window(within))
    ensures 2 * checks <= |events| * (|events| - 1)
  {
    var ordered := SortBy(events, ByTime());
    SortSpec(events, ByTime());
    var window := Window(within);
    var hits: seq<nat> := [];
    CollectInRange(leaf, steps, ordered, 0, [], window);
    LooksBound(leaf, steps, ordered, 0, window);
    checks := 0;
    var index := 0;
    while index < |ordered|
      invariant 0 <= index <= |ordered|
      invariant InRange(ordered, hits)
      invariant checks + Looks(leaf, steps, ordered, index, window) == Looks(leaf, steps, ordered, 0, window)
      invariant Collect(leaf, steps, ordered, index, hits, window) == Collect(leaf, steps, ordered, 0, [], window)
    {
      var m, more := TryStart(leaf, steps, ordered, index, window);
      checks := checks + more;
      if m.MatchRaised? {
        return RaisedWhileEvaluating, checks;
      }
      MatchIsEarliestChain(leaf, steps, ordered, index, window);
      if m.Matched? {
        hits := hits + m.positions;
      }
      index := index + 1;
    }
    var unique := Dedupe(ordered, hits);
    r := Rows(unique);
  }

  method Dedupe(ordered: seq<Event>, hits: seq<nat>) returns (unique: seq<Event>)
    requires InRange(ordered, hits)
    ensures unique == Unique(ordered, hits)
  {
    var seen: set<string> := {};
    unique := [];
    var i := 0;
    while i < |hits|
      invariant 0 <= i <= |hits|
      invariant unique == Unique(ordered, hits[..i])
      invariant forall id :: id in seen <==> exists f :: f in unique && f.id == id
    {
      var e := ordered[hits[i]];
      assert hits[..i+1][..i] == hits[..i];
      if e.id !in seen {
        seen := seen + {e.id};
        unique := unique + [e];
      }
      i := i + 1;
    }
    assert hits[..i] == hits;
  }

  datatype Answer = Answer(rows: Rows) | BadQuery(error: Error)

  /** What a query answers: filters and entity queries filter, sequences search. */
  function ExecuteQuery(leaf: Leaf, ts: seq<Token>, events: seq<Event>): Answer {
    match Parse(ts)
    case Rejected(e) => BadQuery(e)
    case Tree(Entity(_, p)) => Answer(FilterRows(leaf, p, events))
    case Tree(Steps(steps, within)) =>
      ParsedIsProper(ts);
      if |steps| == 1 then Answer(FilterRows(leaf, steps[0], events))
      else Answer(ExecuteSequence(leaf, steps, within, events))
  }

  method Execute(leaf: Leaf, ts: seq<Token>, events: seq<Event>) returns (a: Answer)
    ensures a == ExecuteQuery(leaf, ts, events)
  {
    var parsed := ParseQuery(ts);
    match parsed {
      case Rejected(e) => return BadQuery(e);
      case Tree(Entity(_, p)) =>
        var rows := Filtered(leaf, p, events);
        return Answer(rows);
      case Tree(Steps(steps, within)) =>
        ParsedIsProper(ts);
        if |steps| == 1 {
          var rows := Filtered(leaf, steps[0], events);
          return Answer(rows);
        }
        var rows, _ := Sequence(leaf, steps, within, events);
        return Answer(rows);
    }
  }

  /** A filter keeps exactly the events its predicate holds of, in order, and raises exactly when
      the predicate raises on some event. */
  lemma {:induction false} FilterRowsSpec(leaf: Leaf, p: Pred, events: seq<Event>)
    ensures var r := FilterRows(leaf, p, events);
      if exists e :: e in events && Eval(leaf, p, e) == Raises then r == RaisedWhileEvaluating
      else r == Rows(Filter(events, e => Eval(leaf, p, e) == Holds))
  {
    if events != [] {
      FilterRowsSpec(leaf, p, events[1..]);
      assert events == [events[0]] + events[1..];
    }
  }
}
