/**
 The order of a run's entries, exactly: after each step taken, the next is the first that is ready, looking on
 from there in the order of the playbook and round again from its beginning.
 */
module PlaybookOrder {
  import opened Common
  import opened Sorting
  import opened Playbook
  import opened PlaybookProofs
  import opened PlaybookTheorems

  /** Looking on from `last`, or from the beginning if it is -1, position `k` comes before `to`. */
  predicate ComesBefore(last: int, to: int, k: int) { if last < to then last < k < to else k > last || k < to }

  /** The step at `to` is ready, and no step not taken yet that comes before it is. */
  ghost predicate IsNext(all: seq<StepDef>, taken: seq<StepDef>, done: set<string>, last: int, to: nat) {
    && to < |all| && all[to] !in taken && Ready(all[to], done)
    && forall k :: 0 <= k < |all| && ComesBefore(last, to, k) && all[k] !in taken ==> !Ready(all[k], done)
  }

  function LastOf(at: seq<nat>): int { if at == [] then -1 else at[|at|-1] }

  ghost predicate TakenAt(all: seq<StepDef>, p: Progress, at: seq<nat>, i: nat)
    requires |at| == |p.visited| == |p.entries| && i < |at|
  {
    && at[i] < |all| && p.visited[i] == all[at[i]]
    && IsNext(all, p.visited[..i], Done(p.entries[..i]), LastOf(at[..i]), at[i])
  }

  /** Each step was next when it was taken. */
  ghost predicate InTurn(all: seq<StepDef>, p: Progress, at: seq<nat>) {
    |at| == |p.visited| == |p.entries| && forall i :: 0 <= i < |at| ==> TakenAt(all, p, at, i)
  }

  function NotIn(taken: seq<StepDef>): StepDef -> bool { (s: StepDef) => s !in taken }

  function Remaining(all: seq<StepDef>, from: nat, taken: seq<StepDef>): seq<StepDef>
    requires from <= |all|
  {
    Filter(all[from..], NotIn(taken))
  }

  /** Positions looked at, up to the cursor, since the last step was taken. */
  predicate Passed(last: int, cursor: int, k: int) { if last <= cursor then last < k <= cursor else k > last || k <= cursor }

  ghost predicate NoneReady(all: seq<StepDef>, p: Progress, last: int, cursor: int) {
    forall k :: 0 <= k < |all| && Passed(last, cursor, k) && all[k] !in p.visited ==> !Ready(all[k], p.completed)
  }

  /** Where the loop stands: before `from` the steps not taken have been looked at. */
  ghost predicate Standing(all: seq<StepDef>, p: Progress, at: seq<nat>, from: nat) {
    && from <= |all| && InTurn(all, p, at) && NoneReady(all, p, LastOf(at), from - 1)
    && p.completed == Done(p.entries) && p.pending == Filter(all, NotIn(p.visited))
  }

  lemma RemainingStep(all: seq<StepDef>, from: nat, taken: seq<StepDef>)
    requires from < |all|
    ensures Remaining(all, from, taken) == (if all[from] in taken then [] else [all[from]]) + Remaining(all, from + 1, taken)
  {
    assert all[from..][0] == all[from] && all[from..][1..] == all[from+1..];
  }

  lemma {:induction false} FilterWithout(all: seq<StepDef>, f: StepDef -> bool, g: StepDef -> bool, id: string)
    requires forall s :: s in all ==> g(s) == (f(s) && s.id != id)
    ensures Without(Filter(all, f), id) == Filter(all, g)
  {
    if all != [] {
      FilterWithout(all[1..], f, g, id);
      var rest := Filter(all[1..], f);
      assert all == [all[0]] + all[1..] && ([all[0]] + rest)[1..] == rest;
    }
  }

  lemma TakenLeavesPending(all: seq<StepDef>, taken: seq<StepDef>, s: StepDef)
    requires DistinctIds(all) && s in all
    ensures Without(Filter(all, NotIn(taken)), s.id) == Filter(all, NotIn(taken + [s]))
  {
    forall x | x in all ensures NotIn(taken + [s])(x) == (NotIn(taken)(x) && x.id != s.id) {
      assert x.id == s.id <==> x == s;
    }
    FilterWithout(all, NotIn(taken), NotIn(taken + [s]), s.id);
  }

  lemma TakenIsBehind(all: seq<StepDef>, taken: seq<StepDef>, at: nat)
    requires DistinctIds(all) && at < |all|
    ensures Remaining(all, at + 1, taken + [all[at]]) == Remaining(all, at + 1, taken)
  {
    var tail := all[at+1..];
    forall x | x in tail ensures NotIn(taken + [all[at]])(x) == NotIn(taken)(x) {
      var i :| 0 <= i < |tail| && tail[i] == x;
      assert x == all[at + 1 + i];
    }
    FilterAlike(tail, NotIn(taken + [all[at]]), NotIn(taken));
  }

  lemma TurnStays(all: seq<StepDef>, p: Progress, at: seq<nat>, s: StepDef, entry: StepRun, calls: seq<Call>, to: nat)
    requires InTurn(all, p, at) && p.completed == Done(p.entries)
    requires IsNext(all, p.visited, p.completed, LastOf(at), to) && s == all[to]
    ensures InTurn(all, Record(p, s, entry, calls), at + [to])
  {
    var q, at' := Record(p, s, entry, calls), at + [to];
    forall i | 0 <= i < |at'| ensures TakenAt(all, q, at', i) {
      if i < |at| {
        assert TakenAt(all, p, at, i);
        assert q.visited[..i] == p.visited[..i] && q.entries[..i] == p.entries[..i] && at'[..i] == at[..i];
      } else {
        assert q.visited[..i] == p.visited && q.entries[..i] == p.entries && at'[..i] == at;
      }
    }
  }

  lemma LastIsTaken(all: seq<StepDef>, p: Progress, at: seq<nat>)
    requires InTurn(all, p, at)
    ensures LastOf(at) < |all| && (LastOf(at) >= 0 ==> all[LastOf(at)] in p.visited)
  {
    if at != [] { assert TakenAt(all, p, at, |at| - 1); }
  }

  /** Looking at one more step that is taken already or not ready. */
  lemma LookOn(all: seq<StepDef>, p: Progress, at: seq<nat>, from: nat)
    requires Standing(all, p, at, from) && from < |all| && (all[from] in p.visited || !Ready(all[from], p.completed))
    ensures Standing(all, p, at, from + 1)
  {
    LastIsTaken(all, p, at);
    forall k | 0 <= k < |all| && Passed(LastOf(at), from, k) && all[k] !in p.visited ensures !Ready(all[k], p.completed) {
      if k != from { assert Passed(LastOf(at), from - 1, k); }
    }
  }

  /** The step at hand, if ready, is next. */
  lemma ReadyIsNext(all: seq<StepDef>, p: Progress, at: seq<nat>, from: nat)
    requires Standing(all, p, at, from) && from < |all| && all[from] !in p.visited && Ready(all[from], p.completed)
    ensures IsNext(all, p.visited, p.completed, LastOf(at), from)
  {
    LastIsTaken(all, p, at);
    forall k | 0 <= k < |all| && ComesBefore(LastOf(at), from, k) && all[k] !in p.visited ensures !Ready(all[k], p.completed) {
      assert Passed(LastOf(at), from - 1, k);
    }
  }

  lemma TakeOne(all: seq<StepDef>, p: Progress, at: seq<nat>, from: nat, entry: StepRun, calls: seq<Call>)
    requires DistinctIds(all) && Standing(all, p, at, from) && from < |all| && all[from] !in p.visited && Ready(all[from], p.completed)
    requires entry.stepId == all[from].id
    ensures Standing(all, Record(p, all[from], entry, calls), at + [from], from + 1)
  {
    ReadyIsNext(all, p, at, from);
    TurnStays(all, p, at, all[from], entry, calls, from);
    TakenLeavesPending(all, p.visited, all[from]);
    DoneAppend(p.entries, entry);
  }

  /** Visiting a step either leaves everything or takes the step. */
  lemma VisitTakes(c: RunConfig, s: StepDef, p: Progress) returns (entry: StepRun, calls: seq<Call>)
    ensures if !Ready(s, p.completed) then Visit(c, s, p) == Going(p)
            else if !ValidTier(s.tier) then Visit(c, s, p) == Broken(p)
            else entry.stepId == s.id && Visit(c, s, p).p == Record(p, s, entry, calls) && !Visit(c, s, p).Broken?
  {
    if Gated(c, s) {
      entry, calls := AwaitingEntry(s), p.calls;
    } else {
      var r := Retry(c.executor, p.calls, CallFor(c, s), 0, s.retries, "");
      entry, calls := ExecutedEntry(s, r), r.calls;
    }
  }

  lemma {:induction false} SweepInTurn(c: RunConfig, all: seq<StepDef>, p: Progress, at: seq<nat>, from: nat) returns (at': seq<nat>)
    requires DistinctIds(all) && Standing(all, p, at, from)
    ensures var f := Sweep(c, Remaining(all, from, p.visited), p);
      InTurn(all, f.p, at') && (f.Going? ==> Standing(all, f.p, at', |all|))
    decreases |all| - from
  {
    at' := at;
    if from < |all| {
      RemainingStep(all, from, p.visited);
      var s, rest := all[from], Remaining(all, from + 1, p.visited);
      if s in p.visited {
        LookOn(all, p, at, from);
        assert Remaining(all, from, p.visited) == rest;
        at' := SweepInTurn(c, all, p, at, from + 1);
      } else {
        assert Remaining(all, from, p.visited)[0] == s && Remaining(all, from, p.visited)[1..] == rest;
        var entry, calls := VisitTakes(c, s, p);
        var f := Visit(c, s, p);
        if !Ready(s, p.completed) {
          LookOn(all, p, at, from);
          at' := SweepInTurn(c, all, p, at, from + 1);
        } else if ValidTier(s.tier) {
          TakeOne(all, p, at, from, entry, calls);
          TakenIsBehind(all, p.visited, from);
          at' := at + [from];
          if f.Going? { at' := SweepInTurn(c, all, f.p, at + [from], from + 1); }
        }
      }
    } else {
      assert all[from..] == [];
    }
  }

  /** Round again from the beginning. */
  lemma Restart(all: seq<StepDef>, p: Progress, at: seq<nat>)
    requires Standing(all, p, at, |all|)
    ensures Standing(all, p, at, 0)
  {
    LastIsTaken(all, p, at);
    forall k | 0 <= k < |all| && Passed(LastOf(at), -1, k) && all[k] !in p.visited ensures !Ready(all[k], p.completed) {
      assert Passed(LastOf(at), |all| - 1, k);
    }
  }

  lemma {:induction false} ScheduleInTurn(c: RunConfig, all: seq<StepDef>, p: Progress, at: seq<nat>) returns (at': seq<nat>)
    requires DistinctIds(all) && Standing(all, p, at, 0)
    ensures InTurn(all, Schedule(c, p).p, at')
    decreases |p.pending|
  {
    at' := at;
    if p.pending != [] {
      assert all[0..] == all && Remaining(all, 0, p.visited) == p.pending;
      at' := SweepInTurn(c, all, p, at, 0);
      var f := Sweep(c, p.pending, p);
      if f.Going? && |f.p.pending| < |p.pending| {
        Restart(all, f.p, at');
        at' := ScheduleInTurn(c, all, f.p, at');
      }
    }
  }

  lemma {:induction false} NoneTaken(all: seq<StepDef>)
    ensures Filter(all, NotIn([])) == all
  {
    if all != [] {
      NoneTaken(all[1..]);
      assert all == [all[0]] + all[1..];
    }
  }

  /** In every run, each step is taken in its turn: it is the first step ready, looking on from the one taken before in
      the order of the playbook and round again. */
  lemma StepsAreTakenInTurn(c: RunConfig, steps: seq<StepDef>, base: seq<Call>) returns (at: seq<nat>)
    ensures InTurn(PendingOf(steps), Execute(c, steps, base).p, at)
  {
    PendingOfSpec(steps);
    var p := Start(steps, base);
    NoneTaken(PendingOf(steps));
    assert Done([]) == {};
    at := ScheduleInTurn(c, PendingOf(steps), p, []);
  }

  // ---------- the order of the playbook ----------

  /** The first step listed under the id is at `p`. */
  ghost predicate ListedFirst(steps: seq<StepDef>, id: string, p: nat) {
    p < |steps| && steps[p].id == id && forall q :: 0 <= q < p ==> steps[q].id != id
  }

  ghost predicate InPlace(steps: seq<StepDef>, dict: seq<StepDef>, ps: seq<nat>) {
    && |ps| == |dict| && (forall i, j :: 0 <= i < j < |ps| ==> ps[i] < ps[j])
    && forall i :: 0 <= i < |ps| ==> ListedFirst(steps, dict[i].id, ps[i])
  }

  lemma {:induction false} PutKeepsPlaces(dict: seq<StepDef>, s: StepDef)
    ensures var more := Put(dict, s);
      && (forall i :: 0 <= i < |dict| ==> i < |more| && more[i].id == dict[i].id)
      && if exists i :: 0 <= i < |dict| && dict[i].id == s.id then |more| == |dict| else |more| == |dict| + 1 && more[|dict|] == s
  {
    if dict != [] && dict[0].id != s.id {
      PutKeepsPlaces(dict[1..], s);
      assert Put(dict, s)[1..] == Put(dict[1..], s);
      if i :| 0 <= i < |dict| && dict[i].id == s.id { assert dict[1..][i-1].id == s.id; }
    } else if dict != [] {
      assert Put(dict, s)[1..] == dict[1..];
    }
  }

  lemma ListedInFront(steps: seq<StepDef>, id: string, p: nat)
    requires steps != [] && ListedFirst(steps[..|steps|-1], id, p)
    ensures ListedFirst(steps, id, p)
  {
    assert forall q :: 0 <= q <= p ==> steps[q] == steps[..|steps|-1][q];
  }

  /** The steps of a run come in the order in which the playbook first lists their ids, whichever definition counts. */
  lemma {:induction false} PendingKeepsPlaces(steps: seq<StepDef>) returns (ps: seq<nat>)
    ensures InPlace(steps, PendingOf(steps), ps)
  {
    ps := [];
    if steps != [] {
      var init, s := steps[..|steps|-1], steps[|steps|-1];
      ps := PendingKeepsPlaces(init);
      var dict := PendingOf(init);
      PutKeepsPlaces(dict, s);
      forall i | 0 <= i < |ps| ensures ListedFirst(steps, dict[i].id, ps[i]) { ListedInFront(steps, dict[i].id, ps[i]); }
      if !exists i :: 0 <= i < |dict| && dict[i].id == s.id {
        NewIsListedFirst(steps);
        ps := ps + [|init|];
      }
    }
  }

  lemma NewIsListedFirst(steps: seq<StepDef>)
    requires steps != []
    requires var dict := PendingOf(steps[..|steps|-1]); !exists i :: 0 <= i < |dict| && dict[i].id == steps[|steps|-1].id
    ensures ListedFirst(steps, steps[|steps|-1].id, |steps| - 1)
  {
    var init, s := steps[..|steps|-1], steps[|steps|-1];
    forall q | 0 <= q < |init| ensures steps[q].id != s.id {
      var t := LastListed(init, q);
      PendingOfSpec(init);
      assert t in PendingOf(init);
      var i :| 0 <= i < |PendingOf(init)| && PendingOf(init)[i] == t;
      assert PendingOf(init)[i].id == steps[q].id;
    }
  }

  /** Under each id that is listed there is a last definition. */
  lemma {:induction false} LastListed(steps: seq<StepDef>, q: nat) returns (t: StepDef)
    requires q < |steps|
    ensures LastWithItsId(steps, t) && t.id == steps[q].id
    decreases |steps| - q
  {
    if j :| q < j < |steps| && steps[j].id == steps[q].id {
      t := LastListed(steps, j);
    } else {
      t := steps[q];
    }
  }
}
