/**
 What a playbook run guarantees: the scheduling invariant over every step of every run,
 safety of the approval gate and exact call accounting for any executor, and, when the
 run is not cut short, the characterisation of the outcome as a least fixpoint.
 */
module PlaybookProofs {
  import opened Common
  import opened Playbook

  // ---------- what the entries of a run say ----------

  ghost predicate DistinctIds(steps: seq<StepDef>) {
    forall i, j :: 0 <= i < j < |steps| ==> steps[i].id != steps[j].id
  }

  /** The step ids recorded as successful. */
  function Done(entries: seq<StepRun>): set<string> {
    set e | e in entries && e.status == Success :: e.stepId
  }

  function AwaitingIds(entries: seq<StepRun>): seq<string> {
    if entries == [] then []
    else
      var e := entries[|entries|-1];
      AwaitingIds(entries[..|entries|-1]) + if e.status == AwaitingApproval then [e.stepId] else []
  }

  function Copies(call: Call, n: int): (cs: seq<Call>)
    ensures |cs| == (if n < 0 then 0 else n)
    ensures forall x :: x in cs ==> x == call
  {
    if n <= 0 then [] else Copies(call, n - 1) + [call]
  }

  /** The executor calls that a list of entries accounts for: each step's call, `attempts` times. */
  function CallLog(c: RunConfig, visited: seq<StepDef>, entries: seq<StepRun>): seq<Call>
    requires |visited| == |entries|
  {
    if entries == [] then []
    else
      var n := |entries| - 1;
      CallLog(c, visited[..n], entries[..n]) + Copies(CallFor(c, visited[n]), entries[n].attempts)
  }

  /** The most calls one step may cause. */
  function Allowance(s: StepDef): nat {
    if s.retries < 0 then 0 else s.retries + 1
  }

  function Budget(steps: seq<StepDef>): nat {
    if steps == [] then 0 else Allowance(steps[0]) + Budget(steps[1..])
  }

  // ---------- the invariant ----------

  ghost predicate EntryOk(c: RunConfig, s: StepDef, before: seq<StepRun>, e: StepRun) {
    && e.stepId == s.id && e.actionType == s.actionType && e.rollback == s.rollback
    && Ready(s, Done(before))
    && ValidTier(s.tier)
    && (e.status == AwaitingApproval <==> Gated(c, s))
    && (e.status == AwaitingApproval ==> e.attempts == 0)
    && 0 <= e.attempts <= Allowance(s)
  }

  ghost predicate EntriesOk(c: RunConfig, p: Progress) {
    && |p.visited| == |p.entries|
    && forall i :: 0 <= i < |p.entries| ==> EntryOk(c, p.visited[i], p.entries[..i], p.entries[i])
  }

  ghost predicate Split(all: seq<StepDef>, p: Progress) {
    && DistinctIds(p.pending) && DistinctIds(p.visited)
    && (forall s, t :: s in p.pending && t in p.visited ==> s.id != t.id)
    && (forall s :: s in all <==> s in p.pending || s in p.visited)
    && Budget(p.pending) + Budget(p.visited) == Budget(all)
  }

  ghost predicate Accounted(c: RunConfig, base: seq<Call>, p: Progress)
    requires |p.visited| == |p.entries|
  {
    && p.completed == Done(p.entries)
    && p.approvals == AwaitingIds(p.entries)
    && p.calls == base + CallLog(c, p.visited, p.entries)
  }

  ghost predicate Inv(c: RunConfig, all: seq<StepDef>, base: seq<Call>, p: Progress) {
    && EntriesOk(c, p)
    && Split(all, p)
    && Accounted(c, base, p)
  }

  // ---------- the retry loop ----------

  lemma {:induction false} CopiesShift(call: Call, n: nat)
    ensures Copies(call, n + 1) == [call] + Copies(call, n)
  {
    if n > 0 { CopiesShift(call, n - 1); }
  }

  /** Calls are logged one per attempt, and the attempts stay within the retry bound. */
  lemma {:induction false} RetryCalls(ex: Executor, calls: seq<Call>, call: Call, attempts: int, retries: int, error: string)
    ensures var r := Retry(ex, calls, call, attempts, retries, error);
      && r.calls == calls + Copies(call, r.attempts - attempts)
      && attempts <= r.attempts
      && (attempts <= retries ==> attempts < r.attempts <= retries + 1)
      && (attempts > retries ==> r.attempts == attempts)
    decreases retries - attempts
  {
    if attempts <= retries {
      var next := calls + [call];
      match ex(next) {
        case Outputs(_) =>
          assert Copies(call, 1) == [call];
        case Exception(message) =>
          RetryCalls(ex, next, call, attempts + 1, retries, message);
          var r := Retry(ex, next, call, attempts + 1, retries, message);
          CopiesShift(call, r.attempts - attempts - 1);
          assert calls + ([call] + Copies(call, r.attempts - attempts - 1)) == next + Copies(call, r.attempts - attempts - 1);
      }
    }
  }

  // ---------- the invariant is kept by every step of the schedule ----------

  lemma {:induction false} WithoutMembers(steps: seq<StepDef>, id: string)
    ensures forall t :: t in Without(steps, id) <==> t in steps && t.id != id
    ensures |Without(steps, id)| <= |steps|
  {
    if steps != [] {
      WithoutMembers(steps[1..], id);
      assert steps == [steps[0]] + steps[1..];
    }
  }

  lemma {:induction false} WithoutDistinct(steps: seq<StepDef>, id: string)
    requires DistinctIds(steps)
    ensures DistinctIds(Without(steps, id))
  {
    if steps != [] {
      var rest := steps[1..];
      WithoutDistinct(rest, id);
      WithoutMembers(rest, id);
      var w := Without(rest, id);
      forall j | 0 <= j < |w| ensures w[j].id != steps[0].id {
        assert w[j] in rest;
        var k :| 0 <= k < |rest| && rest[k] == w[j];
        assert steps[k+1] == w[j];
      }
    }
  }

  lemma WithoutSpec(steps: seq<StepDef>, s: StepDef)
    requires DistinctIds(steps)
    ensures forall t :: t in Without(steps, s.id) <==> t in steps && t.id != s.id
    ensures DistinctIds(Without(steps, s.id))
    ensures |Without(steps, s.id)| <= |steps|
    ensures s in steps ==> |Without(steps, s.id)| < |steps|
    ensures s in steps ==> Budget(Without(steps, s.id)) + Allowance(s) == Budget(steps)
  {
    WithoutMembers(steps, s.id);
    WithoutDistinct(steps, s.id);
    if s in steps { WithoutOne(steps, s); }
  }

  lemma {:induction false} WithoutOne(steps: seq<StepDef>, s: StepDef)
    requires DistinctIds(steps) && s in steps
    ensures |Without(steps, s.id)| < |steps|
    ensures Budget(Without(steps, s.id)) + Allowance(s) == Budget(steps)
  {
    var rest := steps[1..];
    assert steps == [steps[0]] + rest;
    var w := Without(rest, s.id);
    if steps[0].id == s.id {
      forall t | t in rest ensures t.id != s.id {
        var k :| 0 <= k < |rest| && rest[k] == t;
        assert steps[k+1] == t;
      }
      WithoutNone(rest, s.id);
      assert Without(steps, s.id) == [] + w == w;
    } else {
      WithoutOne(rest, s);
      assert Without(steps, s.id) == [steps[0]] + w;
      assert Without(steps, s.id)[1..] == w;
    }
  }

  lemma {:induction false} WithoutNone(steps: seq<StepDef>, id: string)
    requires forall t :: t in steps ==> t.id != id
    ensures Without(steps, id) == steps
  {
    if steps != [] {
      WithoutNone(steps[1..], id);
      assert steps == [steps[0]] + steps[1..];
    }
  }

  lemma {:induction false} BudgetAppend(steps: seq<StepDef>, s: StepDef)
    ensures Budget(steps + [s]) == Budget(steps) + Allowance(s)
  {
    if steps != [] {
      BudgetAppend(steps[1..], s);
      assert (steps + [s])[1..] == steps[1..] + [s];
    } else {
      assert ([s])[1..] == [];
    }
  }

  lemma DoneAppend(entries: seq<StepRun>, e: StepRun)
    ensures Done(entries + [e]) == Done(entries) + if e.status == Success then {e.stepId} else {}
  {
    var es := entries + [e];
    assert forall x :: x in es <==> x in entries || x == e;
  }

  lemma SplitRecord(all: seq<StepDef>, p: Progress, s: StepDef, entry: StepRun, calls: seq<Call>)
    requires Split(all, p) && s in p.pending
    ensures Split(all, Record(p, s, entry, calls))
  {
    WithoutSpec(p.pending, s);
    BudgetAppend(p.visited, s);
    var q := Record(p, s, entry, calls);
    forall t ensures t in all <==> t in q.pending || t in q.visited {
      if t in p.pending && t.id == s.id {
        assert t == s;
      }
    }
  }

  lemma EntriesRecord(c: RunConfig, p: Progress, s: StepDef, entry: StepRun, calls: seq<Call>)
    requires EntriesOk(c, p) && EntryOk(c, s, p.entries, entry)
    ensures EntriesOk(c, Record(p, s, entry, calls))
  {
    var q := Record(p, s, entry, calls);
    forall i | 0 <= i < |q.entries| ensures EntryOk(c, q.visited[i], q.entries[..i], q.entries[i]) {
      if i < |p.entries| {
        assert q.entries[..i] == p.entries[..i];
      } else {
        assert q.entries[..i] == p.entries;
      }
    }
  }

  lemma CallLogAppend(c: RunConfig, visited: seq<StepDef>, entries: seq<StepRun>, s: StepDef, e: StepRun)
    requires |visited| == |entries|
    ensures CallLog(c, visited + [s], entries + [e]) == CallLog(c, visited, entries) + Copies(CallFor(c, s), e.attempts)
  {
    assert (visited + [s])[..|entries|] == visited && (entries + [e])[..|entries|] == entries;
  }

  lemma AwaitingAppend(entries: seq<StepRun>, e: StepRun)
    ensures AwaitingIds(entries + [e]) == AwaitingIds(entries) + if e.status == AwaitingApproval then [e.stepId] else []
  {
    assert (entries + [e])[..|entries|] == entries;
  }

  lemma AccountedRecord(c: RunConfig, base: seq<Call>, p: Progress, s: StepDef, entry: StepRun)
    requires |p.visited| == |p.entries| && Accounted(c, base, p) && entry.stepId == s.id
    ensures Accounted(c, base, Record(p, s, entry, p.calls + Copies(CallFor(c, s), entry.attempts)))
  {
    DoneAppend(p.entries, entry);
    AwaitingAppend(p.entries, entry);
    CallLogAppend(c, p.visited, p.entries, s, entry);
    assert AwaitingIds(p.entries) + [] == AwaitingIds(p.entries);
    var more := Copies(CallFor(c, s), entry.attempts);
    assert p.calls + more == base + (CallLog(c, p.visited, p.entries) + more);
  }

  lemma RecordKeeps(c: RunConfig, all: seq<StepDef>, base: seq<Call>, p: Progress, s: StepDef, entry: StepRun)
    requires Inv(c, all, base, p) && s in p.pending
    requires EntryOk(c, s, p.entries, entry)
    ensures Inv(c, all, base, Record(p, s, entry, p.calls + Copies(CallFor(c, s), entry.attempts)))
  {
    var calls := p.calls + Copies(CallFor(c, s), entry.attempts);
    SplitRecord(all, p, s, entry, calls);
    EntriesRecord(c, p, s, entry, calls);
    AccountedRecord(c, base, p, s, entry);
  }

  lemma HeldKeeps(c: RunConfig, all: seq<StepDef>, base: seq<Call>, s: StepDef, p: Progress)
    requires Inv(c, all, base, p) && s in p.pending
    requires Ready(s, p.completed) && ValidTier(s.tier) && Gated(c, s)
    ensures Inv(c, all, base, Record(p, s, AwaitingEntry(s), p.calls))
  {
    assert p.calls + Copies(CallFor(c, s), 0) == p.calls;
    RecordKeeps(c, all, base, p, s, AwaitingEntry(s));
  }

  lemma ExecutedKeeps(c: RunConfig, all: seq<StepDef>, base: seq<Call>, s: StepDef, p: Progress)
    requires Inv(c, all, base, p) && s in p.pending
    requires Ready(s, p.completed) && ValidTier(s.tier) && !Gated(c, s)
    ensures var r := Retry(c.executor, p.calls, CallFor(c, s), 0, s.retries, "");
      Inv(c, all, base, Record(p, s, ExecutedEntry(s, r), r.calls))
  {
    RetryCalls(c.executor, p.calls, CallFor(c, s), 0, s.retries, "");
    var r := Retry(c.executor, p.calls, CallFor(c, s), 0, s.retries, "");
    assert r.calls == p.calls + Copies(CallFor(c, s), r.attempts);
    RecordKeeps(c, all, base, p, s, ExecutedEntry(s, r));
  }

  lemma VisitKeeps(c: RunConfig, all: seq<StepDef>, base: seq<Call>, s: StepDef, p: Progress)
    requires Inv(c, all, base, p) && s in p.pending
    ensures Inv(c, all, base, Visit(c, s, p).p)
    ensures Visit(c, s, p).p == p || Visit(c, s, p).p.pending == Without(p.pending, s.id)
    ensures Visit(c, s, p).Going? && Visit(c, s, p).p == p ==> !Ready(s, p.completed)
  {
    if Ready(s, p.completed) && ValidTier(s.tier) {
      if Gated(c, s) {
        HeldKeeps(c, all, base, s, p);
      } else {
        ExecutedKeeps(c, all, base, s, p);
      }
      assert |Visit(c, s, p).p.visited| == |p.visited| + 1;
    }
  }

  /** A pass keeps the invariant; a pass that takes nothing leaves every step it looked at blocked. */
  lemma {:induction false} SweepKeeps(c: RunConfig, all: seq<StepDef>, base: seq<Call>, todo: seq<StepDef>, p: Progress)
    requires Inv(c, all, base, p)
    requires DistinctIds(todo) && forall s :: s in todo ==> s in p.pending
    ensures var f := Sweep(c, todo, p);
      && Inv(c, all, base, f.p)
      && |f.p.pending| <= |p.pending|
      && (f.Going? && |f.p.pending| == |p.pending| ==>
            f.p == p && forall s :: s in todo ==> !Ready(s, p.completed))
  {
    if todo != [] {
      var f := Visit(c, todo[0], p);
      VisitKeeps(c, all, base, todo[0], p);
      WithoutSpec(p.pending, todo[0]);
      if f.Going? {
        forall s | s in todo[1..] ensures s in f.p.pending {
          assert s.id != todo[0].id;
        }
        SweepKeeps(c, all, base, todo[1..], f.p);
      }
    }
  }

  ghost predicate Stuck(p: Progress) {
    forall s :: s in p.pending ==> !Ready(s, p.completed)
  }

  /** The schedule keeps the invariant, and if it is not cut short it ends where nothing pending is ready. */
  lemma {:induction false} ScheduleKeeps(c: RunConfig, all: seq<StepDef>, base: seq<Call>, p: Progress)
    requires Inv(c, all, base, p)
    ensures Inv(c, all, base, Schedule(c, p).p)
    ensures Schedule(c, p).Going? ==> Stuck(Schedule(c, p).p)
    decreases |p.pending|
  {
    if p.pending != [] {
      SweepKeeps(c, all, base, p.pending, p);
      var f := Sweep(c, p.pending, p);
      if f.Going? && |f.p.pending| < |p.pending| {
        ScheduleKeeps(c, all, base, f.p);
      }
    }
  }

  // ---------- the pending dict ----------

  lemma {:induction false} PutSpec(dict: seq<StepDef>, s: StepDef)
    requires DistinctIds(dict)
    ensures DistinctIds(Put(dict, s))
    ensures forall t :: t in Put(dict, s) <==> t == s || (t in dict && t.id != s.id)
  {
    if dict != [] {
      assert dict == [dict[0]] + dict[1..];
      assert forall t :: t in dict[1..] ==> t.id != dict[0].id;
      PutSpec(dict[1..], s);
    }
  }

  ghost predicate LastWithItsId(steps: seq<StepDef>, s: StepDef) {
    exists i :: 0 <= i < |steps| && steps[i] == s && forall j :: i < j < |steps| ==> steps[j].id != s.id
  }

  lemma LastAppend(steps: seq<StepDef>, x: StepDef, s: StepDef)
    ensures LastWithItsId(steps + [x], s) <==> s == x || (LastWithItsId(steps, s) && s.id != x.id)
  {
    var all, n := steps + [x], |steps|;
    if LastWithItsId(all, s) {
      var i :| 0 <= i < |all| && all[i] == s && forall j :: i < j < |all| ==> all[j].id != s.id;
      if i < n {
        assert steps[i] == s && forall j :: i < j < n ==> steps[j] == all[j];
        assert all[n] == x;
      }
    }
    if LastWithItsId(steps, s) && s.id != x.id {
      var i :| 0 <= i < n && steps[i] == s && forall j :: i < j < n ==> steps[j].id != s.id;
      assert all[i] == s;
      assert forall j :: i < j < |all| ==> all[j] == if j < n then steps[j] else x;
    }
    if s == x { assert all[n] == s; }
  }

  /** The dict holds one step per id: the last one the playbook lists under it. */
  lemma {:induction false} PendingOfSpec(steps: seq<StepDef>)
    ensures DistinctIds(PendingOf(steps))
    ensures forall s :: s in PendingOf(steps) <==> LastWithItsId(steps, s)
  {
    if steps != [] {
      var init, x := steps[..|steps|-1], steps[|steps|-1];
      PendingOfSpec(init);
      PutSpec(PendingOf(init), x);
      assert steps == init + [x];
      forall s ensures s in PendingOf(steps) <==> LastWithItsId(steps, s) {
        LastAppend(init, x, s);
      }
    }
  }

  /** Every run, whatever its executor does, ends in a state that satisfies the invariant. */
  lemma RunInvariant(c: RunConfig, steps: seq<StepDef>, base: seq<Call>)
    ensures Inv(c, PendingOf(steps), base, Execute(c, steps, base).p)
    ensures Execute(c, steps, base).Going? ==> Stuck(Execute(c, steps, base).p)
  {
    PendingOfSpec(steps);
    var p := Start(steps, base);
    assert p.calls == base + CallLog(c, p.visited, p.entries);
    assert Done([]) == {};
    ScheduleKeeps(c, PendingOf(steps), base, p);
  }
}
