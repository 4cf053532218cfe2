/**
 The guarantees of a playbook run, for every playbook: call accounting and the approval gate
 under any executor, and the exact outcome of every run that is not cut short.
 */
module PlaybookTheorems {
  import opened Common
  import opened Playbook
  import opened PlaybookProofs

  // ---------- one step ----------

  /** A step fails exactly when every allowed attempt raises and the last message is not empty;
      otherwise it succeeds with the outputs of the first attempt that answers, if one does. */
  lemma {:induction false} RetryOutcome(ex: Executor, calls: seq<Call>, call: Call, attempts: nat, retries: int, error: string)
    ensures var r := Retry(ex, calls, call, attempts, retries, error);
      && (attempts > retries ==> r == Retried(calls, attempts, error, map[]))
      && (attempts <= retries ==>
            && (forall k :: 0 < k < r.attempts - attempts ==> ex(calls + Copies(call, k)).Exception?)
            && match ex(calls + Copies(call, r.attempts - attempts))
               case Outputs(o) => r.error == "" && r.outputs == o
               case Exception(m) => r.attempts == retries + 1 && r.error == m && r.outputs == map[])
    decreases retries - attempts
  {
    RetryCalls(ex, calls, call, attempts, retries, error);
    if attempts <= retries {
      var next := calls + [call];
      assert Copies(call, 1) == [call];
      if ex(next).Exception? {
        var m := ex(next).message;
        RetryOutcome(ex, next, call, attempts + 1, retries, m);
        RetryCalls(ex, next, call, attempts + 1, retries, m);
        var r := Retry(ex, next, call, attempts + 1, retries, m);
        forall k: nat ensures calls + Copies(call, k + 1) == next + Copies(call, k) {
          CopiesShift(call, k);
        }
        if attempts + 1 <= retries {
          forall k | 0 < k < r.attempts - attempts ensures ex(calls + Copies(call, k)).Exception? {
            assert calls + Copies(call, k - 1 + 1) == next + Copies(call, k - 1);
            if k == 1 { assert next + Copies(call, 0) == next; }
          }
          assert calls + Copies(call, r.attempts - attempts - 1 + 1) == next + Copies(call, r.attempts - attempts - 1);
        }
      }
    }
  }

  // ---------- any executor ----------

  function TotalAttempts(entries: seq<StepRun>): int {
    if entries == [] then 0
    else TotalAttempts(entries[..|entries|-1]) + entries[|entries|-1].attempts
  }

  lemma {:induction false} LogWithinBudget(c: RunConfig, visited: seq<StepDef>, entries: seq<StepRun>)
    requires |visited| == |entries|
    requires forall i :: 0 <= i < |entries| ==> 0 <= entries[i].attempts <= Allowance(visited[i])
    ensures |CallLog(c, visited, entries)| == TotalAttempts(entries) <= Budget(visited)
  {
    if entries != [] {
      var n := |entries| - 1;
      LogWithinBudget(c, visited[..n], entries[..n]);
      BudgetAppend(visited[..n], visited[n]);
      assert visited[..n] + [visited[n]] == visited;
    }
  }

  /** Whatever the executor does, the calls a run makes are exactly the recorded attempts,
      step by step in entry order, and no more than the sum of the retry allowances. */
  lemma CallsAreAccountedFor(c: RunConfig, steps: seq<StepDef>, base: seq<Call>)
    ensures var p := Execute(c, steps, base).p;
      && |p.visited| == |p.entries|
      && p.calls == base + CallLog(c, p.visited, p.entries)
      && |p.calls| == |base| + TotalAttempts(p.entries)
      && TotalAttempts(p.entries) <= Budget(PendingOf(steps))
  {
    RunInvariant(c, steps, base);
    var p := Execute(c, steps, base).p;
    assert forall i :: 0 <= i < |p.entries| ==> EntryOk(c, p.visited[i], p.entries[..i], p.entries[i]);
    LogWithinBudget(c, p.visited, p.entries);
  }

  /** Entries never repeat a step, and each step that was not held at a gate comes after a
      success entry for each of its dependencies. */
  lemma EntriesAreTopological(c: RunConfig, steps: seq<StepDef>, base: seq<Call>)
    ensures var p := Execute(c, steps, base).p;
      && |p.visited| == |p.entries|
      && (forall i, j :: 0 <= i < j < |p.entries| ==> p.entries[i].stepId != p.entries[j].stepId)
      && (forall i :: 0 <= i < |p.entries| ==>
            && p.visited[i] in PendingOf(steps)
            && p.entries[i].stepId == p.visited[i].id
            && forall d :: d in p.visited[i].dependsOn ==>
                 exists j :: 0 <= j < i && p.entries[j].stepId == d && p.entries[j].status == Success)
  {
    RunInvariant(c, steps, base);
    var p := Execute(c, steps, base).p;
    assert forall i :: 0 <= i < |p.entries| ==> EntryOk(c, p.visited[i], p.entries[..i], p.entries[i]);
    forall i, j | 0 <= i < j < |p.entries| ensures p.entries[i].stepId != p.entries[j].stepId {
      assert p.visited[i].id != p.visited[j].id;
    }
    forall i, d | 0 <= i < |p.entries| && d in p.visited[i].dependsOn
      ensures exists j :: 0 <= j < i && p.entries[j].stepId == d && p.entries[j].status == Success
    {
      var _ := DoneHasEntry(p.entries, i, d);
    }
  }

  lemma DoneHasEntry(entries: seq<StepRun>, i: nat, d: string) returns (j: nat)
    requires i <= |entries| && d in Done(entries[..i])
    ensures j < i && entries[j].stepId == d && entries[j].status == Success
  {
    var e :| e in entries[..i] && e.status == Success && e.stepId == d;
    j :| 0 <= j < i && entries[..i][j] == e;
  }

  ghost predicate DependsOn(all: seq<StepDef>, a: string, b: string) {
    exists s :: s in all && s.id == a && b in s.dependsOn
  }

  /** A dependency path: each id names a step that depends on the next id. */
  ghost predicate Path(all: seq<StepDef>, path: seq<string>) {
    && |path| > 0
    && forall i :: 0 <= i < |path| - 1 ==> DependsOn(all, path[i], path[i+1])
  }

  lemma {:induction false} ExecutedHasNoGateBelow(c: RunConfig, all: seq<StepDef>, base: seq<Call>, p: Progress, i: nat, path: seq<string>, g: StepDef)
    requires DistinctIds(all) && Inv(c, all, base, p)
    requires i < |p.entries| && p.entries[i].status != AwaitingApproval
    requires Path(all, path) && path[0] == p.visited[i].id
    requires g in all && g.id == path[|path|-1]
    ensures !Gated(c, g)
    decreases |path|
  {
    assert EntryOk(c, p.visited[i], p.entries[..i], p.entries[i]);
    assert p.visited[i] in all;
    if |path| == 1 {
      assert g == p.visited[i];
    } else {
      assert DependsOn(all, path[0], path[1]);
      var j := DoneHasEntry(p.entries, i, path[1]);
      assert EntryOk(c, p.visited[j], p.entries[..j], p.entries[j]);
      assert Path(all, path[1..]) by {
        forall k | 0 <= k < |path[1..]| - 1 ensures DependsOn(all, path[1..][k], path[1..][k+1]) {
          assert DependsOn(all, path[k+1], path[k+2]);
        }
      }
      ExecutedHasNoGateBelow(c, all, base, p, j, path[1..], g);
    }
  }

  lemma {:induction false} LoggedCallHasEntry(c: RunConfig, visited: seq<StepDef>, entries: seq<StepRun>, k: nat) returns (i: nat)
    requires |visited| == |entries| && k < |CallLog(c, visited, entries)|
    ensures i < |entries| && entries[i].attempts > 0 && CallLog(c, visited, entries)[k] == CallFor(c, visited[i])
  {
    var n := |entries| - 1;
    var before := CallLog(c, visited[..n], entries[..n]);
    if k < |before| {
      i := LoggedCallHasEntry(c, visited[..n], entries[..n], k);
    } else {
      i := n;
      assert CallLog(c, visited, entries)[k] in Copies(CallFor(c, visited[n]), entries[n].attempts);
    }
  }

  /** For any executor: no call is made for a step that waits at an unapproved gate, nor for
      any step with a dependency path leading to one. */
  lemma NoCallBehindAGate(c: RunConfig, steps: seq<StepDef>, base: seq<Call>, path: seq<string>, g: StepDef)
    requires Path(PendingOf(steps), path)
    requires g in PendingOf(steps) && g.id == path[|path|-1] && Gated(c, g)
    ensures var calls := Execute(c, steps, base).p.calls;
      forall k :: |base| <= k < |calls| ==> calls[k].stepId != path[0]
  {
    RunInvariant(c, steps, base);
    PendingOfSpec(steps);
    var p := Execute(c, steps, base).p;
    forall k | |base| <= k < |p.calls| ensures p.calls[k].stepId != path[0] {
      var i := LoggedCallHasEntry(c, p.visited, p.entries, k - |base|);
      assert EntryOk(c, p.visited[i], p.entries[..i], p.entries[i]);
      if p.calls[k].stepId == path[0] {
        ExecutedHasNoGateBelow(c, PendingOf(steps), base, p, i, path, g);
      }
    }
  }

  // ---------- how a run ends ----------

  ghost predicate NoFailure(entries: seq<StepRun>) {
    forall e :: e in entries ==> e.status != Failed
  }

  ghost predicate FailsLast(entries: seq<StepRun>) {
    entries != [] && entries[|entries|-1].status == Failed && NoFailure(entries[..|entries|-1])
  }

  ghost predicate EndsProperly(f: Flow) {
    if f.Halted? then FailsLast(f.p.entries) else NoFailure(f.p.entries)
  }

  lemma VisitEnds(c: RunConfig, s: StepDef, p: Progress)
    requires NoFailure(p.entries)
    ensures EndsProperly(Visit(c, s, p))
    ensures NonFailing(c.executor) ==> !Visit(c, s, p).Halted?
    ensures Visit(c, s, p).Broken? ==> !ValidTier(s.tier)
  {
    var f := Visit(c, s, p);
    if f.Halted? {
      assert f.p.entries[..|f.p.entries|-1] == p.entries;
      if NonFailing(c.executor) {
        RetryOutcome(c.executor, p.calls, CallFor(c, s), 0, s.retries, "");
      }
    }
  }

  lemma {:induction false} SweepEnds(c: RunConfig, todo: seq<StepDef>, p: Progress)
    requires NoFailure(p.entries)
    ensures EndsProperly(Sweep(c, todo, p))
    ensures NonFailing(c.executor) ==> !Sweep(c, todo, p).Halted?
    ensures Sweep(c, todo, p).Broken? ==> exists s :: s in todo && !ValidTier(s.tier)
  {
    if todo != [] {
      VisitEnds(c, todo[0], p);
      if Visit(c, todo[0], p).Going? { SweepEnds(c, todo[1..], Visit(c, todo[0], p).p); }
    }
  }

  lemma {:induction false} ScheduleEnds(c: RunConfig, all: seq<StepDef>, base: seq<Call>, p: Progress)
    requires NoFailure(p.entries) && Inv(c, all, base, p)
    ensures EndsProperly(Schedule(c, p))
    ensures NonFailing(c.executor) ==> !Schedule(c, p).Halted?
    ensures Schedule(c, p).Broken? ==> exists s :: s in all && !ValidTier(s.tier)
    decreases |p.pending|
  {
    if p.pending != [] {
      SweepEnds(c, p.pending, p);
      SweepKeeps(c, all, base, p.pending, p);
      var f := Sweep(c, p.pending, p);
      if f.Going? && |f.p.pending| < |p.pending| { ScheduleEnds(c, all, base, f.p); }
    }
  }

  ghost predicate NonFailing(ex: Executor) {
    forall h :: ex(h).Outputs?
  }

  ghost predicate ValidTiers(steps: seq<StepDef>) {
    forall s :: s in steps ==> ValidTier(s.tier)
  }

  /** A run stops at its first failed step: the failed entry is the last one recorded, and there
      is none unless the run halted.  The exception for a bad tier needs a step with a bad tier. */
  lemma RunEnds(c: RunConfig, steps: seq<StepDef>, base: seq<Call>)
    ensures EndsProperly(Execute(c, steps, base))
    ensures NonFailing(c.executor) ==> !Execute(c, steps, base).Halted?
    ensures Execute(c, steps, base).Broken? ==> !ValidTiers(PendingOf(steps))
  {
    PendingOfSpec(steps);
    assert Inv(c, PendingOf(steps), base, Start(steps, base)) by {
      assert base + CallLog(c, [], []) == base;
      assert Done([]) == {};
    }
    ScheduleEnds(c, PendingOf(steps), base, Start(steps, base));
  }

  /** The run is not cut short: no step fails for good, and no tier names nothing. */
  ghost predicate RunsThrough(c: RunConfig, steps: seq<StepDef>, base: seq<Call>) {
    Execute(c, steps, base).Going?
  }

  /** An executor that never raises and valid tiers are enough; one that raises and recovers within the
      retries will do as well, since a run is cut short only by a failed entry. */
  lemma NonFailingRunsThrough(c: RunConfig, steps: seq<StepDef>, base: seq<Call>)
    requires ValidTiers(PendingOf(steps))
    ensures NonFailing(c.executor) ==> RunsThrough(c, steps, base)
    ensures RunsThrough(c, steps, base) <==> NoFailure(Execute(c, steps, base).p.entries)
  {
    RunEnds(c, steps, base);
    var entries := Execute(c, steps, base).p.entries;
    if Execute(c, steps, base).Halted? { assert entries[|entries|-1] in entries; }
  }

  // ---------- the outcome as a least fixpoint ----------

  /** Closed under: an ungated step all of whose dependencies are in the set is in the set. */
  ghost predicate Closed(c: RunConfig, all: seq<StepDef>, done: set<string>) {
    forall s :: s in all && !Gated(c, s) && Ready(s, done) ==> s.id in done
  }

  lemma {:induction false} DoneWithinClosed(c: RunConfig, all: seq<StepDef>, base: seq<Call>, p: Progress, i: nat, done: set<string>)
    requires Inv(c, all, base, p) && Closed(c, all, done) && i <= |p.entries|
    ensures Done(p.entries[..i]) <= done
  {
    if i > 0 {
      DoneWithinClosed(c, all, base, p, i - 1, done);
      assert p.entries[..i] == p.entries[..i-1] + [p.entries[i-1]];
      DoneAppend(p.entries[..i-1], p.entries[i-1]);
      assert EntryOk(c, p.visited[i-1], p.entries[..i-1], p.entries[i-1]);
      assert p.visited[i-1] in all;
    }
  }

  /** Under any executor, only steps in every closed set can succeed. */
  lemma SucceededIsSound(c: RunConfig, steps: seq<StepDef>, base: seq<Call>, done: set<string>)
    requires Closed(c, PendingOf(steps), done)
    ensures Execute(c, steps, base).p.completed <= done
  {
    RunInvariant(c, steps, base);
    var p := Execute(c, steps, base).p;
    DoneWithinClosed(c, PendingOf(steps), base, p, |p.entries|, done);
    assert p.entries[..|p.entries|] == p.entries;
  }

  lemma {:induction false} AwaitingMember(entries: seq<StepRun>, id: string)
    ensures id in AwaitingIds(entries) <==> exists e :: e in entries && e.status == AwaitingApproval && e.stepId == id
  {
    if entries != [] {
      var init, e := entries[..|entries|-1], entries[|entries|-1];
      AwaitingMember(init, id);
      assert entries == init + [e];
    }
  }

  lemma HeldIsGated(c: RunConfig, all: seq<StepDef>, base: seq<Call>, p: Progress, id: string) returns (s: StepDef)
    requires Inv(c, all, base, p) && id in p.approvals
    ensures s in all && s.id == id && Gated(c, s)
  {
    AwaitingMember(p.entries, id);
    var i :| 0 <= i < |p.entries| && p.entries[i].status == AwaitingApproval && p.entries[i].stepId == id;
    assert EntryOk(c, p.visited[i], p.entries[..i], p.entries[i]);
    s := p.visited[i];
  }

  /** What the entry of a visited step says about it, in a run that went to its end. */
  lemma VisitedOutcome(c: RunConfig, all: seq<StepDef>, p: Progress, s: StepDef)
    requires EntriesOk(c, p) && Split(all, p) && NoFailure(p.entries) && s in p.visited
    requires p.completed == Done(p.entries) && p.approvals == AwaitingIds(p.entries)
    ensures Ready(s, p.completed)
    ensures if Gated(c, s) then s.id in p.approvals && s.id !in p.completed
            else s.id in p.completed && s.id !in p.approvals
  {
    var i :| 0 <= i < |p.visited| && p.visited[i] == s;
    assert EntryOk(c, s, p.entries[..i], p.entries[i]);
    assert Done(p.entries[..i]) <= Done(p.entries);
    assert p.entries[i] in p.entries && p.entries[i].stepId == s.id;
    AwaitingMember(p.entries, s.id);
    EntryIsUnique(c, all, p, i);
  }

  lemma EntryIsUnique(c: RunConfig, all: seq<StepDef>, p: Progress, i: nat)
    requires EntriesOk(c, p) && Split(all, p) && i < |p.entries|
    ensures forall j :: 0 <= j < |p.entries| && p.entries[j].stepId == p.entries[i].stepId ==> j == i
  {
    assert EntryOk(c, p.visited[i], p.entries[..i], p.entries[i]);
    forall j | 0 <= j < |p.entries| && p.entries[j].stepId == p.entries[i].stepId ensures j == i {
      assert EntryOk(c, p.visited[j], p.entries[..j], p.entries[j]);
    }
  }

  lemma PendingOutcome(c: RunConfig, all: seq<StepDef>, base: seq<Call>, p: Progress, s: StepDef)
    requires DistinctIds(all) && Inv(c, all, base, p) && s in p.pending
    ensures s.id !in p.completed && s.id !in p.approvals
  {
    AwaitingMember(p.entries, s.id);
    forall j | 0 <= j < |p.entries| ensures p.entries[j].stepId != s.id {
      assert EntryOk(c, p.visited[j], p.entries[..j], p.entries[j]);
    }
  }

  /** In a run that is not cut short, the steps that succeed are the least closed set, and
      the steps held for approval are exactly the gated ones whose dependencies all succeeded. */
  lemma SucceededIsLeastFixpoint(c: RunConfig, steps: seq<StepDef>, base: seq<Call>)
    requires RunsThrough(c, steps, base)
    ensures var f := Execute(c, steps, base);
      && f.Going?
      && Closed(c, PendingOf(steps), f.p.completed)
      && (forall done :: Closed(c, PendingOf(steps), done) ==> f.p.completed <= done)
      && (forall s :: s in PendingOf(steps) ==>
            (s.id in f.p.approvals <==> Gated(c, s) && Ready(s, f.p.completed)))
  {
    var all, f := PendingOf(steps), Execute(c, steps, base);
    RunInvariant(c, steps, base);
    RunEnds(c, steps, base);
    PendingOfSpec(steps);
    forall s | s in all
      ensures !Gated(c, s) && Ready(s, f.p.completed) ==> s.id in f.p.completed
      ensures s.id in f.p.approvals <==> Gated(c, s) && Ready(s, f.p.completed)
    {
      if s in f.p.visited { VisitedOutcome(c, all, f.p, s); }
      else { PendingOutcome(c, all, base, f.p, s); }
    }
    forall done | Closed(c, all, done) ensures f.p.completed <= done {
      SucceededIsSound(c, steps, base, done);
    }
  }

  // ---------- completion ----------

  /** Every dependency names a step of the playbook. */
  ghost predicate DependenciesExist(all: seq<StepDef>) {
    forall s, d :: s in all && d in s.dependsOn ==> exists t :: t in all && t.id == d
  }

  ghost predicate Cyclic(all: seq<StepDef>) {
    exists path :: |path| > 1 && Path(all, path) && path[0] == path[|path|-1]
  }

  /** In a run that visited everything, ids further down a dependency path come strictly earlier. */
  lemma {:induction false} PathDescends(c: RunConfig, all: seq<StepDef>, base: seq<Call>, p: Progress, path: seq<string>, i: nat) returns (j: nat)
    requires DistinctIds(all) && Inv(c, all, base, p)
    requires Path(all, path) && i < |p.visited| && p.visited[i].id == path[0]
    ensures j < |p.visited| && p.visited[j].id == path[|path|-1]
    ensures j <= i && (|path| > 1 ==> j < i)
    decreases |path|
  {
    j := i;
    if |path| > 1 {
      assert EntryOk(c, p.visited[i], p.entries[..i], p.entries[i]);
      assert DependsOn(all, path[0], path[1]);
      assert p.visited[i] in all;
      var k := DoneHasEntry(p.entries, i, path[1]);
      assert EntryOk(c, p.visited[k], p.entries[..k], p.entries[k]);
      assert Path(all, path[1..]) by {
        forall n | 0 <= n < |path[1..]| - 1 ensures DependsOn(all, path[1..][n], path[1..][n+1]) {
          assert DependsOn(all, path[n+1], path[n+2]);
        }
      }
      j := PathDescends(c, all, base, p, path[1..], k);
    }
  }

  function Ids(steps: seq<StepDef>): set<string> {
    set s | s in steps :: s.id
  }

  /** Every blocked step has a dependency that is itself the id of a blocked step. */
  ghost predicate BlockEachOther(blocked: seq<StepDef>) {
    forall s {:trigger LeansOn(s, blocked)} :: s in blocked ==> LeansOn(s, blocked)
  }

  ghost predicate LeansOn(s: StepDef, blocked: seq<StepDef>) {
    exists d :: d in s.dependsOn && d in Ids(blocked)
  }

  lemma NextBlocked(all: seq<StepDef>, blocked: seq<StepDef>, x: string) returns (d: string)
    requires BlockEachOther(blocked) && x in Ids(blocked)
    requires forall s :: s in blocked ==> s in all
    ensures DependsOn(all, x, d) && d in Ids(blocked)
  {
    var s :| s in blocked && s.id == x;
    assert LeansOn(s, blocked);
    d :| d in s.dependsOn && d in Ids(blocked);
  }

  lemma PathAppend(all: seq<StepDef>, front: seq<string>, d: string)
    requires Path(all, front) && DependsOn(all, front[|front|-1], d)
    ensures Path(all, front + [d])
  {
    var path := front + [d];
    forall i | 0 <= i < |path| - 1 ensures DependsOn(all, path[i], path[i+1]) {
      if i < |front| - 1 { assert DependsOn(all, front[i], front[i+1]); }
    }
  }

  /** From any blocked step one can walk down dependencies through blocked steps for ever. */
  lemma {:induction false} BlockedWalk(all: seq<StepDef>, blocked: seq<StepDef>, n: nat) returns (path: seq<string>)
    requires blocked != [] && BlockEachOther(blocked)
    requires forall s :: s in blocked ==> s in all
    ensures |path| == n + 1 && Path(all, path) && forall x :: x in path ==> x in Ids(blocked)
  {
    if n == 0 {
      path := [blocked[0].id];
    } else {
      var front := BlockedWalk(all, blocked, n - 1);
      var d := NextBlocked(all, blocked, front[n-1]);
      PathAppend(all, front, d);
      path := front + [d];
    }
  }

  lemma {:induction false} Pigeonhole(xs: seq<string>, holes: set<string>) returns (i: nat, j: nat)
    requires |xs| > |holes| && forall x :: x in xs ==> x in holes
    ensures i < j < |xs| && xs[i] == xs[j]
    decreases |xs|
  {
    var n := |xs| - 1;
    if k :| 0 <= k < n && xs[k] == xs[n] {
      i, j := k, n;
    } else {
      forall x | x in xs[..n] ensures x in holes - {xs[n]} {}
      i, j := Pigeonhole(xs[..n], holes - {xs[n]});
    }
  }

  lemma Subpath(all: seq<StepDef>, path: seq<string>, i: nat, j: nat)
    requires Path(all, path) && i < j <= |path|
    ensures Path(all, path[i..j])
  {
    forall n | 0 <= n < j - i - 1 ensures DependsOn(all, path[i..j][n], path[i..j][n+1]) {
      assert DependsOn(all, path[i+n], path[i+n+1]);
    }
  }

  lemma BlockedMeansCyclic(all: seq<StepDef>, blocked: seq<StepDef>)
    requires blocked != [] && BlockEachOther(blocked)
    requires forall s :: s in blocked ==> s in all
    ensures Cyclic(all)
  {
    var path := BlockedWalk(all, blocked, |Ids(blocked)|);
    var i, j := Pigeonhole(path, Ids(blocked));
    Subpath(all, path, i, j + 1);
    var loop := path[i..j+1];
    assert loop[0] == loop[|loop|-1];
  }

  lemma VisitedDependencies(c: RunConfig, all: seq<StepDef>, base: seq<Call>, p: Progress, s: StepDef, d: string) returns (t: StepDef)
    requires Inv(c, all, base, p) && s in p.visited && d in s.dependsOn
    ensures t in all && t.id == d
  {
    var i :| 0 <= i < |p.visited| && p.visited[i] == s;
    assert EntryOk(c, s, p.entries[..i], p.entries[i]);
    var j := DoneHasEntry(p.entries, i, d);
    assert EntryOk(c, p.visited[j], p.entries[..j], p.entries[j]);
    t := p.visited[j];
  }

  lemma CompletedMeansOrdered(c: RunConfig, all: seq<StepDef>, base: seq<Call>, p: Progress)
    requires DistinctIds(all) && Inv(c, all, base, p) && p.pending == []
    ensures DependenciesExist(all) && !Cyclic(all)
  {
    forall s, d | s in all && d in s.dependsOn ensures exists t :: t in all && t.id == d {
      var t := VisitedDependencies(c, all, base, p, s, d);
    }
    forall path | |path| > 1 && Path(all, path) ensures path[0] != path[|path|-1] {
      assert DependsOn(all, path[0], path[1]);
      var s :| s in all && s.id == path[0];
      var i :| 0 <= i < |p.visited| && p.visited[i] == s;
      var j := PathDescends(c, all, base, p, path, i);
    }
  }

  lemma BlockedStepsBlockEachOther(c: RunConfig, all: seq<StepDef>, base: seq<Call>, p: Progress)
    requires DistinctIds(all) && Inv(c, all, base, p) && NoFailure(p.entries) && Stuck(p)
    requires DependenciesExist(all) && p.approvals == []
    ensures BlockEachOther(p.pending)
  {
    forall s | s in p.pending ensures LeansOn(s, p.pending) {
      var d :| d in s.dependsOn && d !in p.completed;
      var t :| t in all && t.id == d;
      if t in p.visited { VisitedOutcome(c, all, p, t); }
      assert t in p.pending;
    }
  }

  /** No step is held at a gate, every dependency names a step, and there is no cycle. */
  ghost predicate Completable(c: RunConfig, all: seq<StepDef>) {
    (forall s :: s in all ==> !Gated(c, s)) && DependenciesExist(all) && !Cyclic(all)
  }

  /** A run that is not cut short completes if and only if no step is held at a
      gate, every dependency names a step, and the dependency relation has no cycle. */
  lemma CompletedIff(c: RunConfig, steps: seq<StepDef>, base: seq<Call>)
    requires RunsThrough(c, steps, base)
    ensures var all, r := PendingOf(steps), Conclude(Execute(c, steps, base));
      && r.Finished?
      && (r.status == Completed <==> Completable(c, all))
  {
    var all, f := PendingOf(steps), Execute(c, steps, base);
    RunInvariant(c, steps, base);
    RunEnds(c, steps, base);
    PendingOfSpec(steps);
    if Conclude(f).status == Completed {
      CompletedMeansOrdered(c, all, base, f.p);
      forall s | s in all ensures !Gated(c, s) { VisitedOutcome(c, all, f.p, s); }
    } else if (forall s :: s in all ==> !Gated(c, s)) && DependenciesExist(all) {
      if f.p.approvals != [] {
        var s := HeldIsGated(c, all, base, f.p, f.p.approvals[0]);
        assert false;
      }
      BlockedStepsBlockEachOther(c, all, base, f.p);
      BlockedMeansCyclic(all, f.p.pending);
    }
  }

  /** When nothing is gated and the run does not complete, it ends with exactly one extra entry, the
      `dag` failure, after entries none of which is a failure. */
  lemma IncompleteRunsAreDagFailures(c: RunConfig, steps: seq<StepDef>, base: seq<Call>)
    requires RunsThrough(c, steps, base)
    requires forall s :: s in PendingOf(steps) ==> !Gated(c, s)
    ensures var r := Conclude(Execute(c, steps, base));
      && r.Finished?
      && (r.status == Completed || (r.status == RunFailed && r.entries != [] && r.entries[|r.entries|-1] == DAG_ENTRY))
      && NoFailure(if r.status == Completed then r.entries else r.entries[..|r.entries|-1])
  {
    var f := Execute(c, steps, base);
    RunEnds(c, steps, base);
    RunInvariant(c, steps, base);
    SucceededIsLeastFixpoint(c, steps, base);
    if f.p.approvals != [] {
      var s := HeldIsGated(c, PendingOf(steps), base, f.p, f.p.approvals[0]);
      assert false;
    }
    var r := Conclude(f);
    if r.status != Completed { assert r.entries[..|r.entries|-1] == f.p.entries; }
  }

  /** The outcome does not depend on the order in which a playbook lists its steps, nor on the
      executor's answers: the same steps succeed, the same are held, the status is the same. */
  lemma OrderDoesNotMatter(c: RunConfig, c': RunConfig, steps: seq<StepDef>, steps': seq<StepDef>, base: seq<Call>, base': seq<Call>)
    requires c'.dryRun == c.dryRun && c'.approved == c.approved
    requires RunsThrough(c, steps, base) && RunsThrough(c', steps', base')
    requires forall s :: s in PendingOf(steps) <==> s in PendingOf(steps')
    ensures var f, f' := Execute(c, steps, base), Execute(c', steps', base');
      && f.Going? && f'.Going?
      && f.p.completed == f'.p.completed
      && (forall id :: id in f.p.approvals <==> id in f'.p.approvals)
      && Conclude(f).status == Conclude(f').status
  {
    SuccessesWithin(c, c', steps, steps', base, base');
    SuccessesWithin(c', c, steps', steps, base', base);
    SameApprovals(c, c', steps, steps', base, base');
    SameApprovals(c', c, steps', steps, base', base);
    SameStatus(c, c', steps, steps', base, base');
  }

  lemma SuccessesWithin(c: RunConfig, c': RunConfig, steps: seq<StepDef>, steps': seq<StepDef>, base: seq<Call>, base': seq<Call>)
    requires c'.dryRun == c.dryRun && c'.approved == c.approved
    requires RunsThrough(c, steps, base) && RunsThrough(c', steps', base')
    requires forall s :: s in PendingOf(steps) <==> s in PendingOf(steps')
    ensures Execute(c, steps, base).Going? && Execute(c, steps, base).p.completed <= Execute(c', steps', base').p.completed
  {
    SucceededIsLeastFixpoint(c, steps, base);
    SucceededIsLeastFixpoint(c', steps', base');
    var done := Execute(c', steps', base').p.completed;
    assert forall s :: Gated(c, s) == Gated(c', s);
    assert Closed(c, PendingOf(steps), done);
  }

  lemma SameStatus(c: RunConfig, c': RunConfig, steps: seq<StepDef>, steps': seq<StepDef>, base: seq<Call>, base': seq<Call>)
    requires c'.dryRun == c.dryRun && c'.approved == c.approved
    requires RunsThrough(c, steps, base) && RunsThrough(c', steps', base')
    requires forall s :: s in PendingOf(steps) <==> s in PendingOf(steps')
    requires forall id :: id in Execute(c, steps, base).p.approvals <==> id in Execute(c', steps', base').p.approvals
    ensures Conclude(Execute(c, steps, base)).status == Conclude(Execute(c', steps', base')).status
  {
    CompletedIff(c, steps, base);
    CompletedIff(c', steps', base');
    SameCompletion(c, c', PendingOf(steps), PendingOf(steps'));
    var held, held' := Execute(c, steps, base).p.approvals, Execute(c', steps', base').p.approvals;
    if held != [] { assert held[0] in held'; }
    if held' != [] { assert held'[0] in held; }
  }

  lemma SameApprovals(c: RunConfig, c': RunConfig, steps: seq<StepDef>, steps': seq<StepDef>, base: seq<Call>, base': seq<Call>)
    requires c'.dryRun == c.dryRun && c'.approved == c.approved
    requires RunsThrough(c, steps, base) && RunsThrough(c', steps', base')
    requires forall s :: s in PendingOf(steps) <==> s in PendingOf(steps')
    requires Execute(c, steps, base).p.completed == Execute(c', steps', base').p.completed
    ensures forall id :: id in Execute(c, steps, base).p.approvals ==> id in Execute(c', steps', base').p.approvals
  {
    var f, f' := Execute(c, steps, base), Execute(c', steps', base');
    SucceededIsLeastFixpoint(c, steps, base);
    SucceededIsLeastFixpoint(c', steps', base');
    RunInvariant(c, steps, base);
    forall id | id in f.p.approvals ensures id in f'.p.approvals {
      var s := HeldIsGated(c, PendingOf(steps), base, f.p, id);
      assert s in PendingOf(steps') && Gated(c', s);
    }
  }

  lemma SameCompletion(c: RunConfig, c': RunConfig, all: seq<StepDef>, all': seq<StepDef>)
    requires c'.dryRun == c.dryRun && c'.approved == c.approved
    requires forall s :: s in all <==> s in all'
    ensures Completable(c, all) <==> Completable(c', all')
  {
    assert forall s :: Gated(c, s) == Gated(c', s);
    if DependenciesExist(all) { SameDependencies(all, all'); }
    if DependenciesExist(all') { SameDependencies(all', all); }
    if Cyclic(all) { SameCycles(all, all'); }
    if Cyclic(all') { SameCycles(all', all); }
  }

  lemma SameDependencies(all: seq<StepDef>, all': seq<StepDef>)
    requires DependenciesExist(all) && forall s :: s in all <==> s in all'
    ensures DependenciesExist(all')
  {
    forall s, d | s in all' && d in s.dependsOn ensures exists t :: t in all' && t.id == d {
      var t :| t in all && t.id == d;
      assert t in all';
    }
  }

  lemma SameCycles(all: seq<StepDef>, all': seq<StepDef>)
    requires Cyclic(all) && forall s :: s in all <==> s in all'
    ensures Cyclic(all')
  {
    assert forall a, b :: DependsOn(all, a, b) <==> DependsOn(all', a, b);
    assert forall path :: Path(all, path) <==> Path(all', path);
  }
}
