/**
 The engine object: stored runs, the idempotency index, and the loops of `run` and `approve`,
 proved equal to the functions of Playbook.dfy, with what holds over any interleaving of calls.
 */
module PlaybookEngines {
  import opened Common
  import opened Playbook
  import opened PlaybookProofs
  import opened PlaybookTheorems

  datatype PlaybookRun = PlaybookRun(
    runId: nat, playbookId: string, tenantId: string, status: RunStatus, dryRun: bool,
    idempotencyKey: string, steps: seq<StepRun>, approvalRequired: seq<string>)

  /** `nextRun` stands for the generator of fresh run ids, `calls` for all the executor was asked. */
  datatype EngineState = EngineState(
    runs: map<nat, PlaybookRun>, byKey: map<string, nat>, nextRun: nat, calls: seq<Call>)

  datatype Outcome = Returned(run: PlaybookRun) | RaisedTier | RaisedKey

  /** Every idempotency key leads to a stored run that carries that key. */
  ghost predicate Coherent(e: EngineState) {
    && (forall k :: k in e.byKey ==> e.byKey[k] in e.runs && e.runs[e.byKey[k]].idempotencyKey == k)
    && (forall id :: id in e.runs ==> id < e.nextRun && e.runs[id].runId == id)
  }

  function DefaultKey(playbookId: string, tenantId: string): string { playbookId + ":" + tenantId + ":auto" }

  function KeyOf(pb: PlaybookDef, tenantId: string, key: Option<string>): string {
    if key.Some? && key.value != "" then key.value else DefaultKey(pb.playbookId, tenantId)
  }

  function MakeRun(id: nat, pb: PlaybookDef, tenantId: string, dryRun: bool, key: string, r: Result): PlaybookRun
    requires r.Finished?
  {
    PlaybookRun(id, pb.playbookId, tenantId, r.status, dryRun, key, r.entries, r.approvals)
  }

  function RunOp(e: EngineState, ex: Executor, pb: PlaybookDef, tenantId: string, dryRun: bool,
                 key: Option<string>, approved: set<string>): (EngineState, Outcome)
    requires Coherent(e)
  {
    var k := KeyOf(pb, tenantId, key);
    if k in e.byKey then (e, Returned(e.runs[e.byKey[k]]))
    else
      var f := Execute(RunConfig(ex, dryRun, approved), pb.steps, e.calls);
      var r := Conclude(f);
      var id := e.nextRun;
      if r.InvalidTier? then (e.(nextRun := id + 1, calls := f.p.calls), RaisedTier)
      else
        var run := MakeRun(id, pb, tenantId, dryRun, k, r);
        (EngineState(e.runs[id := run], e.byKey[k := id], id + 1, f.p.calls), Returned(run))
  }

  // ---------- approval keys ----------

  predicate StringLeq(a: string, b: string) {
    a == [] || (b != [] && (a[0] < b[0] || (a[0] == b[0] && StringLeq(a[1..], b[1..]))))
  }

  function Insert(x: string, sorted: seq<string>): seq<string> {
    if sorted == [] || StringLeq(x, sorted[0]) then [x] + sorted else [sorted[0]] + Insert(x, sorted[1..])
  }

  function Sorted(xs: seq<string>): seq<string> {
    if xs == [] then [] else Insert(xs[0], Sorted(xs[1..]))
  }

  function Join(xs: seq<string>): string {
    if xs == [] then "" else if |xs| == 1 then xs[0] else xs[0] + "," + Join(xs[1..])
  }

  function ApprovalKey(key: string, stepIds: seq<string>): (k: string)
    ensures |k| > |key|
  {
    key + ":approved:" + Join(Sorted(stepIds))
  }

  function ApprovedSet(prior: PlaybookRun, stepIds: seq<string>): set<string> {
    (set s | s in stepIds) + set s | s in prior.approvalRequired
  }

  function ApproveOp(e: EngineState, ex: Executor, runId: nat, stepIds: seq<string>, pb: PlaybookDef): (EngineState, Outcome)
    requires Coherent(e)
  {
    if runId !in e.runs then (e, RaisedKey)
    else
      var prior := e.runs[runId];
      RunOp(e.(byKey := e.byKey - {prior.idempotencyKey}), ex, pb, prior.tenantId, prior.dryRun,
            Some(ApprovalKey(prior.idempotencyKey, stepIds)), ApprovedSet(prior, stepIds))
  }

  // ---------- the engine class ----------

  lemma SweepUnfold(c: RunConfig, todo: seq<StepDef>, i: nat, p: Progress)
    requires i < |todo|
    ensures var f := Visit(c, todo[i], p);
      Sweep(c, todo[i..], p) == if f.Going? then Sweep(c, todo[i+1..], f.p) else f
  {
    assert todo[i..][0] == todo[i] && todo[i..][1..] == todo[i+1..];
  }

  /** The part of a snapshot not looked at yet is still pending. */
  ghost predicate Ahead(snapshot: seq<StepDef>, i: nat, pending: seq<StepDef>)
    requires i <= |snapshot|
  {
    && DistinctIds(snapshot) && DistinctIds(pending)
    && forall k :: i <= k < |snapshot| ==> snapshot[k] in pending
  }

  lemma TakeAhead(snapshot: seq<StepDef>, i: nat, pending: seq<StepDef>)
    requires i < |snapshot| && Ahead(snapshot, i, pending)
    ensures Ahead(snapshot, i + 1, pending)
    ensures Ahead(snapshot, i + 1, Without(pending, snapshot[i].id))
    ensures |Without(pending, snapshot[i].id)| < |pending|
  {
    WithoutSpec(pending, snapshot[i]);
  }

  class PlaybookEngine {
    const executor: Executor
    var runs: map<nat, PlaybookRun>
    var byIdempotency: map<string, nat>
    var nextRun: nat
    var calls: seq<Call>

    ghost function Model(): EngineState
      reads this
    {
      EngineState(runs, byIdempotency, nextRun, calls)
    }

    ghost predicate Valid()
      reads this
    {
      Coherent(Model())
    }

    constructor (executor: Executor)
      ensures Valid() && this.executor == executor
      ensures Model() == EngineState(map[], map[], 0, [])
    {
      this.executor := executor;
      runs, byIdempotency, nextRun, calls := map[], map[], 0, [];
    }

    method Get(runId: nat) returns (run: Option<PlaybookRun>)
      ensures run == if runId in runs then Some(runs[runId]) else None
    {
      run := if runId in runs then Some(runs[runId]) else None;
    }

    method Store(run: PlaybookRun)
      modifies this`runs, this`byIdempotency
      ensures runs == old(runs)[run.runId := run]
      ensures byIdempotency == old(byIdempotency)[run.idempotencyKey := run.runId]
    {
      runs := runs[run.runId := run];
      byIdempotency := byIdempotency[run.idempotencyKey := run.runId];
    }

    /** Run one step: the bounded retry loop around the executor call, and the entry for it. */
    method ExecuteStep(step: StepDef, dryRun: bool) returns (entry: StepRun)
      modifies this`calls
      ensures var r := Retry(executor, old(calls), Call(step.id, step.actionType, step.params, dryRun), 0, step.retries, "");
        calls == r.calls && entry == ExecutedEntry(step, r)
    {
      var call := Call(step.id, step.actionType, step.params, dryRun);
      var attempts, lastError := 0, "";
      var outputs: Params := map[];
      while attempts <= step.retries
        invariant outputs == map[]
        invariant Retry(executor, calls, call, attempts, step.retries, lastError) == Retry(executor, old(calls), call, 0, step.retries, "")
      {
        attempts := attempts + 1;
        calls := calls + [call];
        match executor(calls) {
          case Outputs(o) =>
            outputs, lastError := o, "";
            break;
          case Exception(message) =>
            lastError := message;
        }
      }
      if lastError != "" {
        entry := StepRun(step.id, step.actionType, Failed, attempts, map[], lastError, step.rollback);
      } else {
        entry := StepRun(step.id, step.actionType, Success, attempts, outputs, "", step.rollback);
      }
    }

    /** One pass of the scheduling loop over a snapshot of the pending steps. */
    method Pass(p: Progress, dryRun: bool, approvedSteps: set<string>) returns (f: Flow, progress: bool)
      requires DistinctIds(p.pending) && p.calls == calls
      modifies this`calls
      ensures f == Sweep(RunConfig(executor, dryRun, approvedSteps), p.pending, p)
      ensures calls == f.p.calls && DistinctIds(f.p.pending)
      ensures |f.p.pending| <= |p.pending| && (f.Going? ==> (progress <==> |f.p.pending| < |p.pending|))
    {
      progress := false;
      ghost var c := RunConfig(executor, dryRun, approvedSteps);
      var pending, visited, completed, entries, approvals := p.pending, p.visited, p.completed, p.entries, p.approvals;
      var snapshot := pending;
      var i := 0;
      while i < |snapshot|
        invariant 0 <= i <= |snapshot| && Ahead(snapshot, i, pending)
        invariant |pending| <= |snapshot| && (progress <==> |pending| < |snapshot|)
        invariant Sweep(c, snapshot[i..], Progress(pending, visited, completed, entries, approvals, calls)) == Sweep(c, snapshot, p)
      {
        var step := snapshot[i];
        SweepUnfold(c, snapshot, i, Progress(pending, visited, completed, entries, approvals, calls));
        TakeAhead(snapshot, i, pending);
        i := i + 1;
        if exists d :: d in step.dependsOn && d !in completed {
          continue;
        }
        if !ValidTier(step.tier) {
          return Broken(Progress(pending, visited, completed, entries, approvals, calls)), progress;
        }
        progress := true;
        pending := Without(pending, step.id);
        visited := visited + [step];
        var decision := EvaluateAction(step.actionType, step.tier);
        if decision == RequireApproval && !dryRun && step.id !in approvedSteps {
          entries := entries + [AwaitingEntry(step)];
          approvals := approvals + [step.id];
          continue;
        }
        var entry := ExecuteStep(step, dryRun);
        entries := entries + [entry];
        if entry.status == Failed {
          return Halted(Progress(pending, visited, completed, entries, approvals, calls)), progress;
        }
        completed := completed + {step.id};
      }
      f := Going(Progress(pending, visited, completed, entries, approvals, calls));
    }

    /** The scheduling loop: passes until nothing is pending or a pass makes no progress. */
    method Drive(steps: seq<StepDef>, dryRun: bool, approvedSteps: set<string>) returns (f: Flow)
      modifies this`calls
      ensures f == Execute(RunConfig(executor, dryRun, approvedSteps), steps, old(calls))
      ensures calls == f.p.calls
    {
      ghost var c := RunConfig(executor, dryRun, approvedSteps);
      var p := Start(steps, calls);
      PendingOfSpec(steps);
      while p.pending != []
        invariant p.calls == calls && DistinctIds(p.pending)
        invariant Schedule(c, p) == Execute(c, steps, old(calls))
        decreases |p.pending|
      {
        var progress;
        f, progress := Pass(p, dryRun, approvedSteps);
        if !f.Going? || !progress {
          return;
        }
        p := f.p;
      }
      f := Going(p);
    }

    method Run(playbook: PlaybookDef, tenantId: string, dryRun: bool, idempotencyKey: Option<string>, approvedSteps: set<string>)
      returns (r: Outcome)
      requires Valid()
      modifies this
      ensures Valid()
      ensures (Model(), r) == RunOp(old(Model()), executor, playbook, tenantId, dryRun, idempotencyKey, approvedSteps)
    {
      var key := KeyOf(playbook, tenantId, idempotencyKey);
      if key in byIdempotency {
        return Returned(runs[byIdempotency[key]]);
      }
      var runId := nextRun;
      nextRun := nextRun + 1;
      var f := Drive(playbook.steps, dryRun, approvedSteps);
      if f.Broken? {
        return RaisedTier;
      }
      var status, entries := Completed, f.p.entries;
      if f.Halted? {
        status := RunFailed;
      } else if f.p.approvals != [] {
        status := RunAwaiting;
      } else if f.p.pending != [] {
        status, entries := RunFailed, entries + [DAG_ENTRY];
      }
      var run := PlaybookRun(runId, playbook.playbookId, tenantId, status, dryRun, key, entries, f.p.approvals);
      Store(run);
      r := Returned(run);
    }

    method Approve(runId: nat, stepIds: seq<string>, playbook: PlaybookDef) returns (r: Outcome)
      requires Valid()
      modifies this
      ensures Valid()
      ensures (Model(), r) == ApproveOp(old(Model()), executor, runId, stepIds, playbook)
    {
      if runId !in runs {
        return RaisedKey;
      }
      var prior := runs[runId];
      byIdempotency := byIdempotency - {prior.idempotencyKey};
      r := Run(playbook, prior.tenantId, prior.dryRun, Some(ApprovalKey(prior.idempotencyKey, stepIds)), ApprovedSet(prior, stepIds));
    }
  }

  // ---------- any interleaving of run and approve ----------

  datatype Op =
    | DoRun(pb: PlaybookDef, tenantId: string, dryRun: bool, key: Option<string>, approved: set<string>)
    | DoApprove(pb: PlaybookDef, runId: nat, stepIds: seq<string>)

  function Step(e: EngineState, ex: Executor, op: Op): (r: (EngineState, Outcome))
    requires Coherent(e)
    ensures Coherent(r.0)
  {
    match op
    case DoRun(pb, tenantId, dryRun, key, approved) => RunOp(e, ex, pb, tenantId, dryRun, key, approved)
    case DoApprove(pb, runId, stepIds) => ApproveOp(e, ex, runId, stepIds, pb)
  }

  function RunAll(e: EngineState, ex: Executor, ops: seq<Op>): (r: EngineState)
    requires Coherent(e)
    ensures Coherent(r)
    decreases |ops|
  {
    if ops == [] then e
    else RunAll(Step(e, ex, ops[0]).0, ex, ops[1..])
  }

  const EMPTY_ENGINE := EngineState(map[], map[], 0, [])

  /** From an empty engine, whatever is called in whatever order, every idempotency key points to
      a stored run carrying that key. */
  lemma KeysPointToTheirRuns(ex: Executor, ops: seq<Op>)
    ensures var e := RunAll(EMPTY_ENGINE, ex, ops);
      forall k :: k in e.byKey ==> e.byKey[k] in e.runs && e.runs[e.byKey[k]].idempotencyKey == k
  {
    assert Coherent(EMPTY_ENGINE);
  }

  function OpBudget(ops: seq<Op>): nat {
    if ops == [] then 0 else Budget(PendingOf(ops[0].pb.steps)) + OpBudget(ops[1..])
  }

  lemma RunKeeps(e: EngineState, ex: Executor, pb: PlaybookDef, tenantId: string, dryRun: bool, key: Option<string>, approved: set<string>)
    requires Coherent(e)
    ensures var e' := RunOp(e, ex, pb, tenantId, dryRun, key, approved).0;
      && (forall id :: id in e.runs ==> id in e'.runs && e'.runs[id] == e.runs[id])
      && e.calls <= e'.calls
      && |e'.calls| <= |e.calls| + Budget(PendingOf(pb.steps))
  {
    CallsAreAccountedFor(RunConfig(ex, dryRun, approved), pb.steps, e.calls);
  }

  lemma StepKeeps(e: EngineState, ex: Executor, op: Op)
    requires Coherent(e)
    ensures var e' := Step(e, ex, op).0;
      && (forall id :: id in e.runs ==> id in e'.runs && e'.runs[id] == e.runs[id])
      && e.calls <= e'.calls
      && |e'.calls| <= |e.calls| + Budget(PendingOf(op.pb.steps))
  {
    match op {
      case DoRun(pb, tenantId, dryRun, key, approved) =>
        RunKeeps(e, ex, pb, tenantId, dryRun, key, approved);
      case DoApprove(pb, runId, stepIds) =>
        if runId in e.runs {
          var prior := e.runs[runId];
          RunKeeps(e.(byKey := e.byKey - {prior.idempotencyKey}), ex, pb, prior.tenantId, prior.dryRun,
                   Some(ApprovalKey(prior.idempotencyKey, stepIds)), ApprovedSet(prior, stepIds));
        }
    }
  }

  /** Stored runs are never altered, and all the calls ever made stay within the retry allowances
      of the playbooks that were asked for. */
  lemma {:induction false} HistoryIsStable(e: EngineState, ex: Executor, ops: seq<Op>)
    requires Coherent(e)
    ensures var e' := RunAll(e, ex, ops);
      && (forall id :: id in e.runs ==> id in e'.runs && e'.runs[id] == e.runs[id])
      && e.calls <= e'.calls
      && |e'.calls| <= |e.calls| + OpBudget(ops)
    decreases |ops|
  {
    if ops != [] {
      StepKeeps(e, ex, ops[0]);
      HistoryIsStable(Step(e, ex, ops[0]).0, ex, ops[1..]);
    }
  }

  /** No operation of the sequence approves a run that carries `key`. */
  ghost predicate NeverReleased(e: EngineState, ex: Executor, ops: seq<Op>, key: string)
    requires Coherent(e)
    decreases |ops|
  {
    ops != [] ==>
      && (ops[0].DoApprove? && ops[0].runId in e.runs ==> e.runs[ops[0].runId].idempotencyKey != key)
      && NeverReleased(Step(e, ex, ops[0]).0, ex, ops[1..], key)
  }

  /** Once a run is returned under a key, then however many operations follow, as long as none of
      them approves a run with that key, asking for the key again returns that same run, makes no
      executor call and changes nothing, whatever playbook is passed. */
  lemma {:induction false} LiveKeyReturnsTheSameRun(
    e: EngineState, ex: Executor, ops: seq<Op>, key: string,
    pb: PlaybookDef, tenantId: string, dryRun: bool, asked: Option<string>, approved: set<string>)
    requires Coherent(e) && key in e.byKey && NeverReleased(e, ex, ops, key)
    requires KeyOf(pb, tenantId, asked) == key
    ensures var e' := RunAll(e, ex, ops);
      RunOp(e', ex, pb, tenantId, dryRun, asked, approved) == (e', Returned(e.runs[e.byKey[key]]))
    decreases |ops|
  {
    if ops != [] {
      LiveKeyStays(e, ex, ops[0], key);
      LiveKeyReturnsTheSameRun(Step(e, ex, ops[0]).0, ex, ops[1..], key, pb, tenantId, dryRun, asked, approved);
    }
  }

  lemma LiveKeyStays(e: EngineState, ex: Executor, op: Op, key: string)
    requires Coherent(e) && key in e.byKey
    requires op.DoApprove? && op.runId in e.runs ==> e.runs[op.runId].idempotencyKey != key
    ensures var e' := Step(e, ex, op).0;
      key in e'.byKey && e'.byKey[key] == e.byKey[key] && e'.byKey[key] in e'.runs && e'.runs[e'.byKey[key]] == e.runs[e.byKey[key]]
  {
    StepKeeps(e, ex, op);
  }

  /** A fresh run becomes live under its key at once. */
  lemma FreshRunIsLive(e: EngineState, ex: Executor, pb: PlaybookDef, tenantId: string, dryRun: bool, asked: Option<string>, approved: set<string>)
    requires Coherent(e)
    ensures var (e', r) := RunOp(e, ex, pb, tenantId, dryRun, asked, approved);
      r.Returned? ==>
        && r.run.idempotencyKey == KeyOf(pb, tenantId, asked)
        && r.run.idempotencyKey in e'.byKey
        && e'.runs[e'.byKey[r.run.idempotencyKey]] == r.run
  {
  }

  /** Repeating an approval at once returns the run it made, calls nothing and changes nothing;
      and the key of the approved run is no longer live, so `run` under that key starts afresh. */
  lemma ApprovalRepeats(e: EngineState, ex: Executor, runId: nat, stepIds: seq<string>, pb: PlaybookDef)
    requires Coherent(e)
    ensures var (e', r) := ApproveOp(e, ex, runId, stepIds, pb);
      r.Returned? ==>
        && ApproveOp(e', ex, runId, stepIds, pb) == (e', r)
        && e.runs[runId].idempotencyKey !in e'.byKey
  {
    var (e', r) := ApproveOp(e, ex, runId, stepIds, pb);
    if r.Returned? {
      var prior := e.runs[runId];
      var e0 := e.(byKey := e.byKey - {prior.idempotencyKey});
      var k := ApprovalKey(prior.idempotencyKey, stepIds);
      assert k != prior.idempotencyKey;
      FreshRunIsLive(e0, ex, pb, prior.tenantId, prior.dryRun, Some(k), ApprovedSet(prior, stepIds));
      StepKeeps(e, ex, DoApprove(pb, runId, stepIds));
      assert e'.byKey - {prior.idempotencyKey} == e'.byKey;
      assert e'.(byKey := e'.byKey - {prior.idempotencyKey}) == e';
    }
  }

  predicate NeedsApproval(s: StepDef) {
    EvaluateAction(s.actionType, s.tier) == RequireApproval
  }

  /** A first-time approval of a live run completes if and only if the ids given now, with those the
      approved run was waiting for, cover every step that needs approval (earlier approvals do not
      count), and the playbook's dependencies exist and are acyclic. */
  lemma ApprovalCompletesIff(e: EngineState, ex: Executor, runId: nat, stepIds: seq<string>, pb: PlaybookDef)
    requires Coherent(e) && runId in e.runs && !e.runs[runId].dryRun
    requires ApprovalKey(e.runs[runId].idempotencyKey, stepIds) !in e.byKey
    requires NonFailing(ex) && ValidTiers(PendingOf(pb.steps))
    ensures var r := ApproveOp(e, ex, runId, stepIds, pb).1;
      && r.Returned?
      && (r.run.status == Completed <==>
            && (forall s :: s in PendingOf(pb.steps) && NeedsApproval(s) ==> s.id in stepIds || s.id in e.runs[runId].approvalRequired)
            && DependenciesExist(PendingOf(pb.steps)) && !Cyclic(PendingOf(pb.steps)))
  {
    var c := RunConfig(ex, false, ApprovedSet(e.runs[runId], stepIds));
    NonFailingRunsThrough(c, pb.steps, e.calls);
    CompletedIff(c, pb.steps, e.calls);
    assert forall s :: Gated(c, s) <==> NeedsApproval(s) && !(s.id in stepIds || s.id in e.runs[runId].approvalRequired);
  }

  /** A live run of two chained steps that both need approval. */
  ghost predicate ChainedGates(pb: PlaybookDef, first: StepDef, second: StepDef) {
    && pb.steps == [first, second] && first.id != second.id
    && ValidTier(first.tier) && ValidTier(second.tier) && NeedsApproval(first) && NeedsApproval(second)
    && first.dependsOn == [] && second.dependsOn == [first.id]
  }

  lemma TwoPending(pb: PlaybookDef, first: StepDef, second: StepDef)
    requires ChainedGates(pb, first, second)
    ensures PendingOf(pb.steps) == [first, second]
  {
    assert pb.steps[..1] == [first] && [first][..0] == [];
    assert PendingOf([first]) == Put([], first) == [first];
    assert Put([first], second) == [first] + Put([first][1..], second);
  }

  lemma ChainedRun(c: RunConfig, pb: PlaybookDef, first: StepDef, second: StepDef, base: seq<Call>)
    requires ChainedGates(pb, first, second) && NonFailing(c.executor) && !c.dryRun
    ensures var f := Execute(c, pb.steps, base);
      && f.Going?
      && (first.id in f.p.approvals <==> first.id !in c.approved)
      && (second.id in f.p.approvals <==> first.id in c.approved && second.id !in c.approved)
  {
    TwoPending(pb, first, second);
    NonFailingRunsThrough(c, pb.steps, base);
    SucceededIsLeastFixpoint(c, pb.steps, base);
    var f := Execute(c, pb.steps, base);
    RunInvariant(c, pb.steps, base);
    RunEnds(c, pb.steps, base);
    PendingOfSpec(pb.steps);
    assert first in PendingOf(pb.steps) && second in PendingOf(pb.steps);
    if first.id !in c.approved {
      assert first in f.p.visited || first in f.p.pending;
      if first in f.p.visited { VisitedOutcome(c, PendingOf(pb.steps), f.p, first); }
    }
  }

  /** Approving the chained gates one at a time never gets there: approving the first leaves the
      second waiting, and approving the second leaves the first waiting again. */
  lemma StepwiseApprovalGoesRoundInCircles(ex: Executor, pb: PlaybookDef, first: StepDef, second: StepDef, tenantId: string)
    requires ChainedGates(pb, first, second) && NonFailing(ex)
    ensures var (e1, r1) := RunOp(EMPTY_ENGINE, ex, pb, tenantId, false, None, {});
      r1.Returned? && first.id in r1.run.approvalRequired && second.id !in r1.run.approvalRequired &&
      var (e2, r2) := ApproveOp(e1, ex, r1.run.runId, [first.id], pb);
      r2.Returned? && second.id in r2.run.approvalRequired && first.id !in r2.run.approvalRequired &&
      var (e3, r3) := ApproveOp(e2, ex, r2.run.runId, [second.id], pb);
      r3.Returned? && r3.run.status == RunAwaiting && first.id in r3.run.approvalRequired
  {
    var key0 := KeyOf(pb, tenantId, None);
    var (e1, r1) := RunOp(EMPTY_ENGINE, ex, pb, tenantId, false, None, {});
    ChainedRun(RunConfig(ex, false, {}), pb, first, second, []);
    var key1 := ApprovalKey(key0, [first.id]);
    ChainedRun(RunConfig(ex, false, ApprovedSet(r1.run, [first.id])), pb, first, second, e1.calls);
    var (e2, r2) := ApproveOp(e1, ex, r1.run.runId, [first.id], pb);
    OnlyTheseIds(RunConfig(ex, false, ApprovedSet(r1.run, [first.id])), pb, first, second, e1.calls);
    ChainedRun(RunConfig(ex, false, ApprovedSet(r2.run, [second.id])), pb, first, second, e2.calls);
  }

  lemma OnlyTheseIds(c: RunConfig, pb: PlaybookDef, first: StepDef, second: StepDef, base: seq<Call>)
    requires ChainedGates(pb, first, second)
    ensures forall id :: id in Execute(c, pb.steps, base).p.approvals ==> id == first.id || id == second.id
  {
    RunInvariant(c, pb.steps, base);
    TwoPending(pb, first, second);
    forall id | id in Execute(c, pb.steps, base).p.approvals ensures id == first.id || id == second.id {
      var s := HeldIsGated(c, PendingOf(pb.steps), base, Execute(c, pb.steps, base).p, id);
    }
  }
}
