/**
 What the engine asks and keeps over any history of runs and approvals: each call is due to one operation, and
 each run carries what was asked for.
 */
module PlaybookHistories {
  import opened Common
  import opened Playbook
  import opened PlaybookProofs
  import opened PlaybookTheorems
  import opened PlaybookRecords
  import opened PlaybookEngines

  /** The calls made from `e` to `e'` are for steps of the playbook, as `AskedFor` says. */
  ghost predicate NewCallsAskedFor(e: EngineState, e': EngineState, steps: seq<StepDef>, dryRun: bool, approved: set<string>) {
    && e.calls <= e'.calls
    && forall k :: |e.calls| <= k < |e'.calls| ==> AskedFor(steps, dryRun, approved, e'.calls[k])
  }

  /** One more run is stored, under an id of its own and its key; every other run and key stays. */
  ghost predicate Adds(e: EngineState, e': EngineState, run: PlaybookRun) {
    && run.runId !in e.runs
    && e'.runs == e.runs[run.runId := run]
    && e'.byKey == e.byKey[run.idempotencyKey := run.runId]
  }

  /** The run has the status, entries and approvals of the execution, and its calls are those made. */
  ghost predicate Records(e: EngineState, e': EngineState, c: RunConfig, steps: seq<StepDef>, r: Outcome) {
    var f := Execute(c, steps, e.calls);
    && e'.calls == f.p.calls
    && (r.Returned? ==> Conclude(f) == Finished(r.run.status, r.run.steps, r.run.approvalRequired))
  }

  /** A live key answers with its run; otherwise a new run for the playbook, the tenant and the dry-run flag asked for
      is stored under the key, unless a tier names nothing, and the executor is asked only for what the run may do. */
  lemma RunCarriesTheRequest(e: EngineState, ex: Executor, pb: PlaybookDef, tenantId: string, dryRun: bool, asked: Option<string>, approved: set<string>)
    requires Coherent(e)
    ensures var (e', r) := RunOp(e, ex, pb, tenantId, dryRun, asked, approved);
      var key := if asked.Some? && asked.value != "" then asked.value else pb.playbookId + ":" + tenantId + ":auto";
      if key in e.byKey then e' == e && r == Returned(e.runs[e.byKey[key]])
      else
        && NewCallsAskedFor(e, e', pb.steps, dryRun, approved)
        && Records(e, e', RunConfig(ex, dryRun, approved), pb.steps, r)
        && (r.RaisedTier? ==> e'.runs == e.runs && e'.byKey == e.byKey && !ValidTiers(PendingOf(pb.steps)))
        && (r.Returned? ==>
              && Adds(e, e', r.run) && r.run.idempotencyKey == key
              && r.run.playbookId == pb.playbookId && r.run.tenantId == tenantId && r.run.dryRun == dryRun)
        && !r.RaisedKey?
  {
    ExecutorIsAsked(RunConfig(ex, dryRun, approved), pb.steps, e.calls);
    RunEnds(RunConfig(ex, dryRun, approved), pb.steps, e.calls);
  }

  /** Those who may be asked for after an approval: the ids given now and those the approved run waited for. */
  function NowApproved(prior: PlaybookRun, stepIds: seq<string>): (ids: set<string>)
    ensures forall id :: id in ids <==> id in stepIds || id in prior.approvalRequired
  {
    (set id | id in stepIds) + (set id | id in prior.approvalRequired)
  }

  /** An approval releases the approved run's key and makes a run for the same tenant, live if and only if the
      approved run was, under the key made of its key and the ids in order; steps that need approval are
      asked for only if given now or waited for then. */
  lemma ApprovalCarriesOver(e: EngineState, ex: Executor, runId: nat, stepIds: seq<string>, pb: PlaybookDef)
    requires Coherent(e)
    ensures var (e', r) := ApproveOp(e, ex, runId, stepIds, pb);
      if runId !in e.runs then e' == e && r == RaisedKey
      else
        var prior := e.runs[runId];
        var key := prior.idempotencyKey + ":approved:" + Join(Sorted(stepIds));
        && prior.idempotencyKey !in e'.byKey
        && if key in e.byKey then e' == e.(byKey := e.byKey - {prior.idempotencyKey}) && r == Returned(e.runs[e.byKey[key]])
           else
             && NewCallsAskedFor(e, e', pb.steps, prior.dryRun, NowApproved(prior, stepIds))
             && Records(e, e', RunConfig(ex, prior.dryRun, NowApproved(prior, stepIds)), pb.steps, r)
             && (r.Returned? ==>
                   && Adds(e.(byKey := e.byKey - {prior.idempotencyKey}), e', r.run) && r.run.idempotencyKey == key
                   && r.run.playbookId == pb.playbookId && r.run.tenantId == prior.tenantId && r.run.dryRun == prior.dryRun)
  {
    if runId in e.runs {
      var prior := e.runs[runId];
      assert ApprovedSet(prior, stepIds) == NowApproved(prior, stepIds);
      RunCarriesTheRequest(e.(byKey := e.byKey - {prior.idempotencyKey}), ex, pb, prior.tenantId, prior.dryRun,
                           Some(ApprovalKey(prior.idempotencyKey, stepIds)), ApprovedSet(prior, stepIds));
    }
  }

  // ---------- whole histories ----------

  /** The call is asked for by the operation, made in state `e`. */
  ghost predicate DueTo(e: EngineState, op: Op, call: Call) {
    match op
    case DoRun(pb, _, dryRun, _, approved) => AskedFor(pb.steps, dryRun, approved, call)
    case DoApprove(pb, runId, stepIds) =>
      runId in e.runs && AskedFor(pb.steps, e.runs[runId].dryRun, NowApproved(e.runs[runId], stepIds), call)
  }

  ghost predicate DueToOneOf(e: EngineState, ex: Executor, ops: seq<Op>, call: Call)
    requires Coherent(e)
  {
    exists i :: 0 <= i < |ops| && DueTo(RunAll(e, ex, ops[..i]), ops[i], call)
  }

  lemma NewCallsAreDue(e: EngineState, ex: Executor, op: Op)
    requires Coherent(e)
    ensures var e' := Step(e, ex, op).0;
      e.calls <= e'.calls && forall k :: |e.calls| <= k < |e'.calls| ==> DueTo(e, op, e'.calls[k])
  {
    match op {
      case DoRun(pb, tenantId, dryRun, key, approved) => RunCarriesTheRequest(e, ex, pb, tenantId, dryRun, key, approved);
      case DoApprove(pb, runId, stepIds) => ApprovalCarriesOver(e, ex, runId, stepIds, pb);
    }
  }

  /** Whatever is run and approved in whatever order, every call ever made is due to one of the operations: in
      particular none is live for a step that needs approval unless that operation had the step approved. */
  lemma {:induction false} EveryCallIsDue(e: EngineState, ex: Executor, ops: seq<Op>)
    requires Coherent(e)
    ensures var calls := RunAll(e, ex, ops).calls;
      e.calls <= calls && forall k :: |e.calls| <= k < |calls| ==> DueToOneOf(e, ex, ops, calls[k])
    decreases |ops|
  {
    if ops != [] {
      var e1 := Step(e, ex, ops[0]).0;
      NewCallsAreDue(e, ex, ops[0]);
      EveryCallIsDue(e1, ex, ops[1..]);
      var calls := RunAll(e, ex, ops).calls;
      forall k | |e.calls| <= k < |calls| ensures DueToOneOf(e, ex, ops, calls[k]) {
        if k < |e1.calls| {
          assert ops[..0] == [];
          assert calls[k] == e1.calls[k] && RunAll(e, ex, ops[..0]) == e;
          assert DueTo(RunAll(e, ex, ops[..0]), ops[0], calls[k]);
        } else {
          DueLater(e, ex, ops, calls[k]);
        }
      }
    }
  }

  lemma DueLater(e: EngineState, ex: Executor, ops: seq<Op>, call: Call)
    requires Coherent(e) && ops != [] && DueToOneOf(Step(e, ex, ops[0]).0, ex, ops[1..], call)
    ensures DueToOneOf(e, ex, ops, call)
  {
    var e1 := Step(e, ex, ops[0]).0;
    var i :| 0 <= i < |ops[1..]| && DueTo(RunAll(e1, ex, ops[1..][..i]), ops[1..][i], call);
    assert ops[..i+1][0] == ops[0] && ops[..i+1][1..] == ops[1..][..i];
    assert DueTo(RunAll(e, ex, ops[..i+1]), ops[i+1], call);
  }

  // ---------- the order of approved ids ----------

  lemma {:induction false} LeqIsOrder(a: string, b: string)
    ensures StringLeq(a, b) <==> a == b || Precedes(a, b)
  {
    if a == "" {
      if b != "" { assert DiffersAt(a, b, 0); }
    } else if b == "" {
    } else if a[0] == b[0] {
      LeqIsOrder(a[1..], b[1..]);
      PrecedesTail(a, b);
      assert a == [a[0]] + a[1..] && b == [b[0]] + b[1..];
    } else {
      PrecedesHead(a, b);
    }
  }

  /** The ids an approval key names are joined in code-point order: `a`, `b` and `c` in whatever order they are given. */
  lemma ApprovalKeyText(key: string)
    ensures ApprovalKey(key, ["b", "c", "a"]) == key + ":approved:" + "a,b,c"
  {
    assert ["b", "c", "a"][1..] == ["c", "a"] && ["c", "a"][1..] == ["a"] && ["a"][1..] == [];
    assert Sorted(["a"]) == ["a"];
    assert Sorted(["c", "a"]) == ["a"] + Insert("c", []) == ["a", "c"];
    assert ["a", "c"][1..] == ["c"];
    assert Sorted(["b", "c", "a"]) == ["a"] + Insert("b", ["c"]) == ["a", "b", "c"];
    assert ["a", "b", "c"][1..] == ["b", "c"] && ["b", "c"][1..] == ["c"];
    assert Join(["c"]) == "c" && Join(["b", "c"]) == "b" + "," + "c" == "b,c";
    assert Join(["a", "b", "c"]) == "a" + "," + "b,c" == "a,b,c";
  }
}
