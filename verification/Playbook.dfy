/**
 The playbook DAG engine: step definitions, the policy gate, and the run semantics
 written as functions.  The engine class in PlaybookEngines.dfy runs the loops and is
 proved equal to these functions; PlaybookProofs.dfy proves what they guarantee.
 */
module Playbook {
  import opened Common

  type Params = map<string, string>

  datatype StepDef = StepDef(
    id: string, actionType: string, dependsOn: seq<string>,
    tier: int, retries: int, params: Params, rollback: Option<string>)

  datatype PlaybookDef = PlaybookDef(playbookId: string, steps: seq<StepDef>)

  // ---------- policy gate ----------

  datatype Decision = Allow | Deny | RequireApproval

  const TIER2_ACTIONS: set<string> := {
    "isolate_host", "isolate.host", "disable_user", "revoke_privileged_access",
    "modify_firewall", "push_production_detection", "alter_platform_policy", "delete_evidence"
  }

  const TIER1_ACTIONS: set<string> := {
    "contain_session", "disable_stale_token", "quarantine_mailbox_rule"
  }

  predicate ValidTier(tier: int) { 0 <= tier <= 2 }

  function EvaluateAction(actionType: string, tier: int): (d: Decision)
    ensures d != Deny
  {
    if actionType in TIER2_ACTIONS || tier == 2 then RequireApproval
    else if actionType in TIER1_ACTIONS || tier == 1 then RequireApproval
    else Allow
  }

  // ---------- the executor ----------

  datatype Call = Call(stepId: string, actionType: string, params: Params, dryRun: bool)

  datatype Reply = Outputs(outputs: Params) | Exception(message: string)

  /** An executor may answer from everything it has been asked so far: the argument is the
      whole call history, ending in the current call.  Any stateful executor is one of these. */
  type Executor = seq<Call> -> Reply

  datatype Retried = Retried(calls: seq<Call>, attempts: int, error: string, outputs: Params)

  /** The bounded retry loop.  `error` is the last exception message; an empty one counts as none. */
  function Retry(ex: Executor, calls: seq<Call>, call: Call, attempts: int, retries: int, error: string): Retried
    decreases retries - attempts
  {
    if attempts > retries then Retried(calls, attempts, error, map[])
    else
      match ex(calls + [call])
      case Outputs(outputs) => Retried(calls + [call], attempts + 1, "", outputs)
      case Exception(message) => Retry(ex, calls + [call], call, attempts + 1, retries, message)
  }

  // ---------- the scheduler ----------

  datatype StepStatus = Success | Failed | AwaitingApproval

  datatype StepRun = StepRun(
    stepId: string, actionType: string, status: StepStatus, attempts: int,
    outputs: Params, error: string, rollback: Option<string>)

  datatype RunConfig = RunConfig(executor: Executor, dryRun: bool, approved: set<string>)

  /** The loop state: `visited` lists the steps taken from `pending`, aligned with `entries`. */
  datatype Progress = Progress(
    pending: seq<StepDef>, visited: seq<StepDef>, completed: set<string>,
    entries: seq<StepRun>, approvals: seq<string>, calls: seq<Call>)

  /** Going: the loop continues.  Halted: a step failed and the run returns at once.
      Broken: a step's tier names no ActionTier and the exception leaves the run. */
  datatype Flow = Going(p: Progress) | Halted(p: Progress) | Broken(p: Progress)

  predicate Ready(s: StepDef, completed: set<string>) {
    forall d :: d in s.dependsOn ==> d in completed
  }

  predicate Gated(c: RunConfig, s: StepDef) {
    EvaluateAction(s.actionType, s.tier) == RequireApproval && !c.dryRun && s.id !in c.approved
  }

  function CallFor(c: RunConfig, s: StepDef): Call {
    Call(s.id, s.actionType, s.params, c.dryRun)
  }

  function Without(steps: seq<StepDef>, id: string): seq<StepDef> {
    Filter(steps, (s: StepDef) => s.id != id)
  }

  function AwaitingEntry(s: StepDef): StepRun {
    StepRun(s.id, s.actionType, AwaitingApproval, 0, map[], "", s.rollback)
  }

  function ExecutedEntry(s: StepDef, r: Retried): StepRun {
    if r.error != "" then StepRun(s.id, s.actionType, Failed, r.attempts, map[], r.error, s.rollback)
    else StepRun(s.id, s.actionType, Success, r.attempts, r.outputs, "", s.rollback)
  }

  /** Take `s` out of `pending` and record `entry` for it. */
  function Record(p: Progress, s: StepDef, entry: StepRun, calls: seq<Call>): Progress {
    Progress(
      Without(p.pending, s.id),
      p.visited + [s],
      if entry.status == Success then p.completed + {s.id} else p.completed,
      p.entries + [entry],
      if entry.status == AwaitingApproval then p.approvals + [s.id] else p.approvals,
      calls)
  }

  function Visit(c: RunConfig, s: StepDef, p: Progress): Flow {
    if !Ready(s, p.completed) then Going(p)
    else if !ValidTier(s.tier) then Broken(p)
    else if Gated(c, s) then Going(Record(p, s, AwaitingEntry(s), p.calls))
    else
      var r := Retry(c.executor, p.calls, CallFor(c, s), 0, s.retries, "");
      var q := Record(p, s, ExecutedEntry(s, r), r.calls);
      if r.error != "" then Halted(q) else Going(q)
  }

  /** One pass over a snapshot of the pending steps. */
  function Sweep(c: RunConfig, todo: seq<StepDef>, p: Progress): Flow {
    if todo == [] then Going(p)
    else
      var f := Visit(c, todo[0], p);
      if f.Going? then Sweep(c, todo[1..], f.p) else f
  }

  /** Passes until nothing is pending, a pass makes no progress, or the run stops early. */
  function Schedule(c: RunConfig, p: Progress): Flow
    decreases |p.pending|
  {
    if p.pending == [] then Going(p)
    else
      var f := Sweep(c, p.pending, p);
      if !f.Going? then f
      else if |f.p.pending| < |p.pending| then Schedule(c, f.p)
      else f
  }

  /** A dict keyed by step id: a repeated id keeps its place and takes the later definition. */
  function Put(dict: seq<StepDef>, s: StepDef): seq<StepDef> {
    if dict == [] then [s]
    else if dict[0].id == s.id then [s] + dict[1..]
    else [dict[0]] + Put(dict[1..], s)
  }

  function PendingOf(steps: seq<StepDef>): seq<StepDef> {
    if steps == [] then [] else Put(PendingOf(steps[..|steps|-1]), steps[|steps|-1])
  }

  function Start(steps: seq<StepDef>, calls: seq<Call>): Progress {
    Progress(PendingOf(steps), [], {}, [], [], calls)
  }

  datatype RunStatus = Completed | RunFailed | RunAwaiting

  const DAG_ENTRY := StepRun("dag", "playbook.dag", Failed, 0, map[], "Unresolved dependencies or cycle", None)

  datatype Result = Finished(status: RunStatus, entries: seq<StepRun>, approvals: seq<string>) | InvalidTier

  function Conclude(f: Flow): Result {
    match f
    case Broken(_) => InvalidTier
    case Halted(p) => Finished(RunFailed, p.entries, p.approvals)
    case Going(p) =>
      if p.approvals != [] then Finished(RunAwaiting, p.entries, p.approvals)
      else if p.pending != [] then Finished(RunFailed, p.entries + [DAG_ENTRY], p.approvals)
      else Finished(Completed, p.entries, p.approvals)
  }

  function Execute(c: RunConfig, steps: seq<StepDef>, calls: seq<Call>): Flow {
    Schedule(c, Start(steps, calls))
  }
}
