/**
 What a run asks of its executor and what it writes down: every call told from the playbook, every entry
 from the executor's replies, and the status from the entries.
 */
module PlaybookRecords {
  import opened Common
  import opened Playbook
  import opened PlaybookProofs
  import opened PlaybookTheorems

  // ---------- calls ----------

  /** The step may run without anybody's approval: it is of tier 0 and not one of the listed actions. */
  predicate Unattended(actionType: string, tier: int) {
    && tier == 0
    && actionType !in {"isolate_host", "isolate.host", "disable_user", "revoke_privileged_access", "modify_firewall",
                       "push_production_detection", "alter_platform_policy", "delete_evidence",
                       "contain_session", "disable_stale_token", "quarantine_mailbox_rule"}
  }

  /** The call is for a step of the playbook, with its action, its parameters and the run's dry-run flag; in a
      live run the step may run unattended or has been approved. */
  ghost predicate AskedFor(steps: seq<StepDef>, dryRun: bool, approved: set<string>, call: Call) {
    exists s :: s in PendingOf(steps) && call == Call(s.id, s.actionType, s.params, dryRun)
      && (dryRun || s.id in approved || Unattended(s.actionType, s.tier))
  }

  lemma GatedIff(c: RunConfig, s: StepDef)
    requires ValidTier(s.tier)
    ensures 0 <= s.tier <= 2
    ensures Gated(c, s) <==> !c.dryRun && s.id !in c.approved && !Unattended(s.actionType, s.tier)
  {
  }

  /** For any executor, everything a run asks is asked for a step of the playbook as the playbook has it. */
  lemma ExecutorIsAsked(c: RunConfig, steps: seq<StepDef>, base: seq<Call>)
    ensures var calls := Execute(c, steps, base).p.calls;
      && base <= calls
      && forall k :: |base| <= k < |calls| ==> AskedFor(steps, c.dryRun, c.approved, calls[k])
  {
    RunInvariant(c, steps, base);
    var p := Execute(c, steps, base).p;
    forall k | |base| <= k < |p.calls| ensures AskedFor(steps, c.dryRun, c.approved, p.calls[k]) {
      var i := LoggedCallHasEntry(c, p.visited, p.entries, k - |base|);
      var s := p.visited[i];
      assert EntryOk(c, s, p.entries[..i], p.entries[i]);
      GatedIff(c, s);
      assert p.calls[k] == Call(s.id, s.actionType, s.params, c.dryRun);
    }
  }

  // ---------- entries ----------

  /** The entry of a step that was executed after the calls `before`, told from the executor's replies to
      `attempts` calls more, the last of which is the `last` one asked. */
  ghost predicate Replied(ex: Executor, s: StepDef, before: seq<Call>, dryRun: bool, e: StepRun) {
    var asked := (n: nat) => before + Copies(Call(s.id, s.actionType, s.params, dryRun), n);
    && e.attempts >= 0
    && (forall k :: 0 < k < e.attempts ==> ex(asked(k)).Exception?)
    && (e.attempts == 0 <==> s.retries < 0)
    && if e.attempts == 0 then e.status == Success && e.outputs == map[] && e.error == ""
       else match ex(asked(e.attempts))
         case Outputs(o) => e.status == Success && e.outputs == o && e.error == ""
         case Exception(m) => && e.attempts == s.retries + 1 && e.outputs == map[] && e.error == m
                              && e.status == if m == "" then Success else Failed
  }

  /** What the run recorded of `s`: the step as the playbook has it, and either a hold at the gate or the replies. */
  ghost predicate RecordedOf(c: RunConfig, s: StepDef, before: seq<Call>, e: StepRun) {
    && e.stepId == s.id && e.actionType == s.actionType && e.rollback == s.rollback && 0 <= s.tier <= 2
    && if !c.dryRun && s.id !in c.approved && !Unattended(s.actionType, s.tier)
       then e.status == AwaitingApproval && e.attempts == 0 && e.outputs == map[] && e.error == ""
       else Replied(c.executor, s, before, c.dryRun, e)
  }

  ghost predicate EntryRecorded(c: RunConfig, base: seq<Call>, visited: seq<StepDef>, entries: seq<StepRun>, i: nat)
    requires |visited| == |entries| && i < |entries|
  {
    RecordedOf(c, visited[i], base + CallLog(c, visited[..i], entries[..i]), entries[i])
  }

  ghost predicate AllRecorded(c: RunConfig, base: seq<Call>, p: Progress) {
    && |p.visited| == |p.entries|
    && p.calls == base + CallLog(c, p.visited, p.entries)
    && forall i :: 0 <= i < |p.entries| ==> EntryRecorded(c, base, p.visited, p.entries, i)
  }

  lemma RecordedBefore(c: RunConfig, base: seq<Call>, visited: seq<StepDef>, entries: seq<StepRun>, s: StepDef, e: StepRun, i: nat)
    requires |visited| == |entries| && i < |entries| && EntryRecorded(c, base, visited, entries, i)
    ensures EntryRecorded(c, base, visited + [s], entries + [e], i)
  {
    assert (visited + [s])[..i] == visited[..i] && (entries + [e])[..i] == entries[..i];
  }

  lemma RecordStays(c: RunConfig, base: seq<Call>, p: Progress, s: StepDef, e: StepRun)
    requires AllRecorded(c, base, p) && RecordedOf(c, s, p.calls, e)
    ensures AllRecorded(c, base, Record(p, s, e, p.calls + Copies(CallFor(c, s), e.attempts)))
  {
    var more := Copies(CallFor(c, s), e.attempts);
    var visited, entries := p.visited + [s], p.entries + [e];
    CallLogAppend(c, p.visited, p.entries, s, e);
    assert p.calls + more == base + (CallLog(c, p.visited, p.entries) + more);
    forall i | 0 <= i < |entries| ensures EntryRecorded(c, base, visited, entries, i) {
      if i < |p.entries| {
        RecordedBefore(c, base, p.visited, p.entries, s, e, i);
      } else {
        assert visited[..i] == p.visited && entries[..i] == p.entries;
      }
    }
  }

  lemma ExecutedIsReplied(c: RunConfig, s: StepDef, calls: seq<Call>)
    ensures var r := Retry(c.executor, calls, CallFor(c, s), 0, s.retries, "");
      Replied(c.executor, s, calls, c.dryRun, ExecutedEntry(s, r)) && r.calls == calls + Copies(CallFor(c, s), r.attempts)
  {
    RetryCalls(c.executor, calls, CallFor(c, s), 0, s.retries, "");
    RetryOutcome(c.executor, calls, CallFor(c, s), 0, s.retries, "");
  }

  lemma VisitRecords(c: RunConfig, base: seq<Call>, s: StepDef, p: Progress)
    requires AllRecorded(c, base, p)
    ensures AllRecorded(c, base, Visit(c, s, p).p)
  {
    if Ready(s, p.completed) && ValidTier(s.tier) {
      GatedIff(c, s);
      if Gated(c, s) {
        assert p.calls + Copies(CallFor(c, s), 0) == p.calls;
        RecordStays(c, base, p, s, AwaitingEntry(s));
      } else {
        ExecutedIsReplied(c, s, p.calls);
        RecordStays(c, base, p, s, ExecutedEntry(s, Retry(c.executor, p.calls, CallFor(c, s), 0, s.retries, "")));
      }
    }
  }

  lemma {:induction false} SweepRecords(c: RunConfig, base: seq<Call>, todo: seq<StepDef>, p: Progress)
    requires AllRecorded(c, base, p)
    ensures AllRecorded(c, base, Sweep(c, todo, p).p)
  {
    if todo != [] {
      VisitRecords(c, base, todo[0], p);
      var f := Visit(c, todo[0], p);
      if f.Going? { SweepRecords(c, base, todo[1..], f.p); }
    }
  }

  lemma {:induction false} ScheduleRecords(c: RunConfig, base: seq<Call>, p: Progress)
    requires AllRecorded(c, base, p)
    ensures AllRecorded(c, base, Schedule(c, p).p)
    decreases |p.pending|
  {
    if p.pending != [] {
      SweepRecords(c, base, p.pending, p);
      var f := Sweep(c, p.pending, p);
      if f.Going? && |f.p.pending| < |p.pending| { ScheduleRecords(c, base, f.p); }
    }
  }

  /** For any executor, each entry is about a step of the playbook and says what became of it: held at the gate, or the
      executor's replies to the calls made right after those of the entries before. */
  lemma EntriesTellTheReplies(c: RunConfig, steps: seq<StepDef>, base: seq<Call>)
    ensures var p := Execute(c, steps, base).p;
      && |p.visited| == |p.entries|
      && (forall i :: 0 <= i < |p.visited| ==> p.visited[i] in PendingOf(steps))
      && forall i :: 0 <= i < |p.entries| ==> EntryRecorded(c, base, p.visited, p.entries, i)
  {
    RunInvariant(c, steps, base);
    var p := Start(steps, base);
    assert p.calls == base + CallLog(c, p.visited, p.entries);
    ScheduleRecords(c, base, p);
  }

  // ---------- status ----------

  lemma ApprovalsAreHeld(c: RunConfig, steps: seq<StepDef>, base: seq<Call>)
    ensures var p := Execute(c, steps, base).p;
      forall id :: id in p.approvals <==> exists e :: e in p.entries && e.status == AwaitingApproval && e.stepId == id
  {
    RunInvariant(c, steps, base);
    var p := Execute(c, steps, base).p;
    forall id ensures id in p.approvals <==> exists e :: e in p.entries && e.status == AwaitingApproval && e.stepId == id {
      AwaitingMember(p.entries, id);
    }
  }

  /** The status is told by the entries: failed if one is, else waiting if one is, else completed, and then every
      step has an entry.  The entry for unresolved dependencies comes last; the ids waiting are those of the entries. */
  lemma StatusTellsTheEntries(c: RunConfig, steps: seq<StepDef>, base: seq<Call>)
    ensures var f := Execute(c, steps, base);
      var r := Conclude(f);
      && (r == InvalidTier <==> f.Broken?)
      && (r.Finished? ==>
        && (r.status == RunFailed <==> exists e :: e in r.entries && e.status == Failed)
        && (r.status == RunAwaiting <==> r.approvals != [] && forall e :: e in r.entries ==> e.status != Failed)
        && (r.status == Completed ==> |r.entries| == |f.p.visited| && forall s :: s in PendingOf(steps) ==> s in f.p.visited)
        && (forall id :: id in r.approvals <==> exists e :: e in r.entries && e.status == AwaitingApproval && e.stepId == id)
        && (r.entries == f.p.entries || (r.status == RunFailed && r.approvals == []
              && r.entries == f.p.entries + [StepRun("dag", "playbook.dag", Failed, 0, map[], "Unresolved dependencies or cycle", None)])))
  {
    var f := Execute(c, steps, base);
    var r := Conclude(f);
    RunEnds(c, steps, base);
    RunInvariant(c, steps, base);
    ApprovalsAreHeld(c, steps, base);
    if r.Finished? {
      if f.Halted? { assert f.p.entries[|f.p.entries|-1] in r.entries; }
      else if r.entries != f.p.entries { assert r.entries[|f.p.entries|] in r.entries; }
    }
  }
}
