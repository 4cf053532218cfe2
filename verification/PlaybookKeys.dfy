/**
 Which run an engine hands out: runs can be fetched for ever, but keys are joined texts and are not
 checked against what is asked for, so a run can be another's.
 */
module PlaybookKeys {
  import opened Common
  import opened Joining
  import opened Playbook
  import opened PlaybookProofs
  import opened PlaybookTheorems
  import opened PlaybookEngines

  /** A run that was returned is found under its id from then on, unchanged, whatever happens after. */
  lemma ReturnedRunsCanBeFetched(e: EngineState, ex: Executor, op: Op, later: seq<Op>)
    requires Coherent(e)
    ensures var (e', r) := Step(e, ex, op);
      r.Returned? ==> var end := RunAll(e', ex, later); r.run.runId in end.runs && end.runs[r.run.runId] == r.run
  {
    var (e', r) := Step(e, ex, op);
    HistoryIsStable(e', ex, later);
    if r.Returned? { assert r.run.runId in e'.runs && e'.runs[r.run.runId] == r.run; }
  }

  // ---------- default keys ----------

  predicate IsAsked(run: PlaybookRun, playbookId: string, tenantId: string) {
    run.playbookId == playbookId && run.tenantId == tenantId
  }

  /** A history in which no key is given and nothing is approved. */
  predicate DefaultOnly(ops: seq<Op>) {
    forall i :: 0 <= i < |ops| ==> ops[i].DoRun? && ops[i].key == None
  }

  ghost predicate KeyedByDefault(e: EngineState) {
    Coherent(e) && forall k :: k in e.byKey ==> k == DefaultKey(e.runs[e.byKey[k]].playbookId, e.runs[e.byKey[k]].tenantId)
  }

  lemma DefaultStep(e: EngineState, ex: Executor, op: Op)
    requires KeyedByDefault(e) && op.DoRun? && op.key == None
    ensures KeyedByDefault(Step(e, ex, op).0)
  {
    StepKeeps(e, ex, op);
  }

  lemma {:induction false} DefaultHistory(e: EngineState, ex: Executor, ops: seq<Op>)
    requires KeyedByDefault(e) && DefaultOnly(ops)
    ensures KeyedByDefault(RunAll(e, ex, ops))
    decreases |ops|
  {
    if ops != [] {
      DefaultStep(e, ex, ops[0]);
      DefaultHistory(Step(e, ex, ops[0]).0, ex, ops[1..]);
    }
  }

  lemma ColonFreeTells(p: string, t: string, p': string, t': string)
    requires Free(p, ':') && Free(t, ':') && DefaultKey(p, t) == DefaultKey(p', t')
    ensures p == p' && t == t'
  {
    SameFront(p + ":" + t, p' + ":" + t', ":auto");
    PiecesJoin(p, t, ':');
    PiecesJoin(p', t', ':');
    FreePieces(p, ':');
    FreePieces(t, ':');
    var ps := Pieces(p, ':') + Pieces(t, ':');
    assert ps == [p, t] && ps == Pieces(p', ':') + Pieces(t', ':');
    assert Pieces(p', ':') == ps[..1] && Pieces(t', ':') == ps[1..];
    SamePieces(p, p', ':');
    SamePieces(t, t', ':');
  }

  lemma SameFront(a: string, b: string, tail: string)
    requires a + tail == b + tail
    ensures a == b
  {
    assert |a| == |b|;
    assert (a + tail)[..|a|] == a && (b + tail)[..|a|] == b;
  }

  /** Another playbook and tenant with the same default key. */
  lemma ColonShares(p: string, t: string) returns (p': string, t': string)
    requires !Free(p, ':') || !Free(t, ':')
    ensures DefaultKey(p', t') == DefaultKey(p, t) && p' != p && t' != t
  {
    if !Free(p, ':') {
      var a, b := SplitAtFirst(p, ':');
      p', t' := a, b + ":" + t;
      assert |p'| < |p| && |t'| > |t|;
      assert a + ":" + (b + ":" + t) == a + ":" + b + ":" + t;
    } else {
      var a, b := SplitAtFirst(t, ':');
      p', t' := p + ":" + a, b;
      assert |p'| > |p| && |t'| < |t|;
      assert p + ":" + a + ":" + b == p + ":" + (a + ":" + b);
    }
  }

  /** Where everybody relies on the default key, the run returned is always one of the playbook and for
      the tenant asked for, if and only if neither name contains a colon. */
  lemma DefaultRunIsTheOneAskedForIff(ex: Executor, pb: PlaybookDef, tenantId: string, dryRun: bool)
    ensures (forall ops {:trigger RunAll(EMPTY_ENGINE, ex, ops)} :: DefaultOnly(ops) ==>
              AnswersTheAsker(RunAll(EMPTY_ENGINE, ex, ops), ex, pb, tenantId, dryRun))
            <==> Free(pb.playbookId, ':') && Free(tenantId, ':')
  {
    if Free(pb.playbookId, ':') && Free(tenantId, ':') {
      forall ops | DefaultOnly(ops) ensures AnswersTheAsker(RunAll(EMPTY_ENGINE, ex, ops), ex, pb, tenantId, dryRun) {
        DefaultHistory(EMPTY_ENGINE, ex, ops);
        var e := RunAll(EMPTY_ENGINE, ex, ops);
        var k := DefaultKey(pb.playbookId, tenantId);
        if k in e.byKey { ColonFreeTells(pb.playbookId, tenantId, e.runs[e.byKey[k]].playbookId, e.runs[e.byKey[k]].tenantId); }
      }
    } else {
      var p, t := ColonShares(pb.playbookId, tenantId);
      var other := DoRun(PlaybookDef(p, []), t, dryRun, None, {});
      OneRun(ex, other);
      assert DefaultOnly([other]);
      assert !AnswersTheAsker(RunAll(EMPTY_ENGINE, ex, [other]), ex, pb, tenantId, dryRun);
    }
  }

  ghost predicate AnswersTheAsker(e: EngineState, ex: Executor, pb: PlaybookDef, tenantId: string, dryRun: bool)
    requires Coherent(e)
  {
    var r := RunOp(e, ex, pb, tenantId, dryRun, None, {}).1;
    r.Returned? ==> IsAsked(r.run, pb.playbookId, tenantId)
  }

  lemma OneRun(ex: Executor, op: Op)
    requires op.DoRun? && op.key == None && op.pb.steps == []
    ensures var e, k := RunAll(EMPTY_ENGINE, ex, [op]), DefaultKey(op.pb.playbookId, op.tenantId);
      k in e.byKey && IsAsked(e.runs[e.byKey[k]], op.pb.playbookId, op.tenantId)
  {
    var e := Step(EMPTY_ENGINE, ex, op).0;
    assert [op][1..] == [];
    assert RunAll(e, ex, []) == e;
    assert PendingOf([]) == [];
  }

  // ---------- keys that are given ----------

  /** A given key is not checked against the tenant: the second tenant that uses it gets the first one's run. */
  lemma GivenKeysCrossTenants(e: EngineState, ex: Executor, pb: PlaybookDef, t: string, t': string, dryRun: bool, key: string)
    requires Coherent(e) && key != "" && t != t'
    ensures var (e1, r1) := RunOp(e, ex, pb, t, dryRun, Some(key), {});
      r1.Returned? ==>
        && RunOp(e1, ex, pb, t', dryRun, Some(key), {}) == (e1, r1)
        && !(IsAsked(r1.run, pb.playbookId, t) && IsAsked(r1.run, pb.playbookId, t'))
  {
  }

  // ---------- approval keys ----------

  predicate CommaFree(xs: seq<string>) { forall i :: 0 <= i < |xs| ==> Free(xs[i], ',') }

  lemma {:induction false} JoinPieces(xs: seq<string>)
    requires xs != [] && CommaFree(xs)
    ensures Pieces(Join(xs), ',') == xs
  {
    FreePieces(xs[0], ',');
    if |xs| > 1 {
      JoinPieces(xs[1..]);
      PiecesJoin(xs[0], Join(xs[1..]), ',');
      assert [xs[0]] + xs[1..] == xs;
    }
  }

  lemma {:induction false} InsertPermutesText(x: string, xs: seq<string>)
    ensures multiset(PlaybookEngines.Insert(x, xs)) == multiset(xs) + multiset{x}
  {
    if xs != [] && !StringLeq(x, xs[0]) {
      InsertPermutesText(x, xs[1..]);
      assert xs == [xs[0]] + xs[1..];
    }
  }

  lemma {:induction false} SortedPermutes(xs: seq<string>)
    ensures multiset(Sorted(xs)) == multiset(xs) && |Sorted(xs)| == |xs|
  {
    if xs != [] {
      SortedPermutes(xs[1..]);
      InsertPermutesText(xs[0], Sorted(xs[1..]));
      assert xs == [xs[0]] + xs[1..];
    }
    assert |multiset(Sorted(xs))| == |Sorted(xs)| && |multiset(xs)| == |xs|;
  }

  lemma SortedCommaFree(xs: seq<string>)
    requires CommaFree(xs)
    ensures CommaFree(Sorted(xs))
  {
    SortedPermutes(xs);
    forall i | 0 <= i < |Sorted(xs)| ensures Free(Sorted(xs)[i], ',') {
      assert Sorted(xs)[i] in multiset(Sorted(xs));
      assert Sorted(xs)[i] in xs;
    }
  }

  lemma {:induction false} LeqTotal(a: string, b: string)
    ensures StringLeq(a, b) || StringLeq(b, a)
    ensures StringLeq(a, b) && StringLeq(b, a) ==> a == b
  {
    if a != [] && b != [] {
      LeqTotal(a[1..], b[1..]);
      assert a == [a[0]] + a[1..] && b == [b[0]] + b[1..];
    }
  }

  lemma {:induction false} LeqTransitive(a: string, b: string, c: string)
    requires StringLeq(a, b) && StringLeq(b, c)
    ensures StringLeq(a, c)
  {
    if a != [] && a[0] == b[0] && b[0] == c[0] { LeqTransitive(a[1..], b[1..], c[1..]); }
  }

  ghost predicate Ascending(xs: seq<string>) { forall i, j :: 0 <= i < j < |xs| ==> StringLeq(xs[i], xs[j]) }

  lemma {:induction false} InsertAscends(x: string, xs: seq<string>)
    requires Ascending(xs)
    ensures Ascending(PlaybookEngines.Insert(x, xs))
  {
    if xs != [] {
      LeqTotal(x, xs[0]);
      if StringLeq(x, xs[0]) {
        forall j | 0 <= j < |xs| ensures StringLeq(x, xs[j]) {
          if j > 0 { LeqTransitive(x, xs[0], xs[j]); }
        }
      } else {
        var t := PlaybookEngines.Insert(x, xs[1..]);
        InsertAscends(x, xs[1..]);
        InsertPermutesText(x, xs[1..]);
        forall j | 0 <= j < |t| ensures StringLeq(xs[0], t[j]) {
          assert t[j] in multiset(t);
          if t[j] != x {
            assert t[j] in xs[1..];
            var k :| 0 <= k < |xs[1..]| && xs[1..][k] == t[j];
          }
        }
      }
    }
  }

  lemma {:induction false} SortedAscends(xs: seq<string>)
    ensures Ascending(Sorted(xs))
  {
    if xs != [] {
      SortedAscends(xs[1..]);
      InsertAscends(xs[0], Sorted(xs[1..]));
    }
  }

  lemma {:induction false} AscendingIsUnique(xs: seq<string>, ys: seq<string>)
    requires Ascending(xs) && Ascending(ys) && multiset(xs) == multiset(ys)
    ensures xs == ys
  {
    assert |multiset(xs)| == |xs| && |multiset(ys)| == |ys|;
    if xs != [] {
      SameLeast(xs, ys);
      var xt, yt := xs[1..], ys[1..];
      TailMultiset(xs);
      TailMultiset(ys);
      AscendingIsUnique(xt, yt);
      assert xs == [xs[0]] + xt && ys == [ys[0]] + yt;
    }
  }

  lemma TailMultiset(xs: seq<string>)
    requires xs != []
    ensures multiset(xs[1..]) == multiset(xs) - multiset{xs[0]}
  {
    assert xs == [xs[0]] + xs[1..];
  }

  lemma FirstIsLeast(xs: seq<string>, x: string)
    requires Ascending(xs) && x in multiset(xs)
    ensures xs != [] && StringLeq(xs[0], x)
  {
    assert x in xs;
    var i :| 0 <= i < |xs| && xs[i] == x;
    LeqTotal(x, x);
  }

  lemma SameLeast(xs: seq<string>, ys: seq<string>)
    requires Ascending(xs) && Ascending(ys) && multiset(xs) == multiset(ys) && xs != [] && ys != []
    ensures xs[0] == ys[0]
  {
    assert xs[0] in multiset(xs) && ys[0] in multiset(ys);
    FirstIsLeast(ys, xs[0]);
    FirstIsLeast(xs, ys[0]);
    LeqTotal(xs[0], ys[0]);
  }

  /** Approvals of one run, for ids without commas and at least one each: they have the same key, and so the
      second is answered with the run of the first, exactly if they name the same ids equally often. */
  lemma ApprovalsShareAKeyIff(key: string, xs: seq<string>, ys: seq<string>)
    requires CommaFree(xs) && CommaFree(ys) && xs != [] && ys != []
    ensures ApprovalKey(key, xs) == ApprovalKey(key, ys) <==> multiset(xs) == multiset(ys)
  {
    SortedPermutes(xs);
    SortedPermutes(ys);
    if multiset(xs) == multiset(ys) {
      SortedAscends(xs);
      SortedAscends(ys);
      AscendingIsUnique(Sorted(xs), Sorted(ys));
    }
    if ApprovalKey(key, xs) == ApprovalKey(key, ys) {
      SameRest(key + ":approved:", Join(Sorted(xs)), Join(Sorted(ys)));
      SortedCommaFree(xs);
      SortedCommaFree(ys);
      JoinPieces(Sorted(xs));
      JoinPieces(Sorted(ys));
    }
  }

  /** A comma in an id confuses it with two ids, and approving nothing is confused with approving the blank id. */
  lemma CommasConfuseApprovals(key: string)
    ensures ApprovalKey(key, ["a,b"]) == ApprovalKey(key, ["a", "b"])
    ensures ApprovalKey(key, []) == ApprovalKey(key, [""])
  {
    assert ["a", "b"][1..] == ["b"] && ["b"][1..] == [] && ["a,b"][1..] == [] && [""][1..] == [];
    assert Sorted([]) == [] && Sorted(["b"]) == ["b"] && Sorted(["a,b"]) == ["a,b"] && Sorted([""]) == [""];
    assert StringLeq("a", "b");
    assert Sorted(["a", "b"]) == ["a", "b"];
    assert Join(["b"]) == "b" && Join(["a", "b"]) == "a" + "," + "b" == "a,b" == Join(["a,b"]);
  }
}
