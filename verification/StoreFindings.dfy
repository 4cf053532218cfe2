/**
 Which findings get stored: of a list of findings those that are new, when an event arrives those of the rules that
 run on arrival, and in a scheduled sweep those of the rules that run on schedule, on every event of the window.
 */
module StoreFindings {
  import opened Common
  import opened Sorting
  import opened Detection
  import opened Store

  /** The fingerprints the tenant has among the rows. */
  function KnownIn(rows: seq<FindingRow>, tenantId: string): set<string> {
    set k | 0 <= k < |rows| && rows[k].tenantId == tenantId :: rows[k].finding.fingerprint
  }

  lemma KnownMore(rows: seq<FindingRow>, tenantId: string, f: Finding, evidenceIds: seq<nat>)
    ensures KnownIn(rows + [FindingRow(tenantId, f, evidenceIds)], tenantId) == KnownIn(rows, tenantId) + {f.fingerprint}
  {
    var more := rows + [FindingRow(tenantId, f, evidenceIds)];
    forall fp ensures fp in KnownIn(more, tenantId) <==> fp in KnownIn(rows, tenantId) || fp == f.fingerprint {
      if fp in KnownIn(rows, tenantId) {
        var k :| 0 <= k < |rows| && rows[k].tenantId == tenantId && rows[k].finding.fingerprint == fp;
        assert more[k] == rows[k];
      }
      if fp == f.fingerprint { assert more[|rows|].finding == f; }
    }
  }

  lemma OpenIsKnown(db: Tables, tenantId: string)
    ensures OpenFor(db, tenantId) == KnownIn(db.findings, tenantId)
  {
    forall fp | fp in OpenFor(db, tenantId) ensures fp in KnownIn(db.findings, tenantId) {
      var r :| r in db.findings && r.tenantId == tenantId && r.finding.fingerprint == fp;
      var k :| 0 <= k < |db.findings| && db.findings[k] == r;
    }
    forall fp | fp in KnownIn(db.findings, tenantId) ensures fp in OpenFor(db, tenantId) {
      var k :| 0 <= k < |db.findings| && db.findings[k].tenantId == tenantId && db.findings[k].finding.fingerprint == fp;
      assert db.findings[k] in db.findings;
    }
  }

  // ---------- a list of findings ----------

  /** Neither suppressed nor known, nor already stored for an earlier finding of the list. */
  ghost predicate IsNew(cfg: Config, known: set<string>, tenantId: string, fs: seq<Finding>, k: nat)
    requires k < |fs|
  {
    && !cfg.suppressed(tenantId, fs[k])
    && fs[k].fingerprint !in known
    && forall j :: 0 <= j < k && !cfg.suppressed(tenantId, fs[j]) ==> fs[j].fingerprint != fs[k].fingerprint
  }

  /** The row added for a finding, with one piece of evidence for each event it cites. */
  ghost predicate RowFor(row: FindingRow, tenantId: string, f: Finding) {
    row.tenantId == tenantId && row.finding == f && |row.evidenceIds| == |f.eventIds|
  }

  /** The tables have grown by rows for the findings at `ks`, in that order, and by evidence. */
  ghost predicate AddsRows(db: Tables, db': Tables, tenantId: string, fs: seq<Finding>, ks: seq<nat>) {
    && db' == db.(evidence := db'.evidence, findings := db'.findings)
    && db.evidence <= db'.evidence && db.findings <= db'.findings
    && |db'.findings| == |db.findings| + |ks|
    && forall i :: 0 <= i < |ks| ==> ks[i] < |fs| && RowFor(db'.findings[|db.findings| + i], tenantId, fs[ks[i]])
  }

  ghost predicate Lists(created: seq<string>, fs: seq<Finding>, ks: seq<nat>) {
    |created| == |ks| && forall i :: 0 <= i < |ks| ==> ks[i] < |fs| && created[i] == fs[ks[i]].fingerprint
  }

  ghost predicate Ascends(ks: seq<nat>) { forall i, j :: 0 <= i < j < |ks| ==> ks[i] < ks[j] }

  lemma {:induction false} RegisterAllAdds(cfg: Config, db: Tables, tenantId: string, eventIds: seq<string>)
    ensures var r := RegisterAll(cfg, db, tenantId, eventIds);
      r.RegisteredAll? ==>
        r.db == db.(evidence := r.db.evidence) && db.evidence <= r.db.evidence && |r.evidenceIds| == |eventIds|
  {
    if eventIds != [] { RegisterAllAdds(cfg, db, tenantId, eventIds[..|eventIds|-1]); }
  }

  lemma StoreOneAdds(cfg: Config, db: Tables, tenantId: string, f: Finding)
    ensures var r := StoreOne(cfg, db, tenantId, f);
      r.Stored? ==>
        if cfg.suppressed(tenantId, f) || f.fingerprint in KnownIn(db.findings, tenantId) then r == Stored(db, [])
        else
          && AddsRows(db, r.db, tenantId, [f], [0]) && r.created == [f.fingerprint]
          && KnownIn(r.db.findings, tenantId) == KnownIn(db.findings, tenantId) + {f.fingerprint}
  {
    var known := Find(db.findings, FindingWith(tenantId, f.fingerprint));
    var r := StoreOne(cfg, db, tenantId, f);
    if known.Some? { assert FindingWith(tenantId, f.fingerprint)(db.findings[known.value]); }
    else {
      forall k | 0 <= k < |db.findings| && db.findings[k].tenantId == tenantId ensures db.findings[k].finding.fingerprint != f.fingerprint {
        assert !FindingWith(tenantId, f.fingerprint)(db.findings[k]);
      }
      RegisterAllAdds(cfg, db, tenantId, f.eventIds);
      if r.Stored? && !cfg.suppressed(tenantId, f) {
        KnownMore(db.findings, tenantId, f, RegisterAll(cfg, db, tenantId, f.eventIds).evidenceIds);
      }
    }
  }

  ghost predicate Produced(cfg: Config, tenantId: string, fs: seq<Finding>, fp: string) {
    exists j :: 0 <= j < |fs| && !cfg.suppressed(tenantId, fs[j]) && fs[j].fingerprint == fp
  }

  lemma ProducedMore(cfg: Config, tenantId: string, init: seq<Finding>, f: Finding, fp: string)
    ensures Produced(cfg, tenantId, init + [f], fp)
            <==> Produced(cfg, tenantId, init, fp) || (!cfg.suppressed(tenantId, f) && f.fingerprint == fp)
  {
    var fs := init + [f];
    if j :| 0 <= j < |init| && !cfg.suppressed(tenantId, init[j]) && init[j].fingerprint == fp { assert fs[j] == init[j]; }
    if !cfg.suppressed(tenantId, f) && f.fingerprint == fp { assert fs[|init|] == f; }
  }

  lemma LastIsNewIff(cfg: Config, known: set<string>, tenantId: string, init: seq<Finding>, f: Finding)
    ensures IsNew(cfg, known, tenantId, init + [f], |init|)
            <==> !cfg.suppressed(tenantId, f) && f.fingerprint !in known && !Produced(cfg, tenantId, init, f.fingerprint)
    ensures forall k :: 0 <= k < |init| ==> (IsNew(cfg, known, tenantId, init + [f], k) <==> IsNew(cfg, known, tenantId, init, k))
  {
    var fs := init + [f];
    assert forall j :: 0 <= j < |init| ==> fs[j] == init[j];
  }

  lemma AddsRowsMore(db: Tables, mid: Tables, db': Tables, tenantId: string, init: seq<Finding>, ks: seq<nat>, f: Finding)
    requires AddsRows(db, mid, tenantId, init, ks) && AddsRows(mid, db', tenantId, [f], [0])
    ensures AddsRows(db, db', tenantId, init + [f], ks + [|init|])
  {
    var fs, more := init + [f], ks + [|init|];
    forall i | 0 <= i < |more| ensures more[i] < |fs| && RowFor(db'.findings[|db.findings| + i], tenantId, fs[more[i]]) {
      if i < |ks| {
        assert mid.findings[|db.findings| + i] == db'.findings[|db.findings| + i] && fs[ks[i]] == init[ks[i]];
      } else {
        assert RowFor(db'.findings[|mid.findings| + 0], tenantId, [f][[0][0]]);
      }
    }
  }

  lemma AddsRowsAlso(db: Tables, mid: Tables, tenantId: string, init: seq<Finding>, ks: seq<nat>, f: Finding)
    requires AddsRows(db, mid, tenantId, init, ks)
    ensures AddsRows(db, mid, tenantId, init + [f], ks)
  {
    assert forall i :: 0 <= i < |ks| ==> (init + [f])[ks[i]] == init[ks[i]];
  }

  /** Storing a list of findings adds a row for each that is new, in order, and lists their fingerprints; afterwards the
      tenant knows the fingerprints known before and those of all findings that are not suppressed. */
  lemma {:induction false} StoresTheNew(cfg: Config, db: Tables, tenantId: string, fs: seq<Finding>) returns (ks: seq<nat>)
    ensures var r := StoreAll(cfg, db, tenantId, fs);
      r.Stored? ==>
        && AddsRows(db, r.db, tenantId, fs, ks) && Lists(r.created, fs, ks) && Ascends(ks)
        && (forall k :: 0 <= k < |fs| ==> (k in ks <==> IsNew(cfg, KnownIn(db.findings, tenantId), tenantId, fs, k)))
        && (forall fp :: fp in KnownIn(r.db.findings, tenantId) <==>
              fp in KnownIn(db.findings, tenantId) || Produced(cfg, tenantId, fs, fp))
  {
    ks := [];
    if fs != [] {
      var init, f := fs[..|fs|-1], fs[|fs|-1];
      assert fs == init + [f];
      ks := StoresTheNew(cfg, db, tenantId, init);
      var front := StoreAll(cfg, db, tenantId, init);
      if StoreAll(cfg, db, tenantId, fs).Stored? {
        ks := StoresOneMore(cfg, db, tenantId, init, f, ks);
      }
    }
  }

  lemma KnownAfterOneMore(cfg: Config, db: Tables, mid: Tables, last: Stored, tenantId: string, init: seq<Finding>, f: Finding)
    requires last == StoreOne(cfg, mid, tenantId, f) && last.Stored?
    requires forall fp :: fp in KnownIn(mid.findings, tenantId) <==> fp in KnownIn(db.findings, tenantId) || Produced(cfg, tenantId, init, fp)
    ensures forall fp :: fp in KnownIn(last.db.findings, tenantId) <==>
      fp in KnownIn(db.findings, tenantId) || Produced(cfg, tenantId, init + [f], fp)
  {
    StoreOneAdds(cfg, mid, tenantId, f);
    forall fp ensures Produced(cfg, tenantId, init + [f], fp)
                      <==> Produced(cfg, tenantId, init, fp) || (!cfg.suppressed(tenantId, f) && f.fingerprint == fp) {
      ProducedMore(cfg, tenantId, init, f, fp);
    }
  }

  lemma StoresOneMore(cfg: Config, db: Tables, tenantId: string, init: seq<Finding>, f: Finding, ks: seq<nat>) returns (ks': seq<nat>)
    requires StoreAll(cfg, db, tenantId, init).Stored? && StoreOne(cfg, StoreAll(cfg, db, tenantId, init).db, tenantId, f).Stored?
    requires var front := StoreAll(cfg, db, tenantId, init);
      && AddsRows(db, front.db, tenantId, init, ks) && Lists(front.created, init, ks) && Ascends(ks)
      && (forall k :: 0 <= k < |init| ==> (k in ks <==> IsNew(cfg, KnownIn(db.findings, tenantId), tenantId, init, k)))
      && (forall fp :: fp in KnownIn(front.db.findings, tenantId) <==>
            fp in KnownIn(db.findings, tenantId) || Produced(cfg, tenantId, init, fp))
    ensures var front := StoreAll(cfg, db, tenantId, init);
      var last := StoreOne(cfg, front.db, tenantId, f);
      && AddsRows(db, last.db, tenantId, init + [f], ks') && Lists(front.created + last.created, init + [f], ks') && Ascends(ks')
      && (forall k :: 0 <= k < |init| + 1 ==> (k in ks' <==> IsNew(cfg, KnownIn(db.findings, tenantId), tenantId, init + [f], k)))
      && (forall fp :: fp in KnownIn(last.db.findings, tenantId) <==>
            fp in KnownIn(db.findings, tenantId) || Produced(cfg, tenantId, init + [f], fp))
  {
    var front := StoreAll(cfg, db, tenantId, init);
    var last := StoreOne(cfg, front.db, tenantId, f);
    StoreOneAdds(cfg, front.db, tenantId, f);
    LastIsNewIff(cfg, KnownIn(db.findings, tenantId), tenantId, init, f);
    KnownAfterOneMore(cfg, db, front.db, last, tenantId, init, f);
    if IsNew(cfg, KnownIn(db.findings, tenantId), tenantId, init + [f], |init|) {
      ks' := ks + [|init|];
      AddsRowsMore(db, front.db, last.db, tenantId, init, ks, f);
    } else {
      ks' := ks;
      AddsRowsAlso(db, front.db, tenantId, init, ks, f);
      assert front.created + [] == front.created;
    }
  }

  // ---------- what rules contribute ----------

  /** The rule runs: not those of realtime execution in a sweep, nor those on schedule when an event arrives. */
  predicate TakesPart(r: Rule, scheduled: bool) {
    if scheduled then r.execution != Realtime else r.execution != Execution.Scheduled
  }

  /** A rule that takes part produces the finding from the event. */
  ghost predicate Finds(cfg: Config, e: Event, c: Context, f: Finding) {
    exists i :: 0 <= i < |cfg.rules| && TakesPart(cfg.rules[i], c.scheduled) && f in cfg.rules[i].evaluate(e, c)
  }

  lemma EvaluatedAreFound(cfg: Config, e: Event, c: Context, f: Finding)
    ensures f in EvaluateAll(cfg.rules, e, c) <==> Finds(cfg, e, c, f)
  {
    FlatMapMembers(cfg.rules, EvaluateOne(e, c), f);
    forall i | 0 <= i < |cfg.rules|
      ensures f in EvaluateOne(e, c)(cfg.rules[i]) <==> TakesPart(cfg.rules[i], c.scheduled) && f in cfg.rules[i].evaluate(e, c)
    {
      var r := cfg.rules[i];
      assert EvaluateOne(e, c)(r) == if Runs(r, c.scheduled) then r.evaluate(e, c) else [];
    }
  }

  /** The findings of the rules that take part, rule after rule. */
  function FindingsOfRules(rules: seq<Rule>, e: Event, c: Context): seq<Finding> {
    if rules == [] then []
    else (if TakesPart(rules[0], c.scheduled) then rules[0].evaluate(e, c) else []) + FindingsOfRules(rules[1..], e, c)
  }

  lemma {:induction false} FindingsOfOneMore(rules: seq<Rule>, r: Rule, e: Event, c: Context)
    ensures FindingsOfRules(rules + [r], e, c) == FindingsOfRules(rules, e, c) + if TakesPart(r, c.scheduled) then r.evaluate(e, c) else []
  {
    if rules == [] {
      assert [r][1..] == [];
    } else {
      var rest := rules[1..];
      FindingsOfOneMore(rest, r, e, c);
      assert (rules + [r])[1..] == rest + [r];
      ConcatAssoc(if TakesPart(rules[0], c.scheduled) then rules[0].evaluate(e, c) else [], FindingsOfRules(rest, e, c),
                  if TakesPart(r, c.scheduled) then r.evaluate(e, c) else []);
    }
  }

  /** Evaluating an event gives the findings in the order of the registry. */
  lemma {:induction false} RulesAreEvaluatedInOrder(rules: seq<Rule>, e: Event, c: Context)
    ensures EvaluateAll(rules, e, c) == FindingsOfRules(rules, e, c)
  {
    if rules != [] {
      var init, r := rules[..|rules|-1], rules[|rules|-1];
      RulesAreEvaluatedInOrder(init, e, c);
      FindingsOfOneMore(init, r, e, c);
      assert rules == init + [r];
      assert EvaluateOne(e, c)(r) == if Runs(r, c.scheduled) then r.evaluate(e, c) else [];
    }
  }

  /** From `before` on up to `after` the rows hold what the event calls for: every finding the rules produce from it, given
      the window and what the tenant knows before, is known after unless it is suppressed; and every row there is
      one of these findings, not known before it. */
  ghost predicate Answered(cfg: Config, tenantId: string, e: Event, window: seq<Event>, scheduled: bool, rows: seq<FindingRow>, before: nat, after: nat) {
    before <= after <= |rows| &&
    var c := Context(window, KnownIn(rows[..before], tenantId), scheduled);
    && (forall f :: Finds(cfg, e, c, f) && !cfg.suppressed(tenantId, f) ==> f.fingerprint in KnownIn(rows[..after], tenantId))
    && (forall k :: before <= k < after ==> AnswersWith(cfg, tenantId, e, c, rows, k))
  }

  ghost predicate AnswersWith(cfg: Config, tenantId: string, e: Event, c: Context, rows: seq<FindingRow>, k: nat)
    requires k < |rows|
  {
    var f := rows[k].finding;
    rows[k].tenantId == tenantId && Finds(cfg, e, c, f) && !cfg.suppressed(tenantId, f) && f.fingerprint !in KnownIn(rows[..k], tenantId)
  }

  lemma KnownWithin(rows: seq<FindingRow>, n: nat, tenantId: string, fp: string)
    requires n <= |rows|
    ensures fp in KnownIn(rows[..n], tenantId) <==> exists k :: 0 <= k < n && rows[k].tenantId == tenantId && rows[k].finding.fingerprint == fp
  {
    if fp in KnownIn(rows[..n], tenantId) {
      var k :| 0 <= k < n && rows[..n][k].tenantId == tenantId && rows[..n][k].finding.fingerprint == fp;
      assert rows[k] == rows[..n][k];
    }
    if k :| 0 <= k < n && rows[k].tenantId == tenantId && rows[k].finding.fingerprint == fp { assert rows[..n][k] == rows[k]; }
  }

  lemma NewRowIsUnknown(cfg: Config, db: Tables, db': Tables, tenantId: string, fs: seq<Finding>, ks: seq<nat>, i: nat)
    requires AddsRows(db, db', tenantId, fs, ks) && Ascends(ks) && i < |ks|
    requires forall k :: 0 <= k < |fs| ==> (k in ks <==> IsNew(cfg, KnownIn(db.findings, tenantId), tenantId, fs, k))
    ensures fs[ks[i]].fingerprint !in KnownIn(db'.findings[..|db.findings| + i], tenantId)
  {
    var rows, n, fp := db'.findings, |db.findings|, fs[ks[i]].fingerprint;
    KnownWithin(rows, n + i, tenantId, fp);
    assert IsNew(cfg, KnownIn(db.findings, tenantId), tenantId, fs, ks[i]);
    forall k | 0 <= k < n + i && rows[k].tenantId == tenantId ensures rows[k].finding.fingerprint != fp {
      if k < n { assert rows[k] == db.findings[k]; }
      else {
        assert RowFor(rows[n + (k - n)], tenantId, fs[ks[k - n]]);
        assert ks[k - n] in ks && IsNew(cfg, KnownIn(db.findings, tenantId), tenantId, fs, ks[k - n]);
      }
    }
  }

  lemma FoundIsProduced(cfg: Config, tenantId: string, e: Event, c: Context, f: Finding)
    requires Finds(cfg, e, c, f) && !cfg.suppressed(tenantId, f)
    ensures Produced(cfg, tenantId, EvaluateAll(cfg.rules, e, c), f.fingerprint)
  {
    EvaluatedAreFound(cfg, e, c, f);
    var fs := EvaluateAll(cfg.rules, e, c);
    var j :| 0 <= j < |fs| && fs[j] == f;
  }

  lemma NewRowAnswers(cfg: Config, db: Tables, db': Tables, tenantId: string, e: Event, c: Context, ks: seq<nat>, i: nat)
    requires var fs := EvaluateAll(cfg.rules, e, c);
      && AddsRows(db, db', tenantId, fs, ks) && Ascends(ks) && i < |ks|
      && forall k :: 0 <= k < |fs| ==> (k in ks <==> IsNew(cfg, KnownIn(db.findings, tenantId), tenantId, fs, k))
    ensures AnswersWith(cfg, tenantId, e, c, db'.findings, |db.findings| + i)
  {
    var fs := EvaluateAll(cfg.rules, e, c);
    assert RowFor(db'.findings[|db.findings| + i], tenantId, fs[ks[i]]);
    assert ks[i] in ks && IsNew(cfg, KnownIn(db.findings, tenantId), tenantId, fs, ks[i]);
    EvaluatedAreFound(cfg, e, c, fs[ks[i]]);
    NewRowIsUnknown(cfg, db, db', tenantId, fs, ks, i);
  }

  /** Evaluating an event and storing what comes out answers it. */
  lemma StoredEventIsAnswered(cfg: Config, db: Tables, tenantId: string, e: Event, window: seq<Event>, scheduled: bool)
    ensures var r := StoreAll(cfg, db, tenantId, EvaluateAll(cfg.rules, e, Context(window, KnownIn(db.findings, tenantId), scheduled)));
      r.Stored? ==>
        && db.findings <= r.db.findings && |r.created| == |r.db.findings| - |db.findings|
        && r.db == db.(evidence := r.db.evidence, findings := r.db.findings)
        && KnownIn(r.db.findings, tenantId) == KnownIn(db.findings, tenantId) + (set x | x in r.created)
        && Answered(cfg, tenantId, e, window, scheduled, r.db.findings, |db.findings|, |r.db.findings|)
  {
    var c := Context(window, KnownIn(db.findings, tenantId), scheduled);
    var fs := EvaluateAll(cfg.rules, e, c);
    var r := StoreAll(cfg, db, tenantId, fs);
    var ks := StoresTheNew(cfg, db, tenantId, fs);
    if r.Stored? {
      var rows, n := r.db.findings, |db.findings|;
      assert rows[..n] == db.findings && rows[..|rows|] == rows;
      forall f | Finds(cfg, e, c, f) && !cfg.suppressed(tenantId, f) ensures f.fingerprint in KnownIn(rows, tenantId) {
        FoundIsProduced(cfg, tenantId, e, c, f);
      }
      forall k | n <= k < |rows| ensures AnswersWith(cfg, tenantId, e, c, rows, k) {
        NewRowAnswers(cfg, db, r.db, tenantId, e, c, ks, k - n);
      }
      CreatedAreKnown(db, r.db, tenantId, fs, ks, r.created);
    }
  }

  lemma CreatedAreKnown(db: Tables, db': Tables, tenantId: string, fs: seq<Finding>, ks: seq<nat>, created: seq<string>)
    requires AddsRows(db, db', tenantId, fs, ks) && Lists(created, fs, ks)
    ensures KnownIn(db'.findings, tenantId) == KnownIn(db.findings, tenantId) + set x | x in created
  {
    var rows, n := db'.findings, |db.findings|;
    forall fp ensures fp in KnownIn(rows, tenantId) <==> fp in KnownIn(db.findings, tenantId) || fp in created {
      if fp in KnownIn(rows, tenantId) {
        var k :| 0 <= k < |rows| && rows[k].tenantId == tenantId && rows[k].finding.fingerprint == fp;
        if k < n { assert rows[k] == db.findings[k]; }
        else { assert RowFor(rows[n + (k - n)], tenantId, fs[ks[k - n]]) && created[k - n] == fp; }
      }
      if fp in KnownIn(db.findings, tenantId) {
        var k :| 0 <= k < n && db.findings[k].tenantId == tenantId && db.findings[k].finding.fingerprint == fp;
        assert rows[k] == db.findings[k];
      }
      if i :| 0 <= i < |created| && created[i] == fp { assert RowFor(rows[n + i], tenantId, fs[ks[i]]); }
    }
  }

  /** When an event arrives, it is answered by the rules that run on arrival, given the tenant's stored window. */
  lemma ArrivalIsAnswered(cfg: Config, db: Tables, tenantId: string, e: Event)
    ensures var r := EvaluateAndStore(cfg, db, tenantId, e);
      r.Stored? ==>
        && db.findings <= r.db.findings && |r.created| == |r.db.findings| - |db.findings|
        && Answered(cfg, tenantId, e, LoadWindow(db, tenantId), false, r.db.findings, |db.findings|, |r.db.findings|)
  {
    OpenIsKnown(db, tenantId);
    StoredEventIsAnswered(cfg, db, tenantId, e, LoadWindow(db, tenantId), false);
  }

  // ---------- the sweep ----------

  /** The rows of the tables hold, between the cuts, the answers to the events from `i` on. */
  ghost predicate SweptFrom(cfg: Config, tenantId: string, window: seq<Event>, i: nat, rows: seq<FindingRow>, cuts: seq<nat>) {
    && i <= |window| && |cuts| == |window| - i + 1 && cuts[|window| - i] == |rows|
    && forall j :: i <= j < |window| ==> Answered(cfg, tenantId, window[j], window, true, rows, cuts[j - i], cuts[j - i + 1])
  }

  lemma AnsweredStill(cfg: Config, tenantId: string, e: Event, window: seq<Event>, rows: seq<FindingRow>, rows': seq<FindingRow>, before: nat, after: nat)
    requires Answered(cfg, tenantId, e, window, true, rows, before, after) && rows <= rows'
    ensures Answered(cfg, tenantId, e, window, true, rows', before, after)
  {
    assert rows'[..before] == rows[..before] && rows'[..after] == rows[..after];
    var c := Context(window, KnownIn(rows[..before], tenantId), true);
    forall k | before <= k < after ensures AnswersWith(cfg, tenantId, e, c, rows', k) {
      assert AnswersWith(cfg, tenantId, e, c, rows, k) && rows'[..k] == rows[..k];
    }
  }

  lemma SweptOneMore(cfg: Config, tenantId: string, window: seq<Event>, i: nat, rows: seq<FindingRow>, before: nat, rest: seq<nat>)
    requires i < |window| && SweptFrom(cfg, tenantId, window, i + 1, rows, rest)
    requires Answered(cfg, tenantId, window[i], window, true, rows, before, rest[0])
    ensures SweptFrom(cfg, tenantId, window, i, rows, [before] + rest)
  {
    var cuts := [before] + rest;
    forall j | i <= j < |window| ensures Answered(cfg, tenantId, window[j], window, true, rows, cuts[j - i], cuts[j - i + 1]) {
      if j > i { assert cuts[j - i] == rest[j - (i + 1)] && cuts[j - i + 1] == rest[j - (i + 1) + 1]; }
    }
  }

  lemma {:induction false} SweepAnswers(cfg: Config, s: Sweep, tenantId: string, window: seq<Event>, i: nat) returns (cuts: seq<nat>)
    requires s.Sweep? && i <= |window| && s.open == KnownIn(s.db.findings, tenantId)
    ensures var r := SweepFrom(cfg, s, tenantId, window, i);
      r.Sweep? ==>
        && SweptFrom(cfg, tenantId, window, i, r.db.findings, cuts) && cuts[0] == |s.db.findings|
        && s.db.findings <= r.db.findings && r.created == s.created + |r.db.findings| - |s.db.findings|
        && r.db == s.db.(evidence := r.db.evidence, findings := r.db.findings)
    decreases |window| - i
  {
    cuts := [|s.db.findings|];
    if i < |window| {
      StoredEventIsAnswered(cfg, s.db, tenantId, window[i], window, true);
      var after := SweepOn(cfg, s, tenantId, window, window[i]);
      if after.Sweep? {
        var rest := SweepAnswers(cfg, after, tenantId, window, i + 1);
        var r := SweepFrom(cfg, s, tenantId, window, i);
        if r.Sweep? {
          AnsweredStill(cfg, tenantId, window[i], window, after.db.findings, r.db.findings, |s.db.findings|, |after.db.findings|);
          SweptOneMore(cfg, tenantId, window, i, r.db.findings, |s.db.findings|, rest);
        }
        cuts := cuts + rest;
      }
    }
  }

  /** A scheduled run answers every event of the tenant's window in turn, each given the whole window and what is
      known by then, with the rules that run on schedule; it adds nothing else and counts what it has added. */
  lemma ScheduledAnswersTheWindow(cfg: Config, db: Tables, tenantId: string) returns (cuts: seq<nat>)
    ensures var s := RunScheduled(cfg, db, tenantId);
      s.Sweep? ==>
        && SweptFrom(cfg, tenantId, LoadWindow(db, tenantId), 0, s.db.findings, cuts) && cuts[0] == |db.findings|
        && db.findings <= s.db.findings && s.created == |s.db.findings| - |db.findings|
        && s.db == db.(evidence := s.db.evidence, findings := s.db.findings)
  {
    OpenIsKnown(db, tenantId);
    cuts := SweepAnswers(cfg, Sweep(db, OpenFor(db, tenantId), 0), tenantId, LoadWindow(db, tenantId), 0);
  }

  // ---------- the window ----------

  /** The tenant's events of one moment, in the order they were stored. */
  function StoredAt(rows: seq<EventRow>, tenantId: string, time: int): seq<Event> {
    if rows == [] then []
    else if rows[0].tenantId == tenantId && rows[0].event.time == time then [rows[0].event] + StoredAt(rows[1..], tenantId, time)
    else StoredAt(rows[1..], tenantId, time)
  }

  function RowAt(time: int): EventRow -> bool { (r: EventRow) => r.event.time == time }

  function EventAt(time: int): Event -> bool { (e: Event) => e.time == time }

  lemma {:induction false} EventsOfRows(rows: seq<EventRow>, time: int)
    ensures |EventsOf(rows)| == |rows| && forall i :: 0 <= i < |rows| ==> EventsOf(rows)[i] == rows[i].event
    ensures Filter(EventsOf(rows), EventAt(time)) == EventsOf(Filter(rows, RowAt(time)))
  {
    if rows != [] {
      EventsOfRows(rows[1..], time);
      assert EventsOf(rows)[1..] == EventsOf(rows[1..]);
      var rest := Filter(rows[1..], RowAt(time));
      assert ([rows[0]] + rest)[1..] == rest;
    }
  }

  lemma {:induction false} OwnRowsAt(rows: seq<EventRow>, tenantId: string, time: int)
    ensures EventsOf(Filter(Filter(rows, OfTenant(tenantId)), RowAt(time))) == StoredAt(rows, tenantId, time)
  {
    if rows != [] {
      OwnRowsAt(rows[1..], tenantId, time);
      var own := Filter(rows[1..], OfTenant(tenantId));
      var rest := Filter(own, RowAt(time));
      assert ([rows[0]] + own)[1..] == own && ([rows[0]] + rest)[1..] == rest;
    }
  }

  /** The window has the tenant's events in time order, those of one moment in the order they were stored; so it has
      every event of the tenant and no other. */
  lemma WindowIsTheTenants(db: Tables, tenantId: string)
    ensures var window := LoadWindow(db, tenantId);
      && (forall i, j :: 0 <= i < j < |window| ==> window[i].time <= window[j].time)
      && forall time :: Filter(window, EventAt(time)) == StoredAt(db.events, tenantId, time)
  {
    var own := Filter(db.events, OfTenant(tenantId));
    var rows := SortBy(own, RowTime());
    SortSpec(own, RowTime());
    EventsOfRows(rows, 0);
    forall i, j | 0 <= i < j < |rows| ensures rows[i].event.time <= rows[j].event.time {
      assert RowTime()(rows[i]) <= RowTime()(rows[j]);
    }
    forall time ensures Filter(LoadWindow(db, tenantId), EventAt(time)) == StoredAt(db.events, tenantId, time) {
      EventsOfRows(rows, time);
      SortStable(own, RowTime(), RowAt(time), time);
      OwnRowsAt(db.events, tenantId, time);
    }
  }
}
