/**
 Over any run of ingests and scheduled sweeps, for any tenants: references hold, evidence stays
 intact, fingerprints stay unique, tenants stay apart; and ingest accounts for every payload.
 */
module StoreProofs {
  import opened Common
  import opened Sorting
  import opened Detection
  import opened Store

  // ---------- the invariant ----------

  ghost predicate EventsDistinct(db: Tables) {
    && (forall i, j :: 0 <= i < j < |db.events| ==> db.events[i].id != db.events[j].id)
    && (forall i :: 0 <= i < |db.events| ==> db.events[i].event.id == db.events[i].id)
  }

  ghost predicate HasEvent(db: Tables, tenantId: string, id: string) {
    exists i :: 0 <= i < |db.events| && db.events[i].tenantId == tenantId && db.events[i].id == id
  }

  /** The evidence row's source event is stored, in the same tenant and with the same hash. */
  ghost predicate Backed(db: Tables, r: EvidenceRow) {
    exists i :: 0 <= i < |db.events| && db.events[i].tenantId == r.tenantId && db.events[i].id == r.eventId
                && db.events[i].rawHash == r.integrityHash
  }

  ghost predicate EvidenceSound(db: Tables) {
    && (forall k :: 0 <= k < |db.evidence| ==> Backed(db, db.evidence[k]))
    && (forall k, l :: 0 <= k < l < |db.evidence| ==>
          !(db.evidence[k].tenantId == db.evidence[l].tenantId && db.evidence[k].eventId == db.evidence[l].eventId))
  }

  /** Position by position, the evidence ids name rows of the same tenant for the event ids. */
  ghost predicate Matches(db: Tables, tenantId: string, eventIds: seq<string>, evidenceIds: seq<nat>) {
    && |evidenceIds| == |eventIds|
    && forall k :: 0 <= k < |eventIds| ==>
         evidenceIds[k] < |db.evidence| && db.evidence[evidenceIds[k]].tenantId == tenantId && db.evidence[evidenceIds[k]].eventId == eventIds[k]
  }

  ghost predicate FindingsSound(db: Tables) {
    && (forall i :: 0 <= i < |db.findings| ==>
          Matches(db, db.findings[i].tenantId, db.findings[i].finding.eventIds, db.findings[i].evidenceIds))
    && (forall i, j :: 0 <= i < j < |db.findings| ==>
          !(db.findings[i].tenantId == db.findings[j].tenantId && db.findings[i].finding.fingerprint == db.findings[j].finding.fingerprint))
  }

  ghost predicate Sound(db: Tables) {
    EventsDistinct(db) && EvidenceSound(db) && FindingsSound(db)
  }

  /** Rows are only appended, and only rows of the tenant. */
  ghost predicate Grows(db: Tables, db': Tables, tenantId: string) {
    && db.events <= db'.events && db.evidence <= db'.evidence && db.findings <= db'.findings && db.deadLetters <= db'.deadLetters
    && (forall i :: |db.events| <= i < |db'.events| ==> db'.events[i].tenantId == tenantId)
    && (forall i :: |db.evidence| <= i < |db'.evidence| ==> db'.evidence[i].tenantId == tenantId)
    && (forall i :: |db.findings| <= i < |db'.findings| ==> db'.findings[i].tenantId == tenantId)
    && (forall i :: |db.deadLetters| <= i < |db'.deadLetters| ==> db'.deadLetters[i].tenantId == tenantId)
  }

  lemma GrowsTransitive(a: Tables, b: Tables, c: Tables, tenantId: string)
    requires Grows(a, b, tenantId) && Grows(b, c, tenantId)
    ensures Grows(a, c, tenantId)
  {
    assert forall i :: 0 <= i < |b.events| ==> c.events[i] == b.events[i];
    assert forall i :: 0 <= i < |b.evidence| ==> c.evidence[i] == b.evidence[i];
    assert forall i :: 0 <= i < |b.findings| ==> c.findings[i] == b.findings[i];
    assert forall i :: 0 <= i < |b.deadLetters| ==> c.deadLetters[i] == b.deadLetters[i];
  }

  /** As Grows, with nothing but evidence and findings added. */
  ghost predicate Annotates(db: Tables, db': Tables, tenantId: string) {
    Grows(db, db', tenantId) && db'.events == db.events && db'.deadLetters == db.deadLetters && db'.drawn == db.drawn
  }

  // ---------- evidence ----------

  lemma RegisterKeeps(cfg: Config, db: Tables, tenantId: string, eventId: string)
    requires EvidenceSound(db) && HasEvent(db, tenantId, eventId)
    ensures var r := Register(cfg, db, tenantId, eventId);
      && r.Registered?
      && EvidenceSound(r.db) && r.db == db.(evidence := r.db.evidence) && Annotates(db, r.db, tenantId)
      && r.evidenceId < |r.db.evidence|
      && r.db.evidence[r.evidenceId].tenantId == tenantId && r.db.evidence[r.evidenceId].eventId == eventId
  {
    var existing := Find(db.evidence, EvidenceFor(tenantId, eventId));
    var source := Find(db.events, OwnEvent(tenantId, eventId));
    var i :| 0 <= i < |db.events| && db.events[i].tenantId == tenantId && db.events[i].id == eventId;
    assert OwnEvent(tenantId, eventId)(db.events[i]);
    var r := Register(cfg, db, tenantId, eventId);
    if existing.Some? {
      assert EvidenceFor(tenantId, eventId)(db.evidence[existing.value]);
    } else {
      assert OwnEvent(tenantId, eventId)(db.events[source.value]);
      forall k | 0 <= k < |db.evidence| ensures Backed(r.db, db.evidence[k]) {
        assert Backed(db, db.evidence[k]);
        assert !EvidenceFor(tenantId, eventId)(db.evidence[k]);
      }
      assert Backed(r.db, r.db.evidence[|db.evidence|]);
    }
  }

  lemma {:induction false} RegisterAllKeeps(cfg: Config, db: Tables, tenantId: string, eventIds: seq<string>)
    requires EvidenceSound(db) && forall k :: 0 <= k < |eventIds| ==> HasEvent(db, tenantId, eventIds[k])
    ensures var r := RegisterAll(cfg, db, tenantId, eventIds);
      && r.RegisteredAll?
      && EvidenceSound(r.db) && r.db == db.(evidence := r.db.evidence) && Annotates(db, r.db, tenantId)
      && Matches(r.db, tenantId, eventIds, r.evidenceIds)
  {
    if eventIds != [] {
      var init, last := eventIds[..|eventIds|-1], eventIds[|eventIds|-1];
      RegisterAllKeeps(cfg, db, tenantId, init);
      var front := RegisterAll(cfg, db, tenantId, init);
      assert HasEvent(db, tenantId, eventIds[|eventIds|-1]);
      HasEventStill(db, front.db, tenantId, last);
      RegisterKeeps(cfg, front.db, tenantId, last);
      var r := Register(cfg, front.db, tenantId, last);
      GrowsTransitive(db, front.db, r.db, tenantId);
      MatchesOneMore(front.db, r.db, tenantId, init, front.evidenceIds, last, r.evidenceId);
      assert init + [last] == eventIds;
    }
  }

  lemma HasEventStill(db: Tables, db': Tables, tenantId: string, id: string)
    requires HasEvent(db, tenantId, id) && db'.events == db.events
    ensures HasEvent(db', tenantId, id)
  {
  }

  lemma MatchesGrow(db: Tables, db': Tables, tenantId: string, eventIds: seq<string>, evidenceIds: seq<nat>)
    requires Matches(db, tenantId, eventIds, evidenceIds) && db.evidence <= db'.evidence
    ensures Matches(db', tenantId, eventIds, evidenceIds)
  {
  }

  lemma MatchesAppend(db: Tables, tenantId: string, eventIds: seq<string>, evidenceIds: seq<nat>, eventId: string, evidenceId: nat)
    requires Matches(db, tenantId, eventIds, evidenceIds) && evidenceId < |db.evidence|
    requires db.evidence[evidenceId].tenantId == tenantId && db.evidence[evidenceId].eventId == eventId
    ensures Matches(db, tenantId, eventIds + [eventId], evidenceIds + [evidenceId])
  {
  }

  lemma MatchesOneMore(db: Tables, db': Tables, tenantId: string, eventIds: seq<string>, evidenceIds: seq<nat>, eventId: string, evidenceId: nat)
    requires Matches(db, tenantId, eventIds, evidenceIds) && db.evidence <= db'.evidence && evidenceId < |db'.evidence|
    requires db'.evidence[evidenceId].tenantId == tenantId && db'.evidence[evidenceId].eventId == eventId
    ensures Matches(db', tenantId, eventIds + [eventId], evidenceIds + [evidenceId])
  {
    MatchesGrow(db, db', tenantId, eventIds, evidenceIds);
    MatchesAppend(db', tenantId, eventIds, evidenceIds, eventId, evidenceId);
  }

  // ---------- findings ----------

  ghost predicate CitesStored(db: Tables, tenantId: string, f: Finding) {
    forall k :: 0 <= k < |f.eventIds| ==> HasEvent(db, tenantId, f.eventIds[k])
  }

  lemma StoreOneKeeps(cfg: Config, db: Tables, tenantId: string, f: Finding)
    requires Sound(db) && CitesStored(db, tenantId, f)
    ensures var r := StoreOne(cfg, db, tenantId, f);
      r.Stored? && Sound(r.db) && Annotates(db, r.db, tenantId)
  {
    var dup := Find(db.findings, FindingWith(tenantId, f.fingerprint));
    if !cfg.suppressed(tenantId, f) && dup.None? {
      RegisterAllKeeps(cfg, db, tenantId, f.eventIds);
      var r := RegisterAll(cfg, db, tenantId, f.eventIds);
      var row := FindingRow(tenantId, f, r.evidenceIds);
      var db' := r.db.(findings := r.db.findings + [row]);
      assert EvidenceSound(db') by {
        forall k | 0 <= k < |db'.evidence| ensures Backed(db', db'.evidence[k]) { assert Backed(r.db, r.db.evidence[k]); }
      }
      AddFinding(db, r.db, row);
    }
  }

  lemma AddFinding(db: Tables, mid: Tables, row: FindingRow)
    requires FindingsSound(db) && mid.findings == db.findings && db.evidence <= mid.evidence
    requires Matches(mid, row.tenantId, row.finding.eventIds, row.evidenceIds)
    requires Find(db.findings, FindingWith(row.tenantId, row.finding.fingerprint)).None?
    ensures FindingsSound(mid.(findings := mid.findings + [row]))
  {
    var db' := mid.(findings := mid.findings + [row]);
    forall i | 0 <= i < |db'.findings|
      ensures Matches(db', db'.findings[i].tenantId, db'.findings[i].finding.eventIds, db'.findings[i].evidenceIds)
    {
      if i < |db.findings| {
        MatchesGrow(db, db', db.findings[i].tenantId, db.findings[i].finding.eventIds, db.findings[i].evidenceIds);
      } else {
        MatchesGrow(mid, db', row.tenantId, row.finding.eventIds, row.evidenceIds);
      }
    }
    forall i | 0 <= i < |db.findings|
      ensures !(db.findings[i].tenantId == row.tenantId && db.findings[i].finding.fingerprint == row.finding.fingerprint)
    {
      assert !FindingWith(row.tenantId, row.finding.fingerprint)(db.findings[i]);
    }
  }

  lemma {:induction false} StoreAllKeeps(cfg: Config, db: Tables, tenantId: string, fs: seq<Finding>)
    requires Sound(db) && forall i :: 0 <= i < |fs| ==> CitesStored(db, tenantId, fs[i])
    ensures var r := StoreAll(cfg, db, tenantId, fs);
      r.Stored? && Sound(r.db) && Annotates(db, r.db, tenantId)
  {
    if fs != [] {
      var init, f := fs[..|fs|-1], fs[|fs|-1];
      StoreAllKeeps(cfg, db, tenantId, init);
      var front := StoreAll(cfg, db, tenantId, init);
      CitesStillStored(db, front.db, tenantId, f);
      StoreOneKeeps(cfg, front.db, tenantId, f);
      GrowsTransitive(db, front.db, StoreOne(cfg, front.db, tenantId, f).db, tenantId);
    }
  }

  lemma CitesStillStored(db: Tables, db': Tables, tenantId: string, f: Finding)
    requires CitesStored(db, tenantId, f) && db'.events == db.events
    ensures CitesStored(db', tenantId, f)
  {
    forall k | 0 <= k < |f.eventIds| ensures HasEvent(db', tenantId, f.eventIds[k]) {
      assert HasEvent(db, tenantId, f.eventIds[k]);
    }
  }

  // ---------- rules and windows ----------

  ghost predicate RulesCite(cfg: Config) {
    forall i :: 0 <= i < |cfg.rules| ==> CitesWhatItSaw(cfg.rules[i])
  }

  lemma {:induction false} EventsOfMembers(rows: seq<EventRow>, e: Event)
    ensures e in EventsOf(rows) <==> exists i :: 0 <= i < |rows| && rows[i].event == e
    ensures |EventsOf(rows)| == |rows|
  {
    if rows != [] {
      EventsOfMembers(rows[1..], e);
      if i :| 0 <= i < |rows[1..]| && rows[1..][i].event == e { assert rows[i+1].event == e; }
      if i :| 0 <= i < |rows| && rows[i].event == e {
        if i > 0 { assert rows[1..][i-1].event == e; }
      }
    }
  }

  lemma WindowIsStored(db: Tables, tenantId: string, e: Event)
    requires EventsDistinct(db) && e in LoadWindow(db, tenantId)
    ensures HasEvent(db, tenantId, e.id)
  {
    var own := Filter(db.events, OfTenant(tenantId));
    var rows := SortBy(own, RowTime());
    EventsOfMembers(rows, e);
    var i :| 0 <= i < |rows| && rows[i].event == e;
    SortMembers(own, RowTime());
    FilterMembers(db.events, OfTenant(tenantId));
    assert rows[i] in db.events && OfTenant(tenantId)(rows[i]);
    var k :| 0 <= k < |db.events| && db.events[k] == rows[i];
  }

  /** Findings evaluated against the tenant's stored window cite stored events. */
  lemma EvaluatedCiteStored(cfg: Config, db: Tables, tenantId: string, e: Event, window: seq<Event>, open: set<string>, scheduled: bool)
    requires RulesCite(cfg) && HasEvent(db, tenantId, e.id)
    requires forall w :: w in window ==> HasEvent(db, tenantId, w.id)
    ensures var fs := EvaluateAll(cfg.rules, e, Context(window, open, scheduled));
      forall i :: 0 <= i < |fs| ==> CitesStored(db, tenantId, fs[i])
  {
    var c := Context(window, open, scheduled);
    var fs := EvaluateAll(cfg.rules, e, c);
    forall i, k | 0 <= i < |fs| && 0 <= k < |fs[i].eventIds| ensures HasEvent(db, tenantId, fs[i].eventIds[k]) {
      var f := fs[i];
      FlatMapMembers(cfg.rules, EvaluateOne(e, c), f);
      var j :| 0 <= j < |cfg.rules| && f in EvaluateOne(e, c)(cfg.rules[j]);
      assert CitesWhatItSaw(cfg.rules[j]) && f in cfg.rules[j].evaluate(e, c);
      assert CitedFrom(f.eventIds[k], e, c);
    }
  }

  /** Evaluating one stored event against a window of stored events, and storing what comes out. */
  lemma EvaluatedStoreKeeps(cfg: Config, db: Tables, tenantId: string, e: Event, c: Context)
    requires RulesCite(cfg) && Sound(db) && HasEvent(db, tenantId, e.id)
    requires forall w :: w in c.window ==> HasEvent(db, tenantId, w.id)
    ensures var r := StoreAll(cfg, db, tenantId, EvaluateAll(cfg.rules, e, c));
      r.Stored? && Sound(r.db) && Annotates(db, r.db, tenantId)
  {
    EvaluatedCiteStored(cfg, db, tenantId, e, c.window, c.open, c.scheduled);
    StoreAllKeeps(cfg, db, tenantId, EvaluateAll(cfg.rules, e, c));
  }

  lemma EvaluateAndStoreKeeps(cfg: Config, db: Tables, tenantId: string, e: Event)
    requires RulesCite(cfg) && Sound(db) && HasEvent(db, tenantId, e.id)
    ensures var r := EvaluateAndStore(cfg, db, tenantId, e);
      r.Stored? && Sound(r.db) && Annotates(db, r.db, tenantId)
  {
    var window := LoadWindow(db, tenantId);
    forall w | w in window ensures HasEvent(db, tenantId, w.id) { WindowIsStored(db, tenantId, w); }
    EvaluatedStoreKeeps(cfg, db, tenantId, e, Context(window, OpenFor(db, tenantId), false));
  }

  ghost predicate AllStored(db: Tables, tenantId: string, window: seq<Event>) {
    forall w :: w in window ==> HasEvent(db, tenantId, w.id)
  }

  lemma AllStillStored(db: Tables, db': Tables, tenantId: string, window: seq<Event>)
    requires AllStored(db, tenantId, window) && db'.events == db.events
    ensures AllStored(db', tenantId, window)
  {
    forall w | w in window ensures HasEvent(db', tenantId, w.id) { assert HasEvent(db, tenantId, w.id); }
  }

  lemma SweepOnKeeps(cfg: Config, s: Sweep, tenantId: string, window: seq<Event>, i: nat)
    requires s.Sweep? && RulesCite(cfg) && Sound(s.db) && i < |window| && AllStored(s.db, tenantId, window)
    ensures var r := SweepOn(cfg, s, tenantId, window, window[i]);
      r.Sweep? && Sound(r.db) && Annotates(s.db, r.db, tenantId) && AllStored(r.db, tenantId, window)
  {
    EvaluatedStoreKeeps(cfg, s.db, tenantId, window[i], Context(window, s.open, true));
    AllStillStored(s.db, SweepOn(cfg, s, tenantId, window, window[i]).db, tenantId, window);
  }

  lemma {:induction false} SweepKeeps(cfg: Config, s: Sweep, tenantId: string, window: seq<Event>, i: nat)
    requires s.Sweep? && RulesCite(cfg) && Sound(s.db) && i <= |window| && AllStored(s.db, tenantId, window)
    ensures var r := SweepFrom(cfg, s, tenantId, window, i);
      r.Sweep? && Sound(r.db) && Annotates(s.db, r.db, tenantId)
    decreases |window| - i
  {
    if i < |window| {
      SweepOnKeeps(cfg, s, tenantId, window, i);
      var after := SweepOn(cfg, s, tenantId, window, window[i]);
      SweepKeeps(cfg, after, tenantId, window, i + 1);
      GrowsTransitive(s.db, after.db, SweepFrom(cfg, after, tenantId, window, i + 1).db, tenantId);
    }
  }

  lemma ScheduledKeeps(cfg: Config, db: Tables, tenantId: string)
    requires RulesCite(cfg) && Sound(db)
    ensures var s := RunScheduled(cfg, db, tenantId);
      s.Sweep? && Sound(s.db) && Annotates(db, s.db, tenantId)
  {
    var window := LoadWindow(db, tenantId);
    forall w | w in window ensures HasEvent(db, tenantId, w.id) { WindowIsStored(db, tenantId, w); }
    if window != [] { SweepKeeps(cfg, Sweep(db, OpenFor(db, tenantId), 0), tenantId, window, 0); }
  }

  // ---------- ingestion ----------

  lemma InsertKeeps(db: Tables, row: EventRow)
    requires Sound(db) && row.event.id == row.id
    requires Find(db.events, EventWithId(row.id)).None?
    ensures var db' := db.(events := db.events + [row]);
      Sound(db') && HasEvent(db', row.tenantId, row.id) && Grows(db, db', row.tenantId)
  {
    var db' := db.(events := db.events + [row]);
    forall i | 0 <= i < |db.events| ensures db.events[i].id != row.id {
      assert !EventWithId(row.id)(db.events[i]);
    }
    assert db'.events[|db.events|] == row;
    forall k | 0 <= k < |db'.evidence| ensures Backed(db', db'.evidence[k]) {
      assert Backed(db, db.evidence[k]);
      var i :| 0 <= i < |db.events| && db.events[i].tenantId == db.evidence[k].tenantId && db.events[i].id == db.evidence[k].eventId
               && db.events[i].rawHash == db.evidence[k].integrityHash;
      assert db'.events[i] == db.events[i];
    }
    forall i | 0 <= i < |db'.findings|
      ensures Matches(db', db'.findings[i].tenantId, db'.findings[i].finding.eventIds, db'.findings[i].evidenceIds)
    {
      MatchesGrow(db, db', db.findings[i].tenantId, db.findings[i].finding.eventIds, db.findings[i].evidenceIds);
    }
  }

  lemma BuryKeeps(db: Tables, row: DeadLetterRow)
    requires Sound(db)
    ensures var db' := db.(deadLetters := db.deadLetters + [row]); Sound(db') && Grows(db, db', row.tenantId)
  {
    var db' := db.(deadLetters := db.deadLetters + [row]);
    forall k | 0 <= k < |db'.evidence| ensures Backed(db', db'.evidence[k]) { assert Backed(db, db.evidence[k]); }
    forall i | 0 <= i < |db'.findings|
      ensures Matches(db', db'.findings[i].tenantId, db'.findings[i].finding.eventIds, db'.findings[i].evidenceIds)
    {
      MatchesGrow(db, db', db.findings[i].tenantId, db.findings[i].finding.eventIds, db.findings[i].evidenceIds);
    }
  }

  lemma AcceptKeeps(cfg: Config, db: Tables, tenantId: string, e: Event, rawHash: string)
    requires RulesCite(cfg) && Sound(db) && Find(db.events, EventWithId(e.id)).None?
    ensures var inserted := db.(events := db.events + [EventRow(e.id, tenantId, rawHash, e)]);
      var r := EvaluateAndStore(cfg, inserted, tenantId, e);
      r.Stored? && Sound(r.db) && Grows(db, r.db, tenantId) && Annotates(inserted, r.db, tenantId)
  {
    var row := EventRow(e.id, tenantId, rawHash, e);
    InsertKeeps(db, row);
    var inserted := db.(events := db.events + [row]);
    EvaluateAndStoreKeeps(cfg, inserted, tenantId, e);
    GrowsTransitive(db, inserted, EvaluateAndStore(cfg, inserted, tenantId, e).db, tenantId);
  }

  lemma DrawKeeps(db: Tables)
    requires Sound(db)
    ensures Sound(NextDraw(db))
  {
    var db' := NextDraw(db);
    forall k | 0 <= k < |db'.evidence| ensures Backed(db', db'.evidence[k]) { assert Backed(db, db.evidence[k]); }
    forall i | 0 <= i < |db'.findings|
      ensures Matches(db', db'.findings[i].tenantId, db'.findings[i].finding.eventIds, db'.findings[i].evidenceIds)
    {
      MatchesGrow(db, db', db.findings[i].tenantId, db.findings[i].finding.eventIds, db.findings[i].evidenceIds);
    }
  }

  lemma IngestOneKeeps(cfg: Config, tenantId: string, s: Ingest, p: Payload)
    requires RulesCite(cfg) && s.Ingest? && Sound(s.db)
    ensures var r := IngestOne(cfg, tenantId, s, p);
      && r.Ingest? && Sound(r.db) && Grows(s.db, r.db, tenantId)
      && |r.accepted| + |r.duplicates| + |r.rejected| == |s.accepted| + |s.duplicates| + |s.rejected| + 1
      && |r.db.deadLetters| - |s.db.deadLetters| == |r.rejected| - |s.rejected|
      && |r.db.events| - |s.db.events| == |r.accepted| - |s.accepted|
      && r.db.drawn == s.db.drawn + 1
  {
    var db := NextDraw(s.db);
    DrawKeeps(s.db);
    match Classify(cfg, s.db, tenantId, p) {
      case Reject(buried, _) => BuryKeeps(db, DeadLetterRow(tenantId, buried, p));
      case Duplicate(id) =>
      case Accept(e, rawHash) => AcceptKeeps(cfg, db, tenantId, e, rawHash);
    }
  }

  /** A batch from a sound store: it never fails, the store stays sound, every payload is accounted for
      (accepted, duplicate or rejected), dead letters grow by the rejected and events by the accepted,
      and no row of any tenant is changed or removed nor any row of another tenant added. */
  lemma {:induction false} IngestAccountsForEveryPayload(cfg: Config, db: Tables, tenantId: string, ps: seq<Payload>)
    requires RulesCite(cfg) && Sound(db)
    ensures var r := IngestAll(cfg, db, tenantId, ps);
      && r.Ingest? && Sound(r.db) && Grows(db, r.db, tenantId)
      && |r.accepted| + |r.duplicates| + |r.rejected| == |ps|
      && |r.db.deadLetters| == |db.deadLetters| + |r.rejected|
      && |r.db.events| == |db.events| + |r.accepted|
      && r.db.drawn == db.drawn + |ps|
  {
    if ps != [] {
      var init, p := ps[..|ps|-1], ps[|ps|-1];
      IngestAccountsForEveryPayload(cfg, db, tenantId, init);
      var s := IngestAll(cfg, db, tenantId, init);
      IngestOneKeeps(cfg, tenantId, s, p);
      GrowsTransitive(db, s.db, IngestOne(cfg, tenantId, s, p).db, tenantId);
    }
  }

  // ---------- what a batch reports ----------

  lemma {:induction false} EvidenceLeavesFindings(cfg: Config, db: Tables, tenantId: string, eventIds: seq<string>)
    ensures var r := RegisterAll(cfg, db, tenantId, eventIds);
      r.RegisteredAll? ==> r.db.findings == db.findings
  {
    if eventIds != [] { EvidenceLeavesFindings(cfg, db, tenantId, eventIds[..|eventIds|-1]); }
  }

  lemma {:induction false} CreatedCounts(cfg: Config, db: Tables, tenantId: string, fs: seq<Finding>)
    ensures var r := StoreAll(cfg, db, tenantId, fs);
      r.Stored? ==> |r.db.findings| == |db.findings| + |r.created|
  {
    if fs != [] {
      var init, f := fs[..|fs|-1], fs[|fs|-1];
      CreatedCounts(cfg, db, tenantId, init);
      var front := StoreAll(cfg, db, tenantId, init);
      if front.Stored? { EvidenceLeavesFindings(cfg, front.db, tenantId, f.eventIds); }
    }
  }

  /** The report `r` of a batch that began with `db`: accepted ids are those of the added event rows and
      rejections are the added dead letters, both in order; duplicates name stored events of the tenant;
      and the findings counted are those added. */
  ghost predicate Reports(db: Tables, tenantId: string, r: Ingest)
    requires r.Ingest? && Grows(db, r.db, tenantId)
  {
    && |r.db.events| == |db.events| + |r.accepted|
    && (forall i {:trigger r.accepted[i]} :: 0 <= i < |r.accepted| ==> r.db.events[|db.events| + i].id == r.accepted[i])
    && |r.db.deadLetters| == |db.deadLetters| + |r.rejected|
    && (forall i {:trigger r.rejected[i]} :: 0 <= i < |r.rejected| ==> Matching(r.db.deadLetters[|db.deadLetters| + i].reason, r.rejected[i]))
    && (forall i :: 0 <= i < |r.duplicates| ==> HasEvent(r.db, tenantId, r.duplicates[i]))
    && |r.db.findings| == |db.findings| + r.findings
  }

  predicate Matching(buried: string, reported: string) {
    buried == Shortened(reported) || (buried == "event id collision across tenants" && reported == "event id collision")
  }

  lemma StaysStored(db: Tables, db': Tables, tenantId: string, id: string)
    requires HasEvent(db, tenantId, id) && db.events <= db'.events
    ensures HasEvent(db', tenantId, id)
  {
    var i :| 0 <= i < |db.events| && db.events[i].tenantId == tenantId && db.events[i].id == id;
    assert db'.events[i] == db.events[i];
  }

  lemma DuplicatesStay(db: Tables, tenantId: string, s: Ingest, r: Ingest)
    requires s.Ingest? && r.Ingest? && Grows(db, s.db, tenantId) && Grows(s.db, r.db, tenantId) && Reports(db, tenantId, s)
    ensures forall i :: 0 <= i < |s.duplicates| ==> HasEvent(r.db, tenantId, s.duplicates[i])
  {
    forall i | 0 <= i < |s.duplicates| ensures HasEvent(r.db, tenantId, s.duplicates[i]) {
      StaysStored(s.db, r.db, tenantId, s.duplicates[i]);
    }
  }

  ghost predicate AcceptsOneMore(s: Ingest, r: Ingest)
    requires s.Ingest? && r.Ingest?
  {
    exists row: EventRow :: r.db.events == s.db.events + [row] && r.accepted == s.accepted + [row.id]
  }

  ghost predicate RejectsOneMore(s: Ingest, r: Ingest)
    requires s.Ingest? && r.Ingest?
  {
    exists row: DeadLetterRow, reported {:trigger Matching(row.reason, reported)} ::
      Matching(row.reason, reported) && r.rejected == s.rejected + [reported] && r.db.deadLetters == s.db.deadLetters + [row]
  }

  /** A report that adds at most one row of each kind to a report that holds. */
  lemma ReportGrows(db: Tables, tenantId: string, s: Ingest, r: Ingest)
    requires s.Ingest? && r.Ingest? && Grows(db, s.db, tenantId) && Grows(s.db, r.db, tenantId) && Reports(db, tenantId, s)
    requires (r.accepted == s.accepted && r.db.events == s.db.events) || AcceptsOneMore(s, r)
    requires (r.rejected == s.rejected && r.db.deadLetters == s.db.deadLetters) || RejectsOneMore(s, r)
    requires r.duplicates == s.duplicates || exists id :: HasEvent(s.db, tenantId, id) && r.duplicates == s.duplicates + [id]
    requires |r.db.findings| - |s.db.findings| == r.findings - s.findings
    ensures Grows(db, r.db, tenantId) && Reports(db, tenantId, r)
  {
    GrowsTransitive(db, s.db, r.db, tenantId);
    DuplicatesStay(db, tenantId, s, r);
    forall i | 0 <= i < |r.duplicates| ensures HasEvent(r.db, tenantId, r.duplicates[i]) {
      if i == |s.duplicates| { StaysStored(s.db, r.db, tenantId, r.duplicates[i]); }
    }
  }

  lemma IngestOneReports(cfg: Config, db: Tables, tenantId: string, s: Ingest, p: Payload)
    requires RulesCite(cfg) && s.Ingest? && Sound(s.db) && Grows(db, s.db, tenantId) && Reports(db, tenantId, s)
    ensures var r := IngestOne(cfg, tenantId, s, p);
      r.Ingest? && Grows(db, r.db, tenantId) && Reports(db, tenantId, r)
  {
    var r := IngestOne(cfg, tenantId, s, p);
    IngestOneKeeps(cfg, tenantId, s, p);
    match Classify(cfg, s.db, tenantId, p) {
      case Reject(buried, reported) =>
        var row := DeadLetterRow(tenantId, buried, p);
        assert Matching(row.reason, reported);
        assert RejectsOneMore(s, r);
      case Duplicate(id) => assert HasEvent(s.db, tenantId, id);
      case Accept(e, rawHash) =>
        DrawKeeps(s.db);
        AcceptReports(cfg, NextDraw(s.db), tenantId, e, rawHash);
        assert AcceptsOneMore(s, r) by {
          var row := EventRow(e.id, tenantId, rawHash, e);
          assert r.db.events == s.db.events + [row] && r.accepted == s.accepted + [row.id];
        }
    }
    ReportGrows(db, tenantId, s, r);
  }

  lemma AcceptReports(cfg: Config, db: Tables, tenantId: string, e: Event, rawHash: string)
    requires RulesCite(cfg) && Sound(db) && Find(db.events, EventWithId(e.id)).None?
    ensures var row := EventRow(e.id, tenantId, rawHash, e);
      var r := EvaluateAndStore(cfg, db.(events := db.events + [row]), tenantId, e);
      && r.Stored? && r.db.events == db.events + [row] && r.db.deadLetters == db.deadLetters
      && |r.db.findings| == |db.findings| + |r.created|
  {
    AcceptKeeps(cfg, db, tenantId, e, rawHash);
    var inserted := db.(events := db.events + [EventRow(e.id, tenantId, rawHash, e)]);
    CreatedCounts(cfg, inserted, tenantId,
      EvaluateAll(cfg.rules, e, Context(LoadWindow(inserted, tenantId), OpenFor(inserted, tenantId), false)));
  }

  /** The report of a batch says what happened to the tables. */
  lemma {:induction false} IngestReportsWhatItDid(cfg: Config, db: Tables, tenantId: string, ps: seq<Payload>)
    requires RulesCite(cfg) && Sound(db)
    ensures var r := IngestAll(cfg, db, tenantId, ps);
      r.Ingest? && Grows(db, r.db, tenantId) && Reports(db, tenantId, r)
  {
    if ps != [] {
      var init := ps[..|ps|-1];
      IngestReportsWhatItDid(cfg, db, tenantId, init);
      IngestAccountsForEveryPayload(cfg, db, tenantId, init);
      IngestOneReports(cfg, db, tenantId, IngestAll(cfg, db, tenantId, init), ps[|ps|-1]);
    }
  }

  // ---------- any run ----------

  datatype Op = DoIngest(tenantId: string, payloads: seq<Payload>) | DoScheduled(tenantId: string)

  datatype Run = Run(db: Tables, failed: bool)

  /** Any sequence of ingests and sweeps; a failed one leaves the tables as they were. */
  function RunAll(cfg: Config, ops: seq<Op>): Run {
    if ops == [] then Run(EMPTY_TABLES, false)
    else
      var r := RunAll(cfg, ops[..|ops|-1]);
      match ops[|ops|-1]
      case DoIngest(t, ps) =>
        var i := IngestAll(cfg, r.db, t, ps);
        if i.Ingest? then Run(i.db, r.failed) else Run(r.db, true)
      case DoScheduled(t) =>
        var s := RunScheduled(cfg, r.db, t);
        if s.Sweep? then Run(s.db, r.failed) else Run(r.db, true)
  }

  /** In every state reachable by ingests and scheduled sweeps over any tenants, no operation has failed
      for want of an evidence source, and the store is sound: each finding's evidence ids match its event
      ids position by position with evidence rows of its tenant, whose source events are stored with the
      same hash, and fingerprints are unique per tenant. */
  lemma {:induction false} ReachableStoresAreSound(cfg: Config, ops: seq<Op>)
    requires RulesCite(cfg)
    ensures Sound(RunAll(cfg, ops).db) && !RunAll(cfg, ops).failed
  {
    if ops != [] {
      ReachableStoresAreSound(cfg, ops[..|ops|-1]);
      var r := RunAll(cfg, ops[..|ops|-1]);
      match ops[|ops|-1] {
        case DoIngest(t, ps) => IngestAccountsForEveryPayload(cfg, r.db, t, ps);
        case DoScheduled(t) => ScheduledKeeps(cfg, r.db, t);
      }
    }
  }

  /** In every such state, verification finds the evidence of every finding intact. */
  lemma FindingEvidenceVerifies(cfg: Config, ops: seq<Op>, i: nat, k: nat)
    requires RulesCite(cfg)
    requires var db := RunAll(cfg, ops).db; i < |db.findings| && k < |db.findings[i].finding.eventIds|
    ensures var db := RunAll(cfg, ops).db;
      var row := db.findings[i];
      k < |row.evidenceIds| && VerifyEvidence(db, row.tenantId, row.evidenceIds[k]).Intact?
  {
    ReachableStoresAreSound(cfg, ops);
    var db := RunAll(cfg, ops).db;
    var row := db.findings[i];
    assert Matches(db, row.tenantId, row.finding.eventIds, row.evidenceIds);
    SoundEvidenceVerifies(db, row.evidenceIds[k]);
  }

  lemma SoundEvidenceVerifies(db: Tables, id: nat)
    requires EventsDistinct(db) && EvidenceSound(db) && id < |db.evidence|
    ensures VerifyEvidence(db, db.evidence[id].tenantId, id) == Intact(db.evidence[id].integrityHash)
  {
    var row := db.evidence[id];
    assert Backed(db, row);
    var i :| 0 <= i < |db.events| && db.events[i].tenantId == row.tenantId && db.events[i].id == row.eventId
             && db.events[i].rawHash == row.integrityHash;
    assert OwnEvent(row.tenantId, row.eventId)(db.events[i]);
    var source := Find(db.events, OwnEvent(row.tenantId, row.eventId));
    assert OwnEvent(row.tenantId, row.eventId)(db.events[source.value]);
    assert source.value == i;
  }

  /** Verification is exact in any store whose event ids are distinct: it answers intact exactly for
      evidence of the tenant whose source event is stored, in that tenant, with the same hash. */
  lemma VerifyEvidenceIff(db: Tables, tenantId: string, id: nat)
    requires EventsDistinct(db)
    ensures VerifyEvidence(db, tenantId, id).Intact? <==>
            id < |db.evidence| && db.evidence[id].tenantId == tenantId && Backed(db, db.evidence[id])
  {
    if id < |db.evidence| && db.evidence[id].tenantId == tenantId {
      var row := db.evidence[id];
      var source := Find(db.events, OwnEvent(tenantId, row.eventId));
      if source.Some? { assert OwnEvent(tenantId, row.eventId)(db.events[source.value]); }
      if Backed(db, row) {
        var i :| 0 <= i < |db.events| && db.events[i].tenantId == row.tenantId && db.events[i].id == row.eventId
                 && db.events[i].rawHash == row.integrityHash;
        assert OwnEvent(tenantId, row.eventId)(db.events[i]);
        assert source.value == i;
      }
    }
  }
}
