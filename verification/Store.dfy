/**
 The stored side of detection: ingesting payloads, evaluating rules over the stored window, and
 the rows for events, evidence, findings and dead letters.  Rows are only ever appended, so an
 evidence row's position is its id.
 */
module Store {
  import opened Common
  import opened Sorting
  import opened Detection

  type Payload = map<string, string>

  datatype EventRow = EventRow(id: string, tenantId: string, rawHash: string, event: Event)
  datatype EvidenceRow = EvidenceRow(tenantId: string, eventId: string, integrityHash: string, collector: string)
  datatype FindingRow = FindingRow(tenantId: string, finding: Finding, evidenceIds: seq<nat>)
  datatype DeadLetterRow = DeadLetterRow(tenantId: string, reason: string, payload: Payload)

  datatype Tables = Tables(
    events: seq<EventRow>, evidence: seq<EvidenceRow>, findings: seq<FindingRow>, deadLetters: seq<DeadLetterRow>, drawn: nat)

  const EMPTY_TABLES := Tables([], [], [], [], 0)

  /** What a new id and the clock give at one moment. */
  datatype Draw = Draw(id: string, now: int)

  /** Normalising (with enrichment) raises, or yields an event and the raw hash to store.  The payload may
      carry an id and a time of its own; where it does not, the event gets a new id and the clock's time. */
  datatype NormResult = Normal(ownId: Option<string>, ownTime: Option<int>, fields: Event, rawHash: string) | Raises(reason: string)

  predicate HasOwnId(n: NormResult)
    requires n.Normal?
  {
    n.ownId.Some? && n.ownId.value != ""
  }

  predicate HasKey(n: NormResult)
    requires n.Normal?
  {
    n.fields.idempotencyKey.Some? && n.fields.idempotencyKey.value != ""
  }

  function Named(n: NormResult, d: Draw): Event
    requires n.Normal?
  {
    n.fields.(id := if HasOwnId(n) then n.ownId.value else d.id, time := if n.ownTime.Some? then n.ownTime.value else d.now)
  }

  datatype Config = Config(
    rules: seq<Rule>, normalize: (Payload, string) -> NormResult, draw: nat -> Draw,
    suppressed: (string, Finding) -> bool, collector: string)

  // ---------- queries ----------

  function EvidenceFor(tenantId: string, eventId: string): EvidenceRow -> bool {
    (r: EvidenceRow) => r.tenantId == tenantId && r.eventId == eventId
  }

  function EventWithId(id: string): EventRow -> bool { (r: EventRow) => r.id == id }

  function OwnEvent(tenantId: string, id: string): EventRow -> bool {
    (r: EventRow) => r.tenantId == tenantId && r.id == id
  }

  function EventWithKey(tenantId: string, key: string): EventRow -> bool {
    (r: EventRow) => r.tenantId == tenantId && r.event.idempotencyKey == Some(key)
  }

  function FindingWith(tenantId: string, fingerprint: string): FindingRow -> bool {
    (r: FindingRow) => r.tenantId == tenantId && r.finding.fingerprint == fingerprint
  }

  function OfTenant(tenantId: string): EventRow -> bool { (r: EventRow) => r.tenantId == tenantId }

  function RowTime(): EventRow -> int { (r: EventRow) => r.event.time }

  function EventsOf(rows: seq<EventRow>): seq<Event> {
    if rows == [] then [] else [rows[0].event] + EventsOf(rows[1..])
  }

  /** The tenant's events in time order. */
  function LoadWindow(db: Tables, tenantId: string): seq<Event> {
    EventsOf(SortBy(Filter(db.events, OfTenant(tenantId)), RowTime()))
  }

  function OpenFor(db: Tables, tenantId: string): set<string> {
    set r | r in db.findings && r.tenantId == tenantId :: r.finding.fingerprint
  }

  // ---------- evidence ----------

  /** SourceMissing stands for the EVIDENCE_SOURCE_MISSING error, which leaves the operation. */
  datatype Registered = Registered(db: Tables, evidenceId: nat) | SourceMissing

  function Register(cfg: Config, db: Tables, tenantId: string, eventId: string): Registered {
    var existing := Find(db.evidence, EvidenceFor(tenantId, eventId));
    if existing.Some? then Registered(db, existing.value)
    else
      var source := Find(db.events, OwnEvent(tenantId, eventId));
      if source.None? then SourceMissing
      else
        var row := EvidenceRow(tenantId, eventId, db.events[source.value].rawHash, cfg.collector);
        Registered(db.(evidence := db.evidence + [row]), |db.evidence|)
  }

  datatype RegisteredAll = RegisteredAll(db: Tables, evidenceIds: seq<nat>) | SomeSourceMissing

  function RegisterAll(cfg: Config, db: Tables, tenantId: string, eventIds: seq<string>): RegisteredAll {
    if eventIds == [] then RegisteredAll(db, [])
    else
      var front := RegisterAll(cfg, db, tenantId, eventIds[..|eventIds|-1]);
      if front.SomeSourceMissing? then front
      else
        var last := Register(cfg, front.db, tenantId, eventIds[|eventIds|-1]);
        if last.SourceMissing? then SomeSourceMissing else RegisteredAll(last.db, front.evidenceIds + [last.evidenceId])
  }

  datatype Verification = Intact(integrityHash: string) | NotIntact | NotFound

  function VerifyEvidence(db: Tables, tenantId: string, evidenceId: nat): Verification {
    if evidenceId >= |db.evidence| || db.evidence[evidenceId].tenantId != tenantId then NotFound
    else
      var row := db.evidence[evidenceId];
      var source := Find(db.events, OwnEvent(tenantId, row.eventId));
      if source.None? || db.events[source.value].rawHash != row.integrityHash then NotIntact
      else Intact(row.integrityHash)
  }

  // ---------- findings ----------

  /** `created` lists the fingerprints of the rows added. */
  datatype Stored = Stored(db: Tables, created: seq<string>) | Failed

  function StoreOne(cfg: Config, db: Tables, tenantId: string, f: Finding): Stored {
    if cfg.suppressed(tenantId, f) then Stored(db, [])
    else if Find(db.findings, FindingWith(tenantId, f.fingerprint)).Some? then Stored(db, [])
    else
      var r := RegisterAll(cfg, db, tenantId, f.eventIds);
      if r.SomeSourceMissing? then Failed
      else Stored(r.db.(findings := r.db.findings + [FindingRow(tenantId, f, r.evidenceIds)]), [f.fingerprint])
  }

  function StoreAll(cfg: Config, db: Tables, tenantId: string, fs: seq<Finding>): Stored {
    if fs == [] then Stored(db, [])
    else
      var front := StoreAll(cfg, db, tenantId, fs[..|fs|-1]);
      if front.Failed? then Failed
      else
        var last := StoreOne(cfg, front.db, tenantId, fs[|fs|-1]);
        if last.Failed? then Failed else Stored(last.db, front.created + last.created)
  }

  function EvaluateAndStore(cfg: Config, db: Tables, tenantId: string, e: Event): Stored {
    StoreAll(cfg, db, tenantId, EvaluateAll(cfg.rules, e, Context(LoadWindow(db, tenantId), OpenFor(db, tenantId), false)))
  }

  datatype Sweep = Sweep(db: Tables, open: set<string>, created: nat) | SweepFailed

  /** The rest of a scheduled run, from the event at `i` on. */
  function SweepFrom(cfg: Config, s: Sweep, tenantId: string, window: seq<Event>, i: nat): Sweep
    requires s.Sweep? && i <= |window|
    decreases |window| - i
  {
    if i == |window| then s
    else
      var after := SweepOn(cfg, s, tenantId, window, window[i]);
      if after.SweepFailed? then SweepFailed else SweepFrom(cfg, after, tenantId, window, i + 1)
  }

  /** One more event: what it added is open from then on. */
  function SweepOn(cfg: Config, s: Sweep, tenantId: string, window: seq<Event>, e: Event): Sweep
    requires s.Sweep?
  {
    var r := StoreAll(cfg, s.db, tenantId, EvaluateAll(cfg.rules, e, Context(window, s.open, true)));
    if r.Failed? then SweepFailed
    else Sweep(r.db, s.open + (set x | x in r.created), s.created + |r.created|)
  }

  function RunScheduled(cfg: Config, db: Tables, tenantId: string): Sweep {
    var window := LoadWindow(db, tenantId);
    if window == [] then Sweep(db, {}, 0) else SweepFrom(cfg, Sweep(db, OpenFor(db, tenantId), 0), tenantId, window, 0)
  }

  // ---------- ingestion ----------

  /** A rejection is buried under one reason and reported under another. */
  datatype Verdict = Reject(buried: string, reported: string) | Duplicate(id: string) | Accept(event: Event, rawHash: string)

  /** Reasons are cut at 200 characters when they are buried. */
  function Shortened(reason: string): string { if |reason| > 200 then reason[..200] else reason }

  function Classify(cfg: Config, db: Tables, tenantId: string, p: Payload): Verdict {
    match cfg.normalize(p, tenantId)
    case Raises(reason) => Reject(Shortened(reason), reason)
    case n =>
      var e := Named(n, cfg.draw(db.drawn));
      var byKey := if HasKey(n) then Find(db.events, EventWithKey(tenantId, n.fields.idempotencyKey.value)) else None;
      if byKey.Some? then Duplicate(db.events[byKey.value].id)
      else
        var byId := Find(db.events, EventWithId(e.id));
        if byId.None? then Accept(e, n.rawHash)
        else if db.events[byId.value].tenantId != tenantId then Reject("event id collision across tenants", "event id collision")
        else Duplicate(db.events[byId.value].id)
  }

  function NextDraw(db: Tables): Tables { db.(drawn := db.drawn + 1) }

  datatype Ingest = Ingest(db: Tables, accepted: seq<string>, duplicates: seq<string>, rejected: seq<string>, findings: nat) | IngestFailed

  function IngestOne(cfg: Config, tenantId: string, s: Ingest, p: Payload): Ingest
    requires s.Ingest?
  {
    Carry(cfg, tenantId, s.(db := NextDraw(s.db)), p, Classify(cfg, s.db, tenantId, p))
  }

  /** Act on the verdict. */
  function Carry(cfg: Config, tenantId: string, s: Ingest, p: Payload, v: Verdict): Ingest
    requires s.Ingest?
  {
    match v
    case Reject(buried, reported) =>
      s.(db := s.db.(deadLetters := s.db.deadLetters + [DeadLetterRow(tenantId, buried, p)]), rejected := s.rejected + [reported])
    case Duplicate(id) => s.(duplicates := s.duplicates + [id])
    case Accept(e, rawHash) =>
      var inserted := s.db.(events := s.db.events + [EventRow(e.id, tenantId, rawHash, e)]);
      var r := EvaluateAndStore(cfg, inserted, tenantId, e);
      if r.Failed? then IngestFailed
      else s.(db := r.db, accepted := s.accepted + [e.id], findings := s.findings + |r.created|)
  }

  function IngestAll(cfg: Config, db: Tables, tenantId: string, ps: seq<Payload>): Ingest {
    if ps == [] then Ingest(db, [], [], [], 0)
    else
      var s := IngestAll(cfg, db, tenantId, ps[..|ps|-1]);
      if s.IngestFailed? then s else IngestOne(cfg, tenantId, s, ps[|ps|-1])
  }

  // ---------- the services, with their loops ----------

  class Database {
    const cfg: Config
    var tables: Tables

    constructor (cfg: Config)
      ensures this.cfg == cfg && tables == EMPTY_TABLES
    {
      this.cfg := cfg;
      tables := EMPTY_TABLES;
    }

    method RegisterEventEvidence(tenantId: string, eventId: string) returns (r: Option<nat>)
      modifies this
      ensures match Register(cfg, old(tables), tenantId, eventId)
        case Registered(db, id) => tables == db && r == Some(id)
        case SourceMissing => tables == old(tables) && r == None
    {
      var existing := Find(tables.evidence, EvidenceFor(tenantId, eventId));
      if existing.Some? {
        return existing;
      }
      var source := Find(tables.events, OwnEvent(tenantId, eventId));
      if source.None? {
        return None;
      }
      r := Some(|tables.evidence|);
      tables := tables.(evidence := tables.evidence + [EvidenceRow(tenantId, eventId, tables.events[source.value].rawHash, cfg.collector)]);
    }

    method RegisterEvents(tenantId: string, eventIds: seq<string>) returns (ids: Option<seq<nat>>)
      modifies this
      ensures match RegisterAll(cfg, old(tables), tenantId, eventIds)
        case RegisteredAll(db, evidenceIds) => tables == db && ids == Some(evidenceIds)
        case SomeSourceMissing => ids == None
    {
      ghost var before := tables;
      var evidenceIds: seq<nat> := [];
      var i := 0;
      while i < |eventIds|
        invariant 0 <= i <= |eventIds|
        invariant RegisterAll(cfg, before, tenantId, eventIds[..i]) == RegisteredAll(tables, evidenceIds)
      {
        RegisterOneMore(cfg, before, tenantId, eventIds, i);
        var r := RegisterEventEvidence(tenantId, eventIds[i]);
        if r.None? {
          MissingStays(cfg, before, tenantId, eventIds, i + 1);
          return None;
        }
        evidenceIds := evidenceIds + [r.value];
        i := i + 1;
      }
      assert eventIds[..i] == eventIds;
      ids := Some(evidenceIds);
    }

    method StoreFindings(tenantId: string, findings: seq<Finding>) returns (created: Option<seq<string>>)
      modifies this
      ensures match StoreAll(cfg, old(tables), tenantId, findings)
        case Stored(db, fps) => tables == db && created == Some(fps)
        case Failed => created == None
    {
      var fps: seq<string> := [];
      var i := 0;
      while i < |findings|
        invariant 0 <= i <= |findings|
        invariant StoreAll(cfg, old(tables), tenantId, findings[..i]) == Stored(tables, fps)
      {
        var finding := findings[i];
        assert findings[..i+1][..i] == findings[..i] && fps + [] == fps;
        i := i + 1;
        if cfg.suppressed(tenantId, finding) {
          continue;
        }
        if Find(tables.findings, FindingWith(tenantId, finding.fingerprint)).Some? {
          continue;
        }
        var evidenceIds := RegisterEvents(tenantId, finding.eventIds);
        if evidenceIds.None? {
          FailureStays(cfg, old(tables), tenantId, findings, i);
          return None;
        }
        tables := tables.(findings := tables.findings + [FindingRow(tenantId, finding, evidenceIds.value)]);
        fps := fps + [finding.fingerprint];
      }
      assert findings[..i] == findings;
      created := Some(fps);
    }

    method EvaluateStored(tenantId: string, event: Event) returns (created: Option<seq<string>>)
      modifies this
      ensures match EvaluateAndStore(cfg, old(tables), tenantId, event)
        case Stored(db, fps) => tables == db && created == Some(fps)
        case Failed => created == None
    {
      var context := Context(LoadWindow(tables, tenantId), OpenFor(tables, tenantId), false);
      created := StoreFindings(tenantId, EvaluateAll(cfg.rules, event, context));
    }

    /** One event of the sweep: the fingerprints it stored are open afterwards. */
    method SweepEvent(tenantId: string, window: seq<Event>, event: Event, before: Sweep) returns (after: Sweep)
      requires before.Sweep? && before.db == tables
      modifies this
      ensures after == SweepOn(cfg, before, tenantId, window, event)
      ensures after.Sweep? ==> tables == after.db
    {
      var fps := StoreFindings(tenantId, EvaluateAll(cfg.rules, event, Context(window, before.open, true)));
      if fps.None? {
        return SweepFailed;
      }
      after := Sweep(tables, before.open + (set x | x in fps.value), before.created + |fps.value|);
    }

    method Scheduled(tenantId: string) returns (created: Option<nat>)
      modifies this
      ensures match RunScheduled(cfg, old(tables), tenantId)
        case Sweep(db, _, n) => tables == db && created == Some(n)
        case SweepFailed => created == None
    {
      var window := LoadWindow(tables, tenantId);
      if window == [] {
        return Some(0);
      }
      var s := Sweep(tables, OpenFor(tables, tenantId), 0);
      var i := 0;
      while i < |window|
        invariant 0 <= i <= |window|
        invariant s.Sweep? && s.db == tables && SweepFrom(cfg, s, tenantId, window, i) == RunScheduled(cfg, old(tables), tenantId)
      {
        s := SweepEvent(tenantId, window, window[i], s);
        i := i + 1;
        if s.SweepFailed? {
          return None;
        }
      }
      created := Some(s.created);
    }

    /** Act on the verdict about one payload. */
    method Settle(tenantId: string, payload: Payload, verdict: Verdict, before: Ingest) returns (after: Ingest)
      requires before.Ingest? && before.db == tables
      modifies this
      ensures after == Carry(cfg, tenantId, before, payload, verdict)
      ensures after.Ingest? ==> tables == after.db
    {
      match verdict {
        case Reject(buried, reported) =>
          tables := tables.(deadLetters := tables.deadLetters + [DeadLetterRow(tenantId, buried, payload)]);
          after := before.(db := tables, rejected := before.rejected + [reported]);
        case Duplicate(id) =>
          after := before.(duplicates := before.duplicates + [id]);
        case Accept(event, rawHash) =>
          tables := tables.(events := tables.events + [EventRow(event.id, tenantId, rawHash, event)]);
          var created := EvaluateStored(tenantId, event);
          if created.None? {
            return IngestFailed;
          }
          after := before.(db := tables, accepted := before.accepted + [event.id], findings := before.findings + |created.value|);
      }
    }

    method IngestPayloads(tenantId: string, payloads: seq<Payload>) returns (r: Ingest)
      modifies this
      ensures r == IngestAll(cfg, old(tables), tenantId, payloads)
      ensures r.Ingest? ==> tables == r.db
    {
      ghost var before := tables;
      r := Ingest(tables, [], [], [], 0);
      var i := 0;
      while i < |payloads|
        invariant 0 <= i <= |payloads|
        invariant r.Ingest? && r.db == tables && r == IngestAll(cfg, before, tenantId, payloads[..i])
      {
        IngestOneMore(cfg, before, tenantId, payloads, i);
        var verdict := Classify(cfg, tables, tenantId, payloads[i]);
        tables := NextDraw(tables);
        r := Settle(tenantId, payloads[i], verdict, r.(db := tables));
        i := i + 1;
        if r.IngestFailed? {
          IngestFailureStays(cfg, before, tenantId, payloads, i);
          return;
        }
      }
      assert payloads[..i] == payloads;
    }
  }

  lemma IngestOneMore(cfg: Config, db: Tables, tenantId: string, ps: seq<Payload>, n: nat)
    requires n < |ps|
    ensures var s := IngestAll(cfg, db, tenantId, ps[..n]);
      IngestAll(cfg, db, tenantId, ps[..n+1]) == if s.IngestFailed? then s else IngestOne(cfg, tenantId, s, ps[n])
  {
    assert ps[..n+1][..n] == ps[..n];
  }

  lemma RegisterOneMore(cfg: Config, db: Tables, tenantId: string, ids: seq<string>, i: nat)
    requires i < |ids| && RegisterAll(cfg, db, tenantId, ids[..i]).RegisteredAll?
    ensures var front := RegisterAll(cfg, db, tenantId, ids[..i]);
      RegisterAll(cfg, db, tenantId, ids[..i+1]) ==
        match Register(cfg, front.db, tenantId, ids[i])
        case SourceMissing => SomeSourceMissing
        case Registered(after, id) => RegisteredAll(after, front.evidenceIds + [id])
  {
    assert ids[..i+1][..i] == ids[..i];
  }

  // An error that leaves a loop leaves the whole operation.

  lemma {:induction false} MissingStays(cfg: Config, db: Tables, tenantId: string, ids: seq<string>, n: nat)
    requires n <= |ids| && RegisterAll(cfg, db, tenantId, ids[..n]).SomeSourceMissing?
    ensures RegisterAll(cfg, db, tenantId, ids).SomeSourceMissing?
    decreases |ids| - n
  {
    if n < |ids| {
      assert ids[..n+1][..n] == ids[..n];
      MissingStays(cfg, db, tenantId, ids, n + 1);
    } else {
      assert ids[..n] == ids;
    }
  }

  lemma {:induction false} FailureStays(cfg: Config, db: Tables, tenantId: string, fs: seq<Finding>, n: nat)
    requires n <= |fs| && StoreAll(cfg, db, tenantId, fs[..n]).Failed?
    ensures StoreAll(cfg, db, tenantId, fs).Failed?
    decreases |fs| - n
  {
    if n < |fs| {
      assert fs[..n+1][..n] == fs[..n];
      FailureStays(cfg, db, tenantId, fs, n + 1);
    } else {
      assert fs[..n] == fs;
    }
  }

  lemma {:induction false} IngestFailureStays(cfg: Config, db: Tables, tenantId: string, ps: seq<Payload>, n: nat)
    requires n <= |ps| && IngestAll(cfg, db, tenantId, ps[..n]).IngestFailed?
    ensures IngestAll(cfg, db, tenantId, ps).IngestFailed?
    decreases |ps| - n
  {
    if n < |ps| {
      assert ps[..n+1][..n] == ps[..n];
      IngestFailureStays(cfg, db, tenantId, ps, n + 1);
    } else {
      assert ps[..n] == ps;
    }
  }
}
