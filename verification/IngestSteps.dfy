/** What ingesting one payload does to the tables and the report, told from the payload, the tables and the draw. */
module IngestSteps {
  import opened Common
  import opened Detection
  import opened Store
  import opened StoreFindings

  /** The event to store: the payload's own id and time where it has them, blank ids not counting, and else those drawn. */
  predicate IsEventOf(e: Event, ownId: Option<string>, ownTime: Option<int>, fields: Event, d: Draw) {
    && e.id == (match ownId case None => d.id case Some(id) => if id == "" then d.id else id)
    && e.time == (match ownTime case None => d.now case Some(t) => t)
    && e.tenantId == fields.tenantId && e.eventType == fields.eventType && e.category == fields.category && e.outcome == fields.outcome
    && e.action == fields.action && e.srcIp == fields.srcIp && e.userName == fields.userName && e.idempotencyKey == fields.idempotencyKey
  }

  /** The tenant has stored an event with this non-empty key, in the row at `k`, and none before it. */
  ghost predicate KeyAt(db: Tables, tenantId: string, key: Option<string>, k: nat) {
    && key.Some? && key.value != "" && k < |db.events|
    && db.events[k].tenantId == tenantId && db.events[k].event.idempotencyKey == key
    && forall j :: 0 <= j < k && db.events[j].tenantId == tenantId ==> db.events[j].event.idempotencyKey != key
  }

  ghost predicate KeyKnown(db: Tables, tenantId: string, key: Option<string>) { exists k: nat :: KeyAt(db, tenantId, key, k) }

  /** Some tenant has stored an event with this id, in the row at `k`, and none before it. */
  ghost predicate IdAt(db: Tables, id: string, k: nat) {
    k < |db.events| && db.events[k].id == id && forall j :: 0 <= j < k ==> db.events[j].id != id
  }

  ghost predicate IdKnown(db: Tables, id: string) { exists k: nat :: IdAt(db, id, k) }

  // ---------- the three outcomes ----------

  /** Everything is as it was but for the draw and what is named. */
  ghost predicate Rejects(s: Ingest, r: Ingest, tenantId: string, p: Payload, buried: string, reported: string)
    requires s.Ingest?
  {
    r == Ingest(
      s.db.(drawn := s.db.drawn + 1, deadLetters := s.db.deadLetters + [DeadLetterRow(tenantId, buried, p)]),
      s.accepted, s.duplicates, s.rejected + [reported], s.findings)
  }

  ghost predicate Repeats(s: Ingest, r: Ingest, id: string)
    requires s.Ingest?
  {
    r == Ingest(s.db.(drawn := s.db.drawn + 1), s.accepted, s.duplicates + [id], s.rejected, s.findings)
  }

  /** The event gets a row with the raw hash, is answered by the rules that run on arrival given a window that has it,
      and the findings stored are counted. */
  ghost predicate Accepts(cfg: Config, s: Ingest, r: Ingest, tenantId: string, e: Event, rawHash: string)
    requires s.Ingest?
  {
    var inserted := s.db.(drawn := s.db.drawn + 1, events := s.db.events + [EventRow(e.id, tenantId, rawHash, e)]);
    r.Ingest? ==>
      && r.db == inserted.(evidence := r.db.evidence, findings := r.db.findings) && s.db.findings <= r.db.findings
      && r == Ingest(r.db, s.accepted + [e.id], s.duplicates, s.rejected, s.findings + |r.db.findings| - |s.db.findings|)
      && Answered(cfg, tenantId, e, LoadWindow(inserted, tenantId), false, r.db.findings, |s.db.findings|, |r.db.findings|)
  }

  /** A reason is buried with its first two hundred characters. */
  ghost predicate Cut(buried: string, reason: string) {
    buried <= reason && (|reason| <= 200 ==> buried == reason) && (|reason| > 200 ==> |buried| == 200)
  }

  ghost predicate Settles(cfg: Config, s: Ingest, r: Ingest, tenantId: string, p: Payload, e: Event, rawHash: string)
    requires s.Ingest?
  {
    if KeyKnown(s.db, tenantId, e.idempotencyKey) then
      exists k: nat :: KeyAt(s.db, tenantId, e.idempotencyKey, k) && Repeats(s, r, s.db.events[k].id)
    else if IdKnown(s.db, e.id) then
      exists k: nat :: IdAt(s.db, e.id, k) &&
        if s.db.events[k].tenantId == tenantId then Repeats(s, r, e.id)
        else Rejects(s, r, tenantId, p, "event id collision across tenants", "event id collision")
    else Accepts(cfg, s, r, tenantId, e, rawHash)
  }

  /** What one payload does: one that cannot be normalised is rejected; one whose key the tenant knows is a repeat of the
      event with the key; else one whose id is known is a repeat, or a collision if another tenant has the id; else it
      is accepted. */
  ghost predicate Takes(cfg: Config, s: Ingest, r: Ingest, tenantId: string, p: Payload)
    requires s.Ingest?
  {
    match cfg.normalize(p, tenantId)
    case Raises(reason) => exists buried :: Cut(buried, reason) && Rejects(s, r, tenantId, p, buried, reason)
    case Normal(ownId, ownTime, fields, rawHash) =>
      exists e :: IsEventOf(e, ownId, ownTime, fields, cfg.draw(s.db.drawn)) && Settles(cfg, s, r, tenantId, p, e, rawHash)
  }

  // ---------- one payload ----------

  lemma KeyFound(db: Tables, tenantId: string, key: string)
    requires key != ""
    ensures match Find(db.events, EventWithKey(tenantId, key))
      case None => !KeyKnown(db, tenantId, Some(key))
      case Some(k) => KeyAt(db, tenantId, Some(key), k)
  {
    var found := Find(db.events, EventWithKey(tenantId, key));
    match found {
      case None =>
        forall k: nat ensures !KeyAt(db, tenantId, Some(key), k) {
          if k < |db.events| { assert !EventWithKey(tenantId, key)(db.events[k]); }
        }
      case Some(k) =>
        assert EventWithKey(tenantId, key)(db.events[k]);
        forall j | 0 <= j < k && db.events[j].tenantId == tenantId ensures db.events[j].event.idempotencyKey != Some(key) {
          assert !EventWithKey(tenantId, key)(db.events[j]);
        }
    }
  }

  lemma IdFound(db: Tables, id: string)
    ensures match Find(db.events, EventWithId(id)) case None => !IdKnown(db, id) case Some(k) => IdAt(db, id, k)
  {
    var found := Find(db.events, EventWithId(id));
    match found {
      case None =>
        forall k: nat ensures !IdAt(db, id, k) {
          if k < |db.events| { assert !EventWithId(id)(db.events[k]); }
        }
      case Some(k) =>
        assert EventWithId(id)(db.events[k]);
        forall j | 0 <= j < k ensures db.events[j].id != id { assert !EventWithId(id)(db.events[j]); }
    }
  }

  lemma AcceptedIsAnswered(cfg: Config, s: Ingest, tenantId: string, p: Payload, e: Event, rawHash: string)
    requires s.Ingest?
    ensures Accepts(cfg, s, Carry(cfg, tenantId, s.(db := NextDraw(s.db)), p, Accept(e, rawHash)), tenantId, e, rawHash)
  {
    var inserted := s.db.(drawn := s.db.drawn + 1, events := s.db.events + [EventRow(e.id, tenantId, rawHash, e)]);
    ArrivalIsAnswered(cfg, inserted, tenantId, e);
    OpenIsKnown(inserted, tenantId);
    StoredEventIsAnswered(cfg, inserted, tenantId, e, LoadWindow(inserted, tenantId), false);
  }

  lemma NormalSettles(cfg: Config, tenantId: string, s: Ingest, p: Payload)
    requires s.Ingest? && cfg.normalize(p, tenantId).Normal?
    ensures var n := cfg.normalize(p, tenantId);
      Settles(cfg, s, IngestOne(cfg, tenantId, s, p), tenantId, p, Named(n, cfg.draw(s.db.drawn)), n.rawHash)
  {
    var n := cfg.normalize(p, tenantId);
    var e := Named(n, cfg.draw(s.db.drawn));
    if HasKey(n) { KeyFound(s.db, tenantId, n.fields.idempotencyKey.value); }
    IdFound(s.db, e.id);
    AcceptedIsAnswered(cfg, s, tenantId, p, e, n.rawHash);
  }

  lemma OnePayloadIsTaken(cfg: Config, tenantId: string, s: Ingest, p: Payload)
    requires s.Ingest?
    ensures Takes(cfg, s, IngestOne(cfg, tenantId, s, p), tenantId, p)
  {
    match cfg.normalize(p, tenantId) {
      case Raises(reason) =>
        assert Cut(Shortened(reason), reason);
        assert Rejects(s, IngestOne(cfg, tenantId, s, p), tenantId, p, Shortened(reason), reason);
      case Normal(ownId, ownTime, fields, rawHash) =>
        var e := Named(cfg.normalize(p, tenantId), cfg.draw(s.db.drawn));
        NormalSettles(cfg, tenantId, s, p);
        assert IsEventOf(e, ownId, ownTime, fields, cfg.draw(s.db.drawn));
    }
  }

  ghost predicate TakenAt(cfg: Config, db: Tables, tenantId: string, ps: seq<Payload>, i: nat)
    requires i < |ps|
  {
    var s := IngestAll(cfg, db, tenantId, ps[..i]);
    s.Ingest? && Takes(cfg, s, IngestAll(cfg, db, tenantId, ps[..i+1]), tenantId, ps[i])
  }

  lemma LastIsTaken(cfg: Config, db: Tables, tenantId: string, ps: seq<Payload>)
    requires ps != [] && IngestAll(cfg, db, tenantId, ps).Ingest?
    ensures TakenAt(cfg, db, tenantId, ps, |ps| - 1)
  {
    assert ps[..|ps|] == ps;
    OnePayloadIsTaken(cfg, tenantId, IngestAll(cfg, db, tenantId, ps[..|ps|-1]), ps[|ps|-1]);
  }

  lemma TakenInFront(cfg: Config, db: Tables, tenantId: string, ps: seq<Payload>, i: nat)
    requires i < |ps| - 1 && TakenAt(cfg, db, tenantId, ps[..|ps|-1], i)
    ensures TakenAt(cfg, db, tenantId, ps, i)
  {
    var init := ps[..|ps|-1];
    assert init[..i] == ps[..i] && init[..i+1] == ps[..i+1];
  }

  /** A batch starts with an empty report and takes its payloads one after the other. */
  lemma {:induction false} BatchTakesItsPayloads(cfg: Config, db: Tables, tenantId: string, ps: seq<Payload>)
    requires IngestAll(cfg, db, tenantId, ps).Ingest?
    ensures IngestAll(cfg, db, tenantId, []) == Ingest(db, [], [], [], 0)
    ensures forall i :: 0 <= i < |ps| ==> TakenAt(cfg, db, tenantId, ps, i)
  {
    if ps != [] {
      BatchTakesItsPayloads(cfg, db, tenantId, ps[..|ps|-1]);
      LastIsTaken(cfg, db, tenantId, ps);
      forall i | 0 <= i < |ps| - 1 ensures TakenAt(cfg, db, tenantId, ps, i) { TakenInFront(cfg, db, tenantId, ps, i); }
    }
  }

  // ---------- evidence ----------

  ghost predicate EvidencedAt(db: Tables, tenantId: string, eventId: string, k: nat) {
    k < |db.evidence| && db.evidence[k].tenantId == tenantId && db.evidence[k].eventId == eventId
  }

  ghost predicate StoredEventAt(db: Tables, tenantId: string, eventId: string, k: nat) {
    && k < |db.events| && db.events[k].tenantId == tenantId && db.events[k].id == eventId
    && forall j :: 0 <= j < k && db.events[j].tenantId == tenantId ==> db.events[j].id != eventId
  }

  /** Evidence the tenant has for the event is reused; else the tenant's event gives its raw hash to one new row, under the
      collector's name; without such an event nothing is registered. */
  lemma EvidenceIsRegistered(cfg: Config, db: Tables, tenantId: string, eventId: string)
    ensures match Register(cfg, db, tenantId, eventId)
      case SourceMissing =>
        (forall k: nat :: !EvidencedAt(db, tenantId, eventId, k)) && forall k: nat :: !StoredEventAt(db, tenantId, eventId, k)
      case Registered(db', id) =>
        || (db' == db && EvidencedAt(db, tenantId, eventId, id))
        || ((forall k: nat :: !EvidencedAt(db, tenantId, eventId, k)) && id == |db.evidence| && exists k: nat ::
              StoredEventAt(db, tenantId, eventId, k)
              && db' == db.(evidence := db.evidence + [EvidenceRow(tenantId, eventId, db.events[k].rawHash, cfg.collector)]))
  {
    var existing := Find(db.evidence, EvidenceFor(tenantId, eventId));
    match existing {
      case Some(k) => assert EvidenceFor(tenantId, eventId)(db.evidence[k]);
      case None =>
        forall k: nat ensures !EvidencedAt(db, tenantId, eventId, k) {
          if k < |db.evidence| { assert !EvidenceFor(tenantId, eventId)(db.evidence[k]); }
        }
        SourceFound(db, tenantId, eventId);
    }
  }

  lemma SourceFound(db: Tables, tenantId: string, eventId: string)
    ensures match Find(db.events, OwnEvent(tenantId, eventId))
      case None => forall k: nat :: !StoredEventAt(db, tenantId, eventId, k)
      case Some(k) => StoredEventAt(db, tenantId, eventId, k)
  {
    match Find(db.events, OwnEvent(tenantId, eventId)) {
      case None =>
        forall k: nat ensures !StoredEventAt(db, tenantId, eventId, k) {
          if k < |db.events| { assert !OwnEvent(tenantId, eventId)(db.events[k]); }
        }
      case Some(k) =>
        assert OwnEvent(tenantId, eventId)(db.events[k]);
        forall j | 0 <= j < k && db.events[j].tenantId == tenantId ensures db.events[j].id != eventId {
          assert !OwnEvent(tenantId, eventId)(db.events[j]);
        }
    }
  }
}
