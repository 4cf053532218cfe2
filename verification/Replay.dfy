/**
 Blue Range replays a scenario in one pass, every event against the whole window; the services store
 event after event, each against what has arrived so far.  When do they report the same findings?
 */
module Replay {
  import opened Common
  import opened Sorting
  import opened Detection
  import opened Store
  import opened StoreProofs

  // ---------- streaming, on values ----------

  function Time(): Event -> int { (e: Event) => e.time }

  /** What is kept when findings arrive one by one and a known fingerprint is dropped. */
  function Keep(kept: seq<Finding>, fs: seq<Finding>): seq<Finding> {
    if fs == [] then kept
    else
      var front, f := Keep(kept, fs[..|fs|-1]), fs[|fs|-1];
      if f.fingerprint in Fingerprints(front) then front else front + [f]
  }

  /** The findings kept after the first `n` events have arrived. */
  function StreamAfter(rules: seq<Rule>, events: seq<Event>, n: nat): seq<Finding>
    requires n <= |events|
  {
    if n == 0 then []
    else StreamOn(rules, StreamAfter(rules, events, n - 1), SortBy(events[..n], Time()), events[n-1])
  }

  /** One more event, against the window as it stands when the event has arrived. */
  function StreamOn(rules: seq<Rule>, kept: seq<Finding>, window: seq<Event>, e: Event): seq<Finding> {
    Keep(kept, EvaluateAll(rules, e, Context(window, Fingerprints(kept), false)))
  }

  function StreamRun(rules: seq<Rule>, events: seq<Event>): seq<Finding> {
    StreamAfter(rules, events, |events|)
  }

  // ---------- the store does exactly this ----------

  /** The tenant's stored findings, in the order stored. */
  function FindingsOf(rows: seq<FindingRow>, tenantId: string): seq<Finding> {
    if rows == [] then []
    else FindingsOf(rows[..|rows|-1], tenantId) + if rows[|rows|-1].tenantId == tenantId then [rows[|rows|-1].finding] else []
  }

  lemma {:induction false} FindingsOfMembers(rows: seq<FindingRow>, tenantId: string)
    ensures forall f :: f in FindingsOf(rows, tenantId) <==> exists i :: 0 <= i < |rows| && rows[i].tenantId == tenantId && rows[i].finding == f
  {
    if rows != [] {
      var init := rows[..|rows|-1];
      FindingsOfMembers(init, tenantId);
      forall f ensures f in FindingsOf(rows, tenantId) <==> exists i :: 0 <= i < |rows| && rows[i].tenantId == tenantId && rows[i].finding == f {
        if i :| 0 <= i < |init| && init[i].tenantId == tenantId && init[i].finding == f { assert rows[i] == init[i]; }
        if i :| 0 <= i < |rows| && rows[i].tenantId == tenantId && rows[i].finding == f {
          if i < |init| { assert rows[i] == init[i]; }
        }
      }
    }
  }

  lemma OpenAreFingerprints(db: Tables, tenantId: string)
    ensures OpenFor(db, tenantId) == Fingerprints(FindingsOf(db.findings, tenantId))
  {
    FindingsOfMembers(db.findings, tenantId);
    var fs := FindingsOf(db.findings, tenantId);
    forall x ensures x in OpenFor(db, tenantId) <==> x in Fingerprints(fs) {
      FingerprintsMembers(fs, x);
      if x in OpenFor(db, tenantId) {
        var r :| r in db.findings && r.tenantId == tenantId && r.finding.fingerprint == x;
        var i :| 0 <= i < |db.findings| && db.findings[i] == r;
        assert r.finding in fs;
      }
      if k :| 0 <= k < |fs| && fs[k].fingerprint == x {
        assert fs[k] in fs;
        var i :| 0 <= i < |db.findings| && db.findings[i].tenantId == tenantId && db.findings[i].finding == fs[k];
        assert db.findings[i] in db.findings;
      }
    }
  }

  ghost predicate NothingSuppressed(cfg: Config, tenantId: string) {
    forall f :: !cfg.suppressed(tenantId, f)
  }

  lemma StoreOneKeepsNew(cfg: Config, db: Tables, tenantId: string, f: Finding)
    requires NothingSuppressed(cfg, tenantId) && Sound(db) && CitesStored(db, tenantId, f)
    ensures var r := StoreOne(cfg, db, tenantId, f);
      && r.Stored?
      && FindingsOf(r.db.findings, tenantId) == Keep(FindingsOf(db.findings, tenantId), [f])
      && |r.db.findings| == |db.findings| + |r.created|
  {
    var before := FindingsOf(db.findings, tenantId);
    assert [f][..0] == [];
    assert Keep(before, [f]) == if f.fingerprint in Fingerprints(before) then before else before + [f];
    OpenAreFingerprints(db, tenantId);
    var dup := Find(db.findings, FindingWith(tenantId, f.fingerprint));
    if dup.Some? {
      assert db.findings[dup.value] in db.findings;
    } else {
      RegisterAllKeeps(cfg, db, tenantId, f.eventIds);
      var row := FindingRow(tenantId, f, RegisterAll(cfg, db, tenantId, f.eventIds).evidenceIds);
      assert (db.findings + [row])[..|db.findings|] == db.findings;
      forall r | r in db.findings && r.tenantId == tenantId ensures r.finding.fingerprint != f.fingerprint {
        var i :| 0 <= i < |db.findings| && db.findings[i] == r;
        assert !FindingWith(tenantId, f.fingerprint)(db.findings[i]);
      }
    }
  }

  lemma {:induction false} KeepAppend(kept: seq<Finding>, a: seq<Finding>, b: seq<Finding>)
    ensures Keep(kept, a + b) == Keep(Keep(kept, a), b)
    decreases |b|
  {
    if b == [] {
      assert a + b == a;
    } else {
      KeepAppend(kept, a, b[..|b|-1]);
      assert (a + b)[..|a+b|-1] == a + b[..|b|-1];
    }
  }

  lemma {:induction false} StoreAllKeepsNew(cfg: Config, db: Tables, tenantId: string, fs: seq<Finding>)
    requires NothingSuppressed(cfg, tenantId) && Sound(db) && forall i :: 0 <= i < |fs| ==> CitesStored(db, tenantId, fs[i])
    ensures var r := StoreAll(cfg, db, tenantId, fs);
      && r.Stored?
      && FindingsOf(r.db.findings, tenantId) == Keep(FindingsOf(db.findings, tenantId), fs)
      && |r.db.findings| == |db.findings| + |r.created|
  {
    if fs != [] {
      var init, f := fs[..|fs|-1], fs[|fs|-1];
      StoreAllKeeps(cfg, db, tenantId, init);
      StoreAllKeepsNew(cfg, db, tenantId, init);
      var front := StoreAll(cfg, db, tenantId, init);
      CitesStillStored(db, front.db, tenantId, f);
      StoreOneKeepsNew(cfg, front.db, tenantId, f);
      KeepAppend(FindingsOf(db.findings, tenantId), init, [f]);
      assert init + [f] == fs;
    }
  }

  // ---------- the stored window ----------

  lemma {:induction false} EventsOfAppend(a: seq<EventRow>, b: seq<EventRow>)
    ensures EventsOf(a + b) == EventsOf(a) + EventsOf(b)
  {
    if a == [] {
      assert a + b == b;
    } else {
      assert (a + b)[1..] == a[1..] + b;
      EventsOfAppend(a[1..], b);
    }
  }

  lemma {:induction false} InsertEvents(x: EventRow, rows: seq<EventRow>)
    ensures EventsOf(Insert(x, rows, RowTime())) == Insert(x.event, EventsOf(rows), Time())
  {
    if rows == [] || x.event.time < rows[0].event.time {
      assert ([x] + rows)[1..] == rows;
    } else {
      InsertEvents(x, rows[1..]);
      var t := Insert(x, rows[1..], RowTime());
      assert ([rows[0]] + t)[1..] == t;
    }
  }

  /** Sorting rows by time is sorting their events by time. */
  lemma {:induction false} SortEvents(rows: seq<EventRow>)
    ensures EventsOf(SortBy(rows, RowTime())) == SortBy(EventsOf(rows), Time())
  {
    if rows != [] {
      var init, x := rows[..|rows|-1], rows[|rows|-1];
      SortEvents(init);
      InsertEvents(x, SortBy(init, RowTime()));
      assert rows == init + [x];
      EventsOfAppend(init, [x]);
      var es := EventsOf(rows);
      assert [x][1..] == [];
      assert es == EventsOf(init) + [x.event];
      assert es[..|es|-1] == EventsOf(init);
    }
  }

  function Arrived(db: Tables, tenantId: string): seq<Event> {
    EventsOf(Filter(db.events, OfTenant(tenantId)))
  }

  lemma ArrivedAfterInsert(db: Tables, row: EventRow)
    ensures Arrived(db.(events := db.events + [row]), row.tenantId) == Arrived(db, row.tenantId) + [row.event]
  {
    FilterAppend(db.events, [row], OfTenant(row.tenantId));
    assert [row][1..] == [];
    assert Filter([row], OfTenant(row.tenantId)) == [row];
    EventsOfAppend(Filter(db.events, OfTenant(row.tenantId)), [row]);
  }

  predicate Keyed(e: Event) { e.idempotencyKey.Some? && e.idempotencyKey.value != "" }

  /** Single-tenant events with distinct ids. */
  ghost predicate Replayable(events: seq<Event>, tenantId: string) {
    (forall i :: 0 <= i < |events| ==> events[i].tenantId == tenantId) && AllApart(events)
  }

  ghost predicate AllApart(events: seq<Event>) {
    forall i, j {:trigger Apart(events, i, j)} :: 0 <= i < j < |events| ==> Apart(events, i, j)
  }

  ghost predicate Apart(events: seq<Event>, i: nat, j: nat)
    requires i < j < |events|
  {
    events[i].id != events[j].id
  }

  /** Where events have idempotency keys, the keys are distinct too. */
  ghost predicate Scenario(events: seq<Event>, tenantId: string) {
    && Replayable(events, tenantId)
    && forall i, j {:trigger KeysApart(events, i, j)} :: 0 <= i < j < |events| ==> KeysApart(events, i, j)
  }

  ghost predicate KeysApart(events: seq<Event>, i: nat, j: nat)
    requires i < j < |events|
  {
    Keyed(events[j]) ==> events[i].idempotencyKey != events[j].idempotencyKey
  }

  /** The payloads normalise to the scenario's events, with ids and times drawn from `drawn` on where they
      carry none. */
  ghost predicate Carries(cfg: Config, drawn: nat, tenantId: string, ps: seq<Payload>, events: seq<Event>) {
    |ps| == |events| && forall i :: 0 <= i < |ps| ==> BecomesEvent(cfg, drawn + i, tenantId, ps[i], events[i])
  }

  predicate BecomesEvent(cfg: Config, drawn: nat, tenantId: string, p: Payload, e: Event) {
    cfg.normalize(p, tenantId).Normal? && Named(cfg.normalize(p, tenantId), cfg.draw(drawn)) == e
  }

  /** A sound store, with whatever rows of other tenants, that knows nothing of the scenario. */
  ghost predicate NewTo(db: Tables, tenantId: string, events: seq<Event>) {
    && Sound(db)
    && Arrived(db, tenantId) == [] && FindingsOf(db.findings, tenantId) == []
    && NotStored(db, events)
  }

  ghost predicate NotStored(db: Tables, events: seq<Event>) {
    forall k, i :: 0 <= k < |db.events| && 0 <= i < |events| ==> db.events[k].id != events[i].id
  }

  lemma KeyIsNew(db: Tables, tenantId: string, arrived: seq<Event>, key: string)
    requires Arrived(db, tenantId) == arrived
    requires forall i :: 0 <= i < |arrived| ==> arrived[i].idempotencyKey != Some(key)
    ensures Find(db.events, EventWithKey(tenantId, key)).None?
  {
    var hit := Find(db.events, EventWithKey(tenantId, key));
    if hit.Some? {
      var row := db.events[hit.value];
      assert EventWithKey(tenantId, key)(row) && OfTenant(tenantId)(row);
      FilterMembers(db.events, OfTenant(tenantId));
      var own := Filter(db.events, OfTenant(tenantId));
      assert row in own;
      var i :| 0 <= i < |own| && own[i] == row;
      EventsOfMembers(own, row.event);
    }
  }

  lemma IdIsNew(db: Tables, events: seq<Event>, e: Event)
    requires NotStored(db, events) && e in events
    ensures Find(db.events, EventWithId(e.id)).None?
  {
    var i :| 0 <= i < |events| && events[i] == e;
  }

  /** Accepting one event adds to the tenant's findings what the streaming run adds. */
  lemma AcceptStreams(cfg: Config, db: Tables, tenantId: string, e: Event, rawHash: string)
    requires RulesCite(cfg) && NothingSuppressed(cfg, tenantId) && Sound(db) && Find(db.events, EventWithId(e.id)).None?
    ensures var row := EventRow(e.id, tenantId, rawHash, e);
      var kept := FindingsOf(db.findings, tenantId);
      var r := EvaluateAndStore(cfg, db.(events := db.events + [row]), tenantId, e);
      && r.Stored? && Sound(r.db) && r.db.events == db.events + [row] && r.db.drawn == db.drawn
      && Arrived(r.db, tenantId) == Arrived(db, tenantId) + [e]
      && FindingsOf(r.db.findings, tenantId) == StreamOn(cfg.rules, kept, SortBy(Arrived(db, tenantId) + [e], Time()), e)
      && |r.db.findings| == |db.findings| + |r.created|
  {
    var row := EventRow(e.id, tenantId, rawHash, e);
    AcceptKeeps(cfg, db, tenantId, e, rawHash);
    ArrivedAfterInsert(db, row);
    InsertKeeps(db, row);
    EvaluatedStream(cfg, db.(events := db.events + [row]), tenantId, e);
  }

  /** Evaluating an event just stored is one step of the stream. */
  lemma EvaluatedStream(cfg: Config, db: Tables, tenantId: string, e: Event)
    requires RulesCite(cfg) && NothingSuppressed(cfg, tenantId) && Sound(db) && HasEvent(db, tenantId, e.id)
    ensures var r := EvaluateAndStore(cfg, db, tenantId, e);
      && r.Stored?
      && FindingsOf(r.db.findings, tenantId) == StreamOn(cfg.rules, FindingsOf(db.findings, tenantId), SortBy(Arrived(db, tenantId), Time()), e)
      && |r.db.findings| == |db.findings| + |r.created|
  {
    var window, open := LoadWindow(db, tenantId), OpenFor(db, tenantId);
    forall w | w in window ensures HasEvent(db, tenantId, w.id) { WindowIsStored(db, tenantId, w); }
    OpenAreFingerprints(db, tenantId);
    EvaluatedCiteStored(cfg, db, tenantId, e, window, open, false);
    StoreAllKeepsNew(cfg, db, tenantId, EvaluateAll(cfg.rules, e, Context(window, open, false)));
    SortEvents(Filter(db.events, OfTenant(tenantId)));
  }

  /** After the first `n` events: all of them accepted and arrived, none of the later ones known, the
      tenant's findings exactly those of the streaming run, the counts as expected since `start`. */
  ghost predicate Streamed(cfg: Config, tenantId: string, start: Tables, s: Ingest, events: seq<Event>, n: nat)
    requires n <= |events|
  {
    && s.Ingest? && Sound(s.db) && |s.accepted| == n
    && Arrived(s.db, tenantId) == events[..n] && NotStored(s.db, events[n..])
    && FindingsOf(s.db.findings, tenantId) == StreamAfter(cfg.rules, events, n)
    && |s.db.findings| == |start.findings| + s.findings && s.db.drawn == start.drawn + n
  }

  lemma NothingStreamed(cfg: Config, db: Tables, tenantId: string, events: seq<Event>)
    requires NewTo(db, tenantId, events)
    ensures Streamed(cfg, tenantId, db, Ingest(db, [], [], [], 0), events, 0)
  {
    assert events[0..] == events;
  }

  lemma {:induction false} IngestIsStreaming(cfg: Config, db: Tables, tenantId: string, ps: seq<Payload>, events: seq<Event>, n: nat)
    requires RulesCite(cfg) && NothingSuppressed(cfg, tenantId)
    requires Scenario(events, tenantId) && Carries(cfg, db.drawn, tenantId, ps, events) && NewTo(db, tenantId, events) && n <= |ps|
    ensures Streamed(cfg, tenantId, db, IngestAll(cfg, db, tenantId, ps[..n]), events, n)
  {
    if n == 0 {
      assert ps[..0] == [];
      NothingStreamed(cfg, db, tenantId, events);
    } else {
      var m: nat := n - 1;
      IngestIsStreaming(cfg, db, tenantId, ps, events, m);
      StreamsOneMore(cfg, db, tenantId, ps, events, m);
    }
  }

  lemma StreamsOneMore(cfg: Config, db: Tables, tenantId: string, ps: seq<Payload>, events: seq<Event>, n: nat)
    requires RulesCite(cfg) && NothingSuppressed(cfg, tenantId)
    requires Scenario(events, tenantId) && Carries(cfg, db.drawn, tenantId, ps, events) && n < |ps|
    requires Streamed(cfg, tenantId, db, IngestAll(cfg, db, tenantId, ps[..n]), events, n)
    ensures Streamed(cfg, tenantId, db, IngestAll(cfg, db, tenantId, ps[..n+1]), events, n + 1)
  {
    var s, s' := IngestAll(cfg, db, tenantId, ps[..n]), IngestAll(cfg, db, tenantId, ps[..n+1]);
    StreamsThen(cfg, db, tenantId, s, s', ps[n], events, n) by { IngestOneMore(cfg, db, tenantId, ps, n); }
  }

  lemma StreamsThen(cfg: Config, db: Tables, tenantId: string, s: Ingest, s': Ingest, p: Payload, events: seq<Event>, n: nat)
    requires RulesCite(cfg) && NothingSuppressed(cfg, tenantId)
    requires Scenario(events, tenantId) && n < |events| && BecomesEvent(cfg, db.drawn + n, tenantId, p, events[n])
    requires Streamed(cfg, tenantId, db, s, events, n) && s' == IngestOne(cfg, tenantId, s, p)
    ensures Streamed(cfg, tenantId, db, s', events, n + 1)
  {
    IngestStreams(cfg, tenantId, db, s, p, events, n);
  }

  /** The next event of the scenario is new to the store. */
  lemma NextIsAccepted(cfg: Config, tenantId: string, db: Tables, p: Payload, events: seq<Event>, n: nat)
    requires Scenario(events, tenantId) && n < |events|
    requires BecomesEvent(cfg, db.drawn, tenantId, p, events[n])
    requires Arrived(db, tenantId) == events[..n] && NotStored(db, events[n..])
    ensures Classify(cfg, db, tenantId, p) == Accept(events[n], cfg.normalize(p, tenantId).rawHash)
    ensures Find(db.events, EventWithId(events[n].id)).None?
  {
    var e := events[n];
    if Keyed(e) {
      forall i | 0 <= i < n ensures events[..n][i].idempotencyKey != e.idempotencyKey { assert KeysApart(events, i, n); }
      KeyIsNew(db, tenantId, events[..n], e.idempotencyKey.value);
    }
    assert events[n..][0] == e;
    IdIsNew(db, events[n..], e);
  }

  lemma IngestStreams(cfg: Config, tenantId: string, start: Tables, s: Ingest, p: Payload, events: seq<Event>, n: nat)
    requires RulesCite(cfg) && NothingSuppressed(cfg, tenantId)
    requires Scenario(events, tenantId) && n < |events|
    requires s.Ingest? && BecomesEvent(cfg, s.db.drawn, tenantId, p, events[n])
    requires Streamed(cfg, tenantId, start, s, events, n)
    ensures Streamed(cfg, tenantId, start, IngestOne(cfg, tenantId, s, p), events, n + 1)
  {
    var e, rawHash := events[n], cfg.normalize(p, tenantId).rawHash;
    var row := EventRow(e.id, tenantId, rawHash, e);
    NextIsAccepted(cfg, tenantId, s.db, p, events, n);
    DrawKeeps(s.db);
    AcceptStreams(cfg, NextDraw(s.db), tenantId, e, rawHash);
    StreamedExtends(cfg, tenantId, start, s, IngestOne(cfg, tenantId, s, p), row, events, n);
  }

  lemma StreamedExtends(cfg: Config, tenantId: string, start: Tables, s: Ingest, s': Ingest, row: EventRow, events: seq<Event>, n: nat)
    requires AllApart(events) && n < |events| && Streamed(cfg, tenantId, start, s, events, n)
    requires s'.Ingest? && Sound(s'.db) && |s'.accepted| == |s.accepted| + 1
    requires s'.db.events == s.db.events + [row] && row.id == events[n].id
    requires Arrived(s'.db, tenantId) == Arrived(s.db, tenantId) + [events[n]]
    requires FindingsOf(s'.db.findings, tenantId)
          == StreamOn(cfg.rules, FindingsOf(s.db.findings, tenantId), SortBy(Arrived(s.db, tenantId) + [events[n]], Time()), events[n])
    requires |s'.db.findings| - |s.db.findings| == s'.findings - s.findings && s'.db.drawn == s.db.drawn + 1
    ensures Streamed(cfg, tenantId, start, s', events, n + 1)
  {
    StillNotStored(s.db, s'.db, row, events, n);
    assert Arrived(s'.db, tenantId) == events[..n+1] by { assert events[..n+1] == events[..n] + [events[n]]; }
    StreamGrows(cfg.rules, events, n);
  }

  lemma StreamGrows(rules: seq<Rule>, events: seq<Event>, n: nat)
    requires n < |events|
    ensures StreamAfter(rules, events, n + 1)
         == StreamOn(rules, StreamAfter(rules, events, n), SortBy(events[..n] + [events[n]], Time()), events[n])
  {
    assert events[..n+1] == events[..n] + [events[n]];
  }

  lemma StillNotStored(db: Tables, db': Tables, row: EventRow, events: seq<Event>, n: nat)
    requires n < |events| && NotStored(db, events[n..]) && db'.events == db.events + [row] && row.id == events[n].id
    requires AllApart(events)
    ensures NotStored(db', events[n+1..])
  {
    var rest := events[n+1..];
    forall k, i | 0 <= k < |db'.events| && 0 <= i < |rest| ensures db'.events[k].id != rest[i].id {
      assert rest[i] == events[n..][i+1] && rest[i] == events[n+1+i] && Apart(events, n, n + 1 + i);
      if k < |db.events| { assert db'.events[k] == db.events[k]; }
    }
  }

  // ---------- batch and streaming ----------

  ghost predicate Increasing(events: seq<Event>) {
    forall i, j {:trigger Earlier(events, i, j)} :: 0 <= i < j < |events| ==> Earlier(events, i, j)
  }

  ghost predicate Earlier(events: seq<Event>, i: nat, j: nat)
    requires i < j < |events|
  {
    events[i].time < events[j].time
  }

  /** Rules that run on arriving events keep the discipline rules are asked to keep. */
  ghost predicate Disciplined(rules: seq<Rule>) {
    && AllReadThroughQueries(rules)
    && (forall i {:trigger Reports(rules, i)} :: 0 <= i < |rules| ==> Reports(rules, i))
    && FingerprintsTellRules(rules)
  }

  ghost predicate AllReadThroughQueries(rules: seq<Rule>) {
    forall i {:trigger Reads(rules, i)} :: 0 <= i < |rules| ==> Reads(rules, i)
  }

  ghost predicate Reads(rules: seq<Rule>, i: nat)
    requires i < |rules|
  {
    Runs(rules[i], false) ==> ReadsThroughQueries(rules[i])
  }

  ghost predicate Reports(rules: seq<Rule>, i: nat)
    requires i < |rules|
  {
    Runs(rules[i], false) ==> CitesWhatItSaw(rules[i]) && ReportsOnce(rules[i])
  }

  /** What comes later is beyond every query of an event. */
  lemma FutureIsUnseen(events: seq<Event>, n: nat)
    requires Increasing(events) && n < |events|
    ensures LookAlike(SortBy(events[..n+1], Time()), events, events[n])
  {
    var past, e := events[..n+1], events[n];
    forall i, j | 0 <= i < j < |past| ensures Time()(past[i]) <= Time()(past[j]) { assert Earlier(events, i, j); }
    SortIdentity(past, Time());
    forall seconds, f ensures EventsInWindow(past, e, seconds, f) == EventsInWindow(events, e, seconds, f) {
      FutureIsFiltered(events, n, Selecting(e.tenantId, e.time - seconds * MICROS, Some(e.time), f));
    }
  }

  lemma FutureIsFiltered(events: seq<Event>, n: nat, wanted: Event -> bool)
    requires Increasing(events) && n < |events| && forall y :: wanted(y) ==> y.time <= events[n].time
    ensures Filter(events[..n+1], wanted) == Filter(events, wanted)
  {
    forall k | n + 1 <= k < |events| ensures !wanted(events[k]) { assert Earlier(events, n, k); }
    FilterPrefix(events, n + 1, wanted);
  }

  lemma {:induction false} SameWindowSameFindings(rules: seq<Rule>, e: Event, w: seq<Event>, w': seq<Event>, open: set<string>)
    requires AllReadThroughQueries(rules) && LookAlike(w, w', e)
    ensures EvaluateAll(rules, e, Context(w, open, false)) == EvaluateAll(rules, e, Context(w', open, false))
  {
    if rules != [] {
      var init, r := rules[..|rules|-1], rules[|rules|-1];
      forall i | 0 <= i < |init| ensures Reads(init, i) { assert Reads(rules, i) && init[i] == rules[i]; }
      SameWindowSameFindings(init, e, w, w', open);
      if Runs(r, false) {
        assert Reads(rules, |rules| - 1);
        assert r.evaluate(e, Context(w, open, false)) == r.evaluate(e, Context(w', open, false));
      }
      assert EvaluateOne(e, Context(w, open, false))(r) == EvaluateOne(e, Context(w', open, false))(r);
    }
  }

  lemma PrefixSeesTheSame(rules: seq<Rule>, events: seq<Event>, n: nat, open: set<string>)
    requires AllReadThroughQueries(rules) && Increasing(events) && n < |events|
    ensures EvaluateAll(rules, events[n], Context(SortBy(events[..n+1], Time()), open, false))
         == EvaluateAll(rules, events[n], Context(events, open, false))
  {
    FutureIsUnseen(events, n);
    SameWindowSameFindings(rules, events[n], SortBy(events[..n+1], Time()), events, open);
  }

  lemma {:induction false} KeepLosesNoFingerprint(kept: seq<Finding>, fs: seq<Finding>)
    ensures Fingerprints(Keep(kept, fs)) == Fingerprints(kept) + Fingerprints(fs)
  {
    if fs != [] {
      var init, f := fs[..|fs|-1], fs[|fs|-1];
      KeepLosesNoFingerprint(kept, init);
      assert init + [f] == fs;
      FingerprintsAppend(init, [f]);
      FingerprintsAppend(Keep(kept, init), [f]);
      assert Fingerprints([f]) == {f.fingerprint} by { assert [f][0] == f; }
    }
  }

  /** After `n` events the stream has kept, of the batch's findings, the first of each fingerprint. */
  ghost predicate KeptFirsts(rules: seq<Rule>, events: seq<Event>, n: nat)
    requires n <= |events|
  {
    Firsts(StreamAfter(rules, events, n), BatchAfter(rules, events, n))
  }

  ghost predicate Firsts(kept: seq<Finding>, fs: seq<Finding>) { kept == Keep([], fs) }

  /** With strictly increasing times this holds throughout. */
  lemma {:induction false} StreamKeepsFirsts(rules: seq<Rule>, events: seq<Event>, n: nat)
    requires AllReadThroughQueries(rules) && Increasing(events) && n <= |events|
    ensures KeptFirsts(rules, events, n)
  {
    if n == 0 {
      NothingKept(rules, events);
    } else {
      StreamKeepsFirsts(rules, events, n - 1);
      StreamStepKeepsFirsts(rules, events, n - 1);
    }
  }

  lemma NothingKept(rules: seq<Rule>, events: seq<Event>)
    ensures KeptFirsts(rules, events, 0)
  {
  }

  lemma StreamStepKeepsFirsts(rules: seq<Rule>, events: seq<Event>, n: nat)
    requires AllReadThroughQueries(rules) && Increasing(events) && n < |events|
    requires KeptFirsts(rules, events, n)
    ensures KeptFirsts(rules, events, n + 1)
  {
    OnStepKeepsFirsts(rules, events, n, StreamAfter(rules, events, n), BatchAfter(rules, events, n));
  }

  lemma OnStepKeepsFirsts(rules: seq<Rule>, events: seq<Event>, n: nat, kept: seq<Finding>, batch: seq<Finding>)
    requires AllReadThroughQueries(rules) && Increasing(events) && n < |events|
    requires Firsts(kept, batch)
    ensures Firsts(StreamOn(rules, kept, SortBy(events[..n+1], Time()), events[n]), BatchOn(rules, batch, events, events[n]))
  {
    KeepLosesNoFingerprint([], batch);
    assert Fingerprints([]) + Fingerprints(batch) == Fingerprints(batch);
    PrefixSeesTheSame(rules, events, n, Fingerprints(batch));
    FirstsExtend(kept, batch, EvaluateAll(rules, events[n], Context(events, Fingerprints(batch), false)));
  }

  lemma FirstsExtend(kept: seq<Finding>, batch: seq<Finding>, more: seq<Finding>)
    requires Firsts(kept, batch)
    ensures Firsts(Keep(kept, more), batch + more)
  {
    KeepAppend([], batch, more);
  }

  // ---------- one finding per fingerprint ----------

  ghost predicate NoRepeats(fs: seq<Finding>) {
    forall i, j :: 0 <= i < j < |fs| ==> fs[i].fingerprint != fs[j].fingerprint
  }

  lemma {:induction false} KeepIsShorter(kept: seq<Finding>, fs: seq<Finding>)
    ensures |Keep(kept, fs)| <= |kept| + |fs|
  {
    if fs != [] { KeepIsShorter(kept, fs[..|fs|-1]); }
  }

  /** Dropping known fingerprints drops nothing exactly if no fingerprint repeats. */
  lemma {:induction false} KeepAllIff(fs: seq<Finding>)
    ensures Keep([], fs) == fs <==> NoRepeats(fs)
  {
    if fs != [] {
      var init, f := fs[..|fs|-1], fs[|fs|-1];
      KeepAllIff(init);
      KeepIsShorter([], init);
      KeepLosesNoFingerprint([], init);
      assert fs == init + [f];
      NoRepeatsAppend(init, f);
    }
  }

  lemma NoRepeatsAppend(fs: seq<Finding>, f: Finding)
    ensures NoRepeats(fs + [f]) <==> NoRepeats(fs) && f.fingerprint !in Fingerprints(fs)
  {
    var all := fs + [f];
    FingerprintsMembers(fs, f.fingerprint);
    assert forall i :: 0 <= i < |fs| ==> all[i] == fs[i];
    if i :| 0 <= i < |fs| && fs[i].fingerprint == f.fingerprint {
      assert all[i].fingerprint == all[|fs|].fingerprint;
    }
    if NoRepeats(all) {
      forall i, j | 0 <= i < j < |fs| ensures fs[i].fingerprint != fs[j].fingerprint { assert all[i] == fs[i] && all[j] == fs[j]; }
    }
  }

  /** One event's findings have distinct fingerprints, none of them open. */
  lemma {:induction false} OneEventNoRepeats(rules: seq<Rule>, e: Event, c: Context)
    requires Disciplined(rules) && !c.scheduled
    ensures var fs := EvaluateAll(rules, e, c); NoRepeats(fs) && forall i :: 0 <= i < |fs| ==> fs[i].fingerprint !in c.open
  {
    if rules != [] {
      var init, r := rules[..|rules|-1], rules[|rules|-1];
      DisciplinedPrefix(rules, |rules| - 1);
      OneEventNoRepeats(init, e, c);
      var fs, last := EvaluateAll(init, e, c), EvaluateOne(e, c)(r);
      if Runs(r, false) {
        assert Reports(rules, |rules| - 1);
        assert last == r.evaluate(e, c);
        forall i | 0 <= i < |fs| && last != [] ensures fs[i].fingerprint != last[0].fingerprint {
          FlatMapMembers(init, EvaluateOne(e, c), fs[i]);
          var j :| 0 <= j < |init| && fs[i] in EvaluateOne(e, c)(init[j]);
          assert init[j] == rules[j];
          assert fs[i] in rules[j].evaluate(e, c) && last[0] in rules[|rules|-1].evaluate(e, c);
        }
      }
    }
  }

  lemma DisciplinedPrefix(rules: seq<Rule>, k: nat)
    requires Disciplined(rules) && k <= |rules|
    ensures Disciplined(rules[..k])
  {
    forall i | 0 <= i < k ensures Reads(rules[..k], i) && Reports(rules[..k], i) {
      assert Reads(rules, i) && Reports(rules, i) && rules[..k][i] == rules[i];
    }
  }

  /** Over a whole batch run of disciplined rules no fingerprint repeats. */
  lemma {:induction false} BatchNoRepeats(rules: seq<Rule>, events: seq<Event>, n: nat)
    requires Disciplined(rules) && n <= |events|
    ensures NoRepeats(BatchAfter(rules, events, n))
  {
    if n > 0 {
      BatchNoRepeats(rules, events, n - 1);
      OnEventNoRepeats(rules, BatchAfter(rules, events, n - 1), events, events[n-1]);
    }
  }

  lemma OnEventNoRepeats(rules: seq<Rule>, found: seq<Finding>, window: seq<Event>, e: Event)
    requires Disciplined(rules) && NoRepeats(found)
    ensures NoRepeats(BatchOn(rules, found, window, e))
  {
    var c := Context(window, Fingerprints(found), false);
    OneEventNoRepeats(rules, e, c);
    NoRepeatsConcat(found, EvaluateAll(rules, e, c));
  }

  lemma NoRepeatsConcat(a: seq<Finding>, b: seq<Finding>)
    requires NoRepeats(a) && NoRepeats(b) && forall i :: 0 <= i < |b| ==> b[i].fingerprint !in Fingerprints(a)
    ensures NoRepeats(a + b)
  {
    var all := a + b;
    forall i, j | 0 <= i < j < |all| ensures all[i].fingerprint != all[j].fingerprint {
      if i < |a| <= j { assert a[i] in a && all[j] == b[j - |a|]; }
    }
  }

  // ---------- the condition is exact ----------

  const ANY := Filters(None, None, None, None, None, None)

  /** On event `at`, reports once if event `other` is among the last `seconds`. */
  function EvaluateWitness(at: string, other: string, seconds: int, e: Event, c: Context): seq<Finding> {
    if e.id == at && "seen" !in c.open && other in Ids(EventsInWindow(c.window, e, seconds, ANY))
    then [Finding("witness", e.tenantId, "seen", [e.id], map[])] else []
  }

  function Witness(at: string, other: string, seconds: int): Rule {
    Rule("witness", Realtime, (e: Event, c: Context) => EvaluateWitness(at, other, seconds, e, c))
  }

  lemma WitnessIsDisciplined(at: string, other: string, seconds: int)
    ensures Disciplined([Witness(at, other, seconds)])
  {
    var r := Witness(at, other, seconds);
    forall e, w, w', open, scheduled | LookAlike(w, w', e)
      ensures r.evaluate(e, Context(w, open, scheduled)) == r.evaluate(e, Context(w', open, scheduled))
    {
      assert EventsInWindow(w, e, seconds, ANY) == EventsInWindow(w', e, seconds, ANY);
    }
    assert ReadsThroughQueries(r);
    forall e, c, f, id | f in r.evaluate(e, c) && id in f.eventIds ensures CitedFrom(id, e, c) {}
    assert CitesWhatItSaw(r);
  }

  lemma WitnessAlone(at: string, other: string, seconds: int, e: Event, c: Context)
    requires !c.scheduled
    ensures EvaluateAll([Witness(at, other, seconds)], e, c) == EvaluateWitness(at, other, seconds, e, c)
  {
    var r := Witness(at, other, seconds);
    assert [r][..0] == [];
    assert FlatMap([r][..0], EvaluateOne(e, c)) == [];
    assert EvaluateOne(e, c)(r) == r.evaluate(e, c);
  }

  ghost predicate Quiet(events: seq<Event>, i: nat, j: nat, seconds: int, n: nat)
    requires i < |events| && j < |events| && n <= |events|
  {
    StreamAfter([Witness(events[i].id, events[j].id, seconds)], events, n) == []
  }

  /** The stream never sees, from event `i`, an event that arrives after it. */
  lemma {:induction false} StreamMisses(events: seq<Event>, i: nat, j: nat, seconds: int, n: nat)
    requires AllApart(events) && i < j < |events| && n <= |events|
    ensures Quiet(events, i, j, seconds, n)
  {
    if n > 0 {
      StreamMisses(events, i, j, seconds, n - 1);
      StaysQuiet(events, i, j, seconds, n);
    }
  }

  lemma StaysQuiet(events: seq<Event>, i: nat, j: nat, seconds: int, n: nat)
    requires AllApart(events) && i < j < |events| && 0 < n <= |events| && Quiet(events, i, j, seconds, n - 1)
    ensures Quiet(events, i, j, seconds, n)
  {
    ArrivalIsQuiet(events, i, j, seconds, n);
  }

  lemma ArrivalIsQuiet(events: seq<Event>, i: nat, j: nat, seconds: int, n: nat)
    requires AllApart(events) && i < j < |events| && 0 < n <= |events|
    ensures StreamOn([Witness(events[i].id, events[j].id, seconds)], [], SortBy(events[..n], Time()), events[n-1]) == []
  {
    if n - 1 == i { NotYetThere(events, i, j, seconds); }
    else if n - 1 < i { assert Apart(events, n - 1, i); }
    else { assert Apart(events, i, n - 1); }
    WitnessQuiet(events[i].id, events[j].id, seconds, SortBy(events[..n], Time()), events[n-1]);
  }

  lemma WitnessQuiet(at: string, other: string, seconds: int, window: seq<Event>, e: Event)
    requires e.id != at || other !in Ids(EventsInWindow(window, e, seconds, ANY))
    ensures StreamOn([Witness(at, other, seconds)], [], window, e) == []
  {
    WitnessAlone(at, other, seconds, e, Context(window, Fingerprints([]), false));
  }

  lemma NotYetThere(events: seq<Event>, i: nat, j: nat, seconds: int)
    requires AllApart(events) && i < j < |events|
    ensures events[j].id !in Ids(EventsInWindow(SortBy(events[..i+1], Time()), events[i], seconds, ANY))
  {
    var e, window := events[i], SortBy(events[..i+1], Time());
    IdsOf(EventsInWindow(window, e, seconds, ANY), events[j].id);
    FilterMembers(window, Selecting(e.tenantId, e.time - seconds * MICROS, Some(e.time), ANY));
    SortMembers(events[..i+1], Time());
    forall k | 0 <= k <= i ensures events[k].id != events[j].id { assert Apart(events, k, j); }
  }

  /** The batch does, if that event's time is not later. */
  lemma BatchSees(events: seq<Event>, i: nat, j: nat, seconds: int)
    requires i < j < |events| && events[i].tenantId == events[j].tenantId
    requires events[i].time - seconds * MICROS <= events[j].time <= events[i].time
    ensures BatchAfter([Witness(events[i].id, events[j].id, seconds)], events, i + 1) != []
  {
    var r := Witness(events[i].id, events[j].id, seconds);
    if BatchAfter([r], events, i) == [] {
      assert Fingerprints([]) == {};
      WitnessFires(events, i, j, seconds, {});
      WitnessAlone(events[i].id, events[j].id, seconds, events[i], Context(events, {}, false));
    }
  }

  lemma WitnessFires(events: seq<Event>, i: nat, j: nat, seconds: int, open: set<string>)
    requires i < j < |events| && events[i].tenantId == events[j].tenantId && open == {}
    requires events[i].time - seconds * MICROS <= events[j].time <= events[i].time
    ensures EvaluateWitness(events[i].id, events[j].id, seconds, events[i], Context(events, open, false)) != []
  {
    var e := events[i];
    FilterMembers(events, Selecting(e.tenantId, e.time - seconds * MICROS, Some(e.time), ANY));
    IdsOf(EventsInWindow(events, e, seconds, ANY), events[j].id);
  }

  lemma {:induction false} BatchGrows(rules: seq<Rule>, events: seq<Event>, n: nat, m: nat)
    requires n <= m <= |events|
    ensures |BatchAfter(rules, events, n)| <= |BatchAfter(rules, events, m)|
  {
    if n < m { BatchGrows(rules, events, n, m - 1); }
  }

  lemma BatchRunSees(events: seq<Event>, i: nat, j: nat, seconds: int)
    requires i < j < |events| && events[i].tenantId == events[j].tenantId
    requires events[i].time - seconds * MICROS <= events[j].time <= events[i].time
    ensures BatchRun([Witness(events[i].id, events[j].id, seconds)], events) != []
  {
    BatchSees(events, i, j, seconds);
    BatchGrows([Witness(events[i].id, events[j].id, seconds)], events, i + 1, |events|);
  }

  lemma LateEventIsMissed(events: seq<Event>, tenantId: string, i: nat, j: nat) returns (rules: seq<Rule>)
    requires Replayable(events, tenantId) && i < j < |events| && events[j].time <= events[i].time
    ensures Disciplined(rules) && StreamRun(rules, events) != BatchRun(rules, events)
  {
    var seconds := events[i].time - events[j].time;
    assert seconds * MICROS >= seconds;
    rules := [Witness(events[i].id, events[j].id, seconds)];
    WitnessIsDisciplined(events[i].id, events[j].id, seconds);
    assert StreamRun(rules, events) == [] by { StreamMisses(events, i, j, seconds, |events|); }
    assert BatchRun(rules, events) != [] by { BatchRunSees(events, i, j, seconds); }
  }

  /** Streaming and batch replay report the same findings, in the same order and citing the same
      events, under every disciplined set of rules, if and only if event times strictly increase. */
  lemma ReplayAgreesIff(events: seq<Event>, tenantId: string)
    requires Replayable(events, tenantId)
    ensures Increasing(events) <==> forall rules :: Disciplined(rules) ==> StreamRun(rules, events) == BatchRun(rules, events)
  {
    if Increasing(events) {
      forall rules | Disciplined(rules) ensures StreamRun(rules, events) == BatchRun(rules, events) {
        StreamKeepsFirsts(rules, events, |events|);
        BatchNoRepeats(rules, events, |events|);
        KeepAllIff(BatchRun(rules, events));
      }
    } else {
      var i, j :| 0 <= i < j < |events| && !Earlier(events, i, j);
      var rules := LateEventIsMissed(events, tenantId, i, j);
    }
  }

  /** Batch replay equals the services: ingesting a scenario with strictly increasing times into a store
      new to the tenant accepts every payload and stores exactly the findings of the batch run. */
  lemma ReplayEqualsIngest(cfg: Config, db: Tables, tenantId: string, ps: seq<Payload>, events: seq<Event>)
    requires RulesCite(cfg) && Disciplined(cfg.rules) && NothingSuppressed(cfg, tenantId)
    requires Scenario(events, tenantId) && Increasing(events) && Carries(cfg, db.drawn, tenantId, ps, events) && NewTo(db, tenantId, events)
    ensures var s := IngestAll(cfg, db, tenantId, ps);
      && s.Ingest? && |s.accepted| == |ps|
      && FindingsOf(s.db.findings, tenantId) == BatchRun(cfg.rules, events)
      && s.findings == |BatchRun(cfg.rules, events)|
      && NoRepeats(BatchRun(cfg.rules, events))
  {
    IngestIsStreaming(cfg, db, tenantId, ps, events, |ps|);
    assert ps[..|ps|] == ps;
    ReplayAgreesIff(events, tenantId);
    BatchNoRepeats(cfg.rules, events, |events|);
    var s := IngestAll(cfg, db, tenantId, ps);
    IngestAccountsForEveryPayload(cfg, db, tenantId, ps);
    FindingsOfGrow(db, s.db, tenantId);
  }

  /** Rows added by the tenant are all the tenant's. */
  lemma {:induction false} FindingsOfGrow(db: Tables, db': Tables, tenantId: string)
    requires Grows(db, db', tenantId)
    ensures |FindingsOf(db'.findings, tenantId)| == |FindingsOf(db.findings, tenantId)| + |db'.findings| - |db.findings|
    decreases |db'.findings|
  {
    if |db.findings| < |db'.findings| {
      var shorter := db'.(findings := db'.findings[..|db'.findings|-1]);
      FindingsOfGrow(db, shorter, tenantId);
    } else {
      assert db.findings == db'.findings;
    }
  }

  /** Without asking that rules report once: the batch run and the store agree exactly if the batch
      repeats no fingerprint; otherwise the store keeps the first finding of each. */
  lemma ReplayEqualsIngestIff(cfg: Config, db: Tables, tenantId: string, ps: seq<Payload>, events: seq<Event>)
    requires RulesCite(cfg) && AllReadThroughQueries(cfg.rules) && NothingSuppressed(cfg, tenantId)
    requires Scenario(events, tenantId) && Increasing(events) && Carries(cfg, db.drawn, tenantId, ps, events) && NewTo(db, tenantId, events)
    ensures var s := IngestAll(cfg, db, tenantId, ps);
      && s.Ingest?
      && FindingsOf(s.db.findings, tenantId) == Keep([], BatchRun(cfg.rules, events))
      && (FindingsOf(s.db.findings, tenantId) == BatchRun(cfg.rules, events) <==> NoRepeats(BatchRun(cfg.rules, events)))
  {
    IngestIsStreaming(cfg, db, tenantId, ps, events, |ps|);
    assert ps[..|ps|] == ps;
    StreamKeepsFirsts(cfg.rules, events, |events|);
    KeepAllIff(BatchRun(cfg.rules, events));
  }
}
