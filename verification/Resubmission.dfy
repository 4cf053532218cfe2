/**
 Submitting payloads again: which are accepted a second time, under a new id, and which never are.
 */
module Resubmission {
  import opened Common
  import opened Detection
  import opened Store
  import opened StoreProofs

  /** A caller can tell this from the payload: it does not normalise, carries its own id, or yields a
      non-empty idempotency key. */
  predicate Fixed(cfg: Config, tenantId: string, p: Payload) {
    var n := cfg.normalize(p, tenantId);
    n.Normal? ==> HasOwnId(n) || HasKey(n)
  }

  predicate AllFixed(cfg: Config, tenantId: string, ps: seq<Payload>) {
    forall k :: 0 <= k < |ps| ==> Fixed(cfg, tenantId, ps[k])
  }

  // ---------- settled payloads ----------

  /** The stored row has the payload's own id, or is of the tenant and has its idempotency key. */
  predicate SameAs(r: EventRow, tenantId: string, n: NormResult)
    requires n.Normal?
  {
    (HasOwnId(n) && r.id == n.ownId.value) || (HasKey(n) && EventWithKey(tenantId, n.fields.idempotencyKey.value)(r))
  }

  /** Whatever else is appended, the payload will not be accepted (again). */
  ghost predicate Settled(cfg: Config, db: Tables, tenantId: string, p: Payload) {
    var n := cfg.normalize(p, tenantId);
    n.Normal? ==> exists i :: 0 <= i < |db.events| && SameAs(db.events[i], tenantId, n)
  }

  lemma SettledStays(cfg: Config, db: Tables, db': Tables, tenantId: string, p: Payload)
    requires Settled(cfg, db, tenantId, p) && db.events <= db'.events
    ensures Settled(cfg, db', tenantId, p)
  {
    var n := cfg.normalize(p, tenantId);
    if n.Normal? {
      var i :| 0 <= i < |db.events| && SameAs(db.events[i], tenantId, n);
      assert db'.events[i] == db.events[i];
    }
  }

  ghost predicate DrawIsNew(cfg: Config, db: Tables) {
    forall i :: 0 <= i < |db.events| ==> db.events[i].id != cfg.draw(db.drawn).id
  }

  /** With a new id at hand, a payload is accepted exactly if it is not settled: it normalises, and
      neither its own id nor, within the tenant, its key is stored. */
  lemma SettledIff(cfg: Config, db: Tables, tenantId: string, p: Payload)
    requires DrawIsNew(cfg, db)
    ensures Settled(cfg, db, tenantId, p) <==> !Classify(cfg, db, tenantId, p).Accept?
  {
    var n := cfg.normalize(p, tenantId);
    if n.Normal? {
      var e := Named(n, cfg.draw(db.drawn));
      var byId := Find(db.events, EventWithId(e.id));
      if byId.Some? { assert EventWithId(e.id)(db.events[byId.value]) && SameAs(db.events[byId.value], tenantId, n); }
      if HasKey(n) {
        var byKey := Find(db.events, EventWithKey(tenantId, n.fields.idempotencyKey.value));
        if byKey.Some? { assert SameAs(db.events[byKey.value], tenantId, n); }
      }
      if i :| 0 <= i < |db.events| && SameAs(db.events[i], tenantId, n) {
        if HasOwnId(n) && db.events[i].id == n.ownId.value { assert EventWithId(e.id)(db.events[i]); }
      }
    }
  }

  // ---------- new ids ----------

  ghost predicate Differ(cfg: Config, k: nat, l: nat) { cfg.draw(k).id != cfg.draw(l).id }

  ghost predicate NotStored(cfg: Config, db: Tables, k: nat) {
    forall i :: 0 <= i < |db.events| ==> db.events[i].id != cfg.draw(k).id
  }

  ghost predicate NotCarried(cfg: Config, tenantId: string, ps: seq<Payload>, k: nat) {
    forall j :: 0 <= j < |ps| ==> OwnIdOf(cfg, tenantId, ps[j]) != Some(cfg.draw(k).id)
  }

  function OwnIdOf(cfg: Config, tenantId: string, p: Payload): Option<string> {
    var n := cfg.normalize(p, tenantId);
    if n.Normal? && HasOwnId(n) then n.ownId else None
  }

  /** The ids still to be drawn are new: to each other, to the store and to the payloads. */
  ghost predicate Unforeseen(cfg: Config, db: Tables, tenantId: string, ps: seq<Payload>) {
    && (forall k: nat, l: nat {:trigger Differ(cfg, k, l)} :: k < l ==> Differ(cfg, k, l))
    && (forall k: nat {:trigger NotStored(cfg, db, k)} :: db.drawn <= k ==> NotStored(cfg, db, k))
    && (forall k: nat {:trigger NotCarried(cfg, tenantId, ps, k)} :: db.drawn <= k ==> NotCarried(cfg, tenantId, ps, k))
  }

  lemma DrawnIsNew(cfg: Config, db: Tables, tenantId: string, ps: seq<Payload>)
    requires Unforeseen(cfg, db, tenantId, ps)
    ensures DrawIsNew(cfg, db)
  {
    assert NotStored(cfg, db, db.drawn);
  }

  lemma StepStaysUnforeseen(cfg: Config, tenantId: string, s: Ingest, ps: seq<Payload>, m: nat)
    requires RulesCite(cfg) && s.Ingest? && Sound(s.db) && m < |ps| && Unforeseen(cfg, s.db, tenantId, ps)
    ensures var r := IngestOne(cfg, tenantId, s, ps[m]); r.Ingest? && Unforeseen(cfg, r.db, tenantId, ps)
  {
    IngestOneKeeps(cfg, tenantId, s, ps[m]);
    IngestOneEvents(cfg, tenantId, s, ps[m]);
    var r, v := IngestOne(cfg, tenantId, s, ps[m]), Classify(cfg, s.db, tenantId, ps[m]);
    forall k: nat | r.db.drawn <= k ensures NotStored(cfg, r.db, k) && NotCarried(cfg, tenantId, ps, k) {
      assert NotStored(cfg, s.db, k) && NotCarried(cfg, tenantId, ps, k) && Differ(cfg, s.db.drawn, k);
      if v.Accept? { assert OwnIdOf(cfg, tenantId, ps[m]) != Some(cfg.draw(k).id); }
    }
  }

  lemma IngestOneEvents(cfg: Config, tenantId: string, s: Ingest, p: Payload)
    requires RulesCite(cfg) && s.Ingest? && Sound(s.db)
    ensures var r, v := IngestOne(cfg, tenantId, s, p), Classify(cfg, s.db, tenantId, p);
      && r.Ingest?
      && r.db.events == s.db.events + (if v.Accept? then [EventRow(v.event.id, tenantId, v.rawHash, v.event)] else [])
      && |r.accepted| == |s.accepted| + if v.Accept? then 1 else 0
  {
    DrawKeeps(s.db);
    match Classify(cfg, s.db, tenantId, p) {
      case Accept(e, rawHash) => AcceptKeeps(cfg, NextDraw(s.db), tenantId, e, rawHash);
      case _ =>
    }
  }

  lemma {:induction false} IngestStaysUnforeseen(cfg: Config, db: Tables, tenantId: string, ps: seq<Payload>, n: nat)
    requires RulesCite(cfg) && Sound(db) && n <= |ps| && Unforeseen(cfg, db, tenantId, ps)
    ensures var s := IngestAll(cfg, db, tenantId, ps[..n]);
      s.Ingest? && Sound(s.db) && db.events <= s.db.events && Unforeseen(cfg, s.db, tenantId, ps)
  {
    IngestAccountsForEveryPayload(cfg, db, tenantId, ps[..n]);
    if n > 0 {
      IngestStaysUnforeseen(cfg, db, tenantId, ps, n - 1);
      assert ps[..n][..n-1] == ps[..n-1];
      StepStaysUnforeseen(cfg, tenantId, IngestAll(cfg, db, tenantId, ps[..n-1]), ps, n - 1);
    }
  }

  // ---------- the first submission ----------

  lemma IngestOneSettles(cfg: Config, tenantId: string, s: Ingest, p: Payload)
    requires RulesCite(cfg) && s.Ingest? && Sound(s.db) && DrawIsNew(cfg, s.db) && Fixed(cfg, tenantId, p)
    ensures var r := IngestOne(cfg, tenantId, s, p); r.Ingest? && Settled(cfg, r.db, tenantId, p)
  {
    IngestOneEvents(cfg, tenantId, s, p);
    SettledIff(cfg, s.db, tenantId, p);
    var r, v, n := IngestOne(cfg, tenantId, s, p), Classify(cfg, s.db, tenantId, p), cfg.normalize(p, tenantId);
    if v.Accept? {
      assert r.db.events[|s.db.events|] == EventRow(v.event.id, tenantId, v.rawHash, v.event);
      assert SameAs(r.db.events[|s.db.events|], tenantId, n);
    } else {
      SettledStays(cfg, s.db, r.db, tenantId, p);
    }
  }

  /** After a batch, no fixed payload of it would be accepted again. */
  lemma {:induction false} IngestSettlesAll(cfg: Config, db: Tables, tenantId: string, ps: seq<Payload>, n: nat, k: nat)
    requires RulesCite(cfg) && Sound(db) && k < n <= |ps| && Unforeseen(cfg, db, tenantId, ps) && Fixed(cfg, tenantId, ps[k])
    ensures var s := IngestAll(cfg, db, tenantId, ps[..n]); s.Ingest? && Settled(cfg, s.db, tenantId, ps[k])
  {
    var m: nat := n - 1;
    IngestStaysUnforeseen(cfg, db, tenantId, ps, m);
    var s := IngestAll(cfg, db, tenantId, ps[..m]);
    assert ps[..n][..m] == ps[..m];
    IngestOneEvents(cfg, tenantId, s, ps[m]);
    if k == m {
      DrawnIsNew(cfg, s.db, tenantId, ps);
      IngestOneSettles(cfg, tenantId, s, ps[m]);
    } else {
      IngestSettlesAll(cfg, db, tenantId, ps, m, k);
      SettledStays(cfg, s.db, IngestOne(cfg, tenantId, s, ps[m]).db, tenantId, ps[k]);
    }
  }

  // ---------- the second ----------

  /** What has become of the store since a batch: other rows may have been added, none lost, and the ids
      still to be drawn are new. */
  ghost predicate Since(cfg: Config, db: Tables, tenantId: string, ps: seq<Payload>, later: Tables) {
    && Sound(db) && Unforeseen(cfg, db, tenantId, ps)
    && Sound(later) && Unforeseen(cfg, later, tenantId, ps)
    && var r := IngestAll(cfg, db, tenantId, ps);
       r.Ingest? && r.db.events <= later.events
  }

  /** Submitted again, in the course of its batch and at any later time, a payload is accepted a second
      time if and only if it is not fixed. */
  lemma ResubmittedIsAcceptedIff(cfg: Config, db: Tables, tenantId: string, ps: seq<Payload>, later: Tables, k: nat)
    requires RulesCite(cfg) && Since(cfg, db, tenantId, ps, later) && k < |ps|
    ensures var s := IngestAll(cfg, later, tenantId, ps[..k]);
      s.Ingest? && (Classify(cfg, s.db, tenantId, ps[k]).Accept? <==> !Fixed(cfg, tenantId, ps[k]))
  {
    IngestStaysUnforeseen(cfg, later, tenantId, ps, k);
    var s := IngestAll(cfg, later, tenantId, ps[..k]);
    DrawnIsNew(cfg, s.db, tenantId, ps);
    SettledIff(cfg, s.db, tenantId, ps[k]);
    if Fixed(cfg, tenantId, ps[k]) {
      assert ps[..|ps|] == ps;
      IngestSettlesAll(cfg, db, tenantId, ps, |ps|, k);
      SettledStays(cfg, IngestAll(cfg, db, tenantId, ps).db, s.db, tenantId, ps[k]);
    }
  }

  function Unfixed(cfg: Config, tenantId: string, ps: seq<Payload>): nat {
    if ps == [] then 0
    else Unfixed(cfg, tenantId, ps[..|ps|-1]) + if Fixed(cfg, tenantId, ps[|ps|-1]) then 0 else 1
  }

  lemma CountsOneMore(cfg: Config, db: Tables, tenantId: string, ps: seq<Payload>, later: Tables, m: nat)
    requires RulesCite(cfg) && Since(cfg, db, tenantId, ps, later) && m < |ps|
    ensures var s, s' := IngestAll(cfg, later, tenantId, ps[..m]), IngestAll(cfg, later, tenantId, ps[..m+1]);
      s.Ingest? && s'.Ingest? && |s'.accepted| == |s.accepted| + if Fixed(cfg, tenantId, ps[m]) then 0 else 1
  {
    var s := IngestAll(cfg, later, tenantId, ps[..m]);
    ResubmittedIsAcceptedIff(cfg, db, tenantId, ps, later, m);
    IngestOneEvents(cfg, tenantId, s, ps[m]) by { IngestStaysUnforeseen(cfg, later, tenantId, ps, m); }
    IngestOneMore(cfg, later, tenantId, ps, m);
  }

  lemma {:induction false} ResubmissionCounts(cfg: Config, db: Tables, tenantId: string, ps: seq<Payload>, later: Tables, n: nat)
    requires RulesCite(cfg) && Since(cfg, db, tenantId, ps, later) && n <= |ps|
    ensures var s := IngestAll(cfg, later, tenantId, ps[..n]); s.Ingest? && |s.accepted| == Unfixed(cfg, tenantId, ps[..n])
  {
    if n > 0 {
      var m: nat := n - 1;
      ResubmissionCounts(cfg, db, tenantId, ps, later, m);
      CountsOneMore(cfg, db, tenantId, ps, later, m);
      UnfixedOneMore(cfg, tenantId, ps, m);
    }
  }

  lemma UnfixedOneMore(cfg: Config, tenantId: string, ps: seq<Payload>, m: nat)
    requires m < |ps|
    ensures Unfixed(cfg, tenantId, ps[..m+1]) == Unfixed(cfg, tenantId, ps[..m]) + if Fixed(cfg, tenantId, ps[m]) then 0 else 1
  {
    assert ps[..m+1][..m] == ps[..m];
  }

  lemma {:induction false} UnfixedNone(cfg: Config, tenantId: string, ps: seq<Payload>)
    ensures Unfixed(cfg, tenantId, ps) == 0 <==> AllFixed(cfg, tenantId, ps)
  {
    if ps != [] {
      var init := ps[..|ps|-1];
      UnfixedNone(cfg, tenantId, init);
      assert forall k :: 0 <= k < |init| ==> init[k] == ps[k];
    }
  }

  lemma {:induction false} SettledBatch(cfg: Config, db: Tables, tenantId: string, ps: seq<Payload>, n: nat)
    requires RulesCite(cfg) && Sound(db) && Unforeseen(cfg, db, tenantId, ps) && n <= |ps|
    requires forall k :: 0 <= k < |ps| ==> Settled(cfg, db, tenantId, ps[k])
    ensures var r := IngestAll(cfg, db, tenantId, ps[..n]);
      r.Ingest? && r.findings == 0 && r.db == db.(deadLetters := r.db.deadLetters, drawn := r.db.drawn)
  {
    if n > 0 {
      var m: nat := n - 1;
      SettledBatch(cfg, db, tenantId, ps, m);
      IngestStaysUnforeseen(cfg, db, tenantId, ps, m);
      var s := IngestAll(cfg, db, tenantId, ps[..m]);
      IngestOneMore(cfg, db, tenantId, ps, m);
      SettledStays(cfg, db, s.db, tenantId, ps[m]);
      DrawnIsNew(cfg, s.db, tenantId, ps);
      SettledAddsNothing(cfg, tenantId, s, ps[m]);
    }
  }

  lemma SettledAddsNothing(cfg: Config, tenantId: string, s: Ingest, p: Payload)
    requires s.Ingest? && DrawIsNew(cfg, s.db) && Settled(cfg, s.db, tenantId, p)
    ensures var r := IngestOne(cfg, tenantId, s, p);
      r.Ingest? && r.findings == s.findings && r.db == s.db.(deadLetters := r.db.deadLetters, drawn := r.db.drawn)
  {
    SettledIff(cfg, s.db, tenantId, p);
  }

  /** Submitting a batch again accepts exactly its payloads that are not fixed, each under a new id: so
      nothing if and only if all are fixed, and then no finding is created and no row added but dead
      letters. */
  lemma ResubmissionChangesNothingIff(cfg: Config, db: Tables, tenantId: string, ps: seq<Payload>, later: Tables)
    requires RulesCite(cfg) && Since(cfg, db, tenantId, ps, later)
    ensures var again := IngestAll(cfg, later, tenantId, ps);
      && again.Ingest?
      && |again.accepted| == Unfixed(cfg, tenantId, ps)
      && (again.accepted == [] <==> AllFixed(cfg, tenantId, ps))
      && (AllFixed(cfg, tenantId, ps) ==>
            again.findings == 0 && again.db == later.(deadLetters := again.db.deadLetters, drawn := again.db.drawn))
  {
    assert ps[..|ps|] == ps;
    ResubmissionCounts(cfg, db, tenantId, ps, later, |ps|);
    UnfixedNone(cfg, tenantId, ps);
    if AllFixed(cfg, tenantId, ps) {
      forall k | 0 <= k < |ps| ensures Settled(cfg, later, tenantId, ps[k]) {
        IngestSettlesAll(cfg, db, tenantId, ps, |ps|, k);
        SettledStays(cfg, IngestAll(cfg, db, tenantId, ps).db, later, tenantId, ps[k]);
      }
      SettledBatch(cfg, later, tenantId, ps, |ps|);
    }
  }

  // ---------- a payload that is accepted twice ----------

  function Xs(n: nat): (s: string)
    ensures |s| == n
  {
    if n == 0 then "" else Xs(n - 1) + "x"
  }

  const SYSLOG_LINE: Payload := map["syslog_raw" := "sshd: failed password for root"]

  /** A syslog line gets a new id and the clock's time, and no idempotency key. */
  function SyslogConfig(): Config {
    var fields := Event("", "ten_a", 0, "syslog", "authentication", Some("failure"), Some("log"), None, Some("root"), None);
    Config([], (p: Payload, t: string) => Normal(None, None, fields, "hash"), (k: nat) => Draw(Xs(k), k), (t: string, f: Finding) => false, "c")
  }

  /** The line is accepted when it comes, and again when it comes again. */
  lemma SyslogLineIsAcceptedTwice()
    ensures var once := IngestAll(SyslogConfig(), EMPTY_TABLES, "ten_a", [SYSLOG_LINE]);
      && once.Ingest? && |once.accepted| == 1
      && var again := IngestAll(SyslogConfig(), once.db, "ten_a", [SYSLOG_LINE]);
      again.Ingest? && |again.accepted| == 1
  {
    var cfg, ps := SyslogConfig(), [SYSLOG_LINE];
    forall k: nat, l: nat | k < l ensures Differ(cfg, k, l) { assert |cfg.draw(k).id| == k && |cfg.draw(l).id| == l; }
    assert Unforeseen(cfg, EMPTY_TABLES, "ten_a", ps);
    assert ps[..1] == ps && ps[..0] == [];
    IngestStaysUnforeseen(cfg, EMPTY_TABLES, "ten_a", ps, 1);
    var once := IngestAll(cfg, EMPTY_TABLES, "ten_a", ps);
    IngestOneEvents(cfg, "ten_a", Ingest(EMPTY_TABLES, [], [], [], 0), SYSLOG_LINE);
    assert !Fixed(cfg, "ten_a", SYSLOG_LINE);
    assert Unfixed(cfg, "ten_a", []) == 0;
    ResubmissionChangesNothingIff(cfg, EMPTY_TABLES, "ten_a", ps, once.db);
  }
}
