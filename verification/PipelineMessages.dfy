/** The very messages a drain publishes, told from those it handles and the normaliser's answers. */
module PipelineMessages {
  import opened Common
  import opened Fabric
  import opened Pipeline
  import opened PipelineFates

  /** Why a message that is not well formed fails. */
  function Fault(n: Normalizer, m: Envelope): string {
    match n(m.payload, m.tenantId)
    case NormRaises(reason) => reason
    case Normal(e) => if e.tenantId != m.tenantId then "tenant mismatch after normalize" else "schema_version missing after normalize"
  }

  /** The events the normaliser makes of the well-formed messages, in order. */
  function Events(n: Normalizer, batch: seq<Envelope>): seq<CanonicalEvent> {
    if batch == [] then []
    else (if Wellformed(n, batch[0]) then [n(batch[0].payload, batch[0].tenantId).event] else []) + Events(n, batch[1..])
  }

  /** One message for each event: a first attempt, under the topic's name and the event's id. */
  predicate Announces(m: Envelope, e: CanonicalEvent) {
    && m.eventId == e.id && m.tenantId == e.tenantId && m.payload == e.payload
    && m.topic == "telemetry.normalized.v1" && m.idempotencyKey == "telemetry.normalized.v1:" + e.id
    && m.attempt == 0 && !m.poison
  }

  /** A copy for the dead-letter topic that says why and where from. */
  ghost predicate Buries(dead: Envelope, m: Envelope, fault: string) {
    && dead.eventId == m.eventId && dead.tenantId == m.tenantId
    && dead.topic == "deadletter.events.v1" && dead.idempotencyKey == "dlq:" + m.idempotencyKey
    && dead.attempt == m.attempt + 1 && dead.poison
    && (forall k :: k in dead.payload <==> k in m.payload || k == "dlq_reason" || k == "original_topic")
    && dead.payload["dlq_reason"] == "poison: " + fault && dead.payload["original_topic"] == m.topic
    && forall k :: k in m.payload && k != "dlq_reason" && k != "original_topic" ==> dead.payload[k] == m.payload[k]
  }

  /** The same message, one attempt later. */
  predicate Repeats(again: Envelope, m: Envelope) {
    && again.eventId == m.eventId && again.tenantId == m.tenantId && again.topic == m.topic
    && again.idempotencyKey == m.idempotencyKey && again.payload == m.payload && again.poison == m.poison
    && again.attempt == m.attempt + 1
  }

  /** The failing messages whose attempts are used up, or are not, in order. */
  function Failing(n: Normalizer, maxAttempts: int, batch: seq<Envelope>, usedUp: bool): seq<Envelope> {
    if batch == [] then []
    else
      (if !Wellformed(n, batch[0]) && usedUp == (batch[0].attempt + 1 >= maxAttempts) then [batch[0]] else [])
      + Failing(n, maxAttempts, batch[1..], usedUp)
  }

  lemma {:induction false} EventsMore(n: Normalizer, batch: seq<Envelope>, m: Envelope)
    ensures Events(n, batch + [m]) == Events(n, batch) + if Wellformed(n, m) then [n(m.payload, m.tenantId).event] else []
  {
    if batch == [] { assert [m][1..] == []; }
    else {
      EventsMore(n, batch[1..], m);
      assert (batch + [m])[1..] == batch[1..] + [m];
    }
  }

  lemma FailingFront(n: Normalizer, maxAttempts: int, batch: seq<Envelope>, usedUp: bool)
    requires batch != []
    ensures Failing(n, maxAttempts, batch, usedUp) == Failing(n, maxAttempts, [batch[0]], usedUp) + Failing(n, maxAttempts, batch[1..], usedUp)
  {
    assert [batch[0]][1..] == [];
  }

  lemma {:induction false} FailingMore(n: Normalizer, maxAttempts: int, batch: seq<Envelope>, m: Envelope, usedUp: bool)
    ensures Failing(n, maxAttempts, batch + [m], usedUp)
            == Failing(n, maxAttempts, batch, usedUp) + if !Wellformed(n, m) && usedUp == (m.attempt + 1 >= maxAttempts) then [m] else []
  {
    if batch == [] { assert [m][1..] == []; }
    else {
      var rest := batch[1..];
      FailingMore(n, maxAttempts, rest, m, usedUp);
      assert (batch + [m])[1..] == rest + [m] && (batch + [m])[0] == batch[0];
      ConcatAssoc(Failing(n, maxAttempts, [batch[0]], usedUp), Failing(n, maxAttempts, rest, usedUp),
                  if !Wellformed(n, m) && usedUp == (m.attempt + 1 >= maxAttempts) then [m] else []);
      FailingFront(n, maxAttempts, batch, usedUp);
      FailingFront(n, maxAttempts, batch + [m], usedUp);
    }
  }

  lemma FateTold(n: Normalizer, maxAttempts: int, m: Envelope)
    ensures FateOf(n, maxAttempts, m) ==
      if Wellformed(n, m) then Accept(n(m.payload, m.tenantId).event)
      else if m.attempt + 1 >= maxAttempts then Bury("poison: " + Fault(n, m))
      else Retry
  {
  }

  lemma {:induction false} AcceptedAreEvents(n: Normalizer, maxAttempts: int, batch: seq<Envelope>)
    ensures AcceptedOf(n, maxAttempts, batch) == Events(n, batch)
  {
    if batch != [] {
      var init, m := batch[..|batch|-1], batch[|batch|-1];
      AcceptedAreEvents(n, maxAttempts, init);
      EventsMore(n, init, m);
      FateTold(n, maxAttempts, m);
      assert batch == init + [m];
    }
  }

  lemma {:induction false} OutgoingAnnounce(events: seq<CanonicalEvent>)
    ensures |OutgoingOf(events)| == |events| && forall i :: 0 <= i < |events| ==> Announces(OutgoingOf(events)[i], events[i])
  {
    if events != [] {
      OutgoingAnnounce(events[..|events|-1]);
      assert NORMALIZED + ":" == "telemetry.normalized.v1:";
    }
  }

  lemma PoisonedBuries(m: Envelope, fault: string)
    ensures Buries(Poisoned(m, "poison: " + fault), m, fault)
  {
  }

  lemma {:induction false} BuriedAreFailing(n: Normalizer, maxAttempts: int, batch: seq<Envelope>)
    ensures var dead, from := BuriedOf(n, maxAttempts, batch), Failing(n, maxAttempts, batch, true);
      |dead| == |from| && forall i :: 0 <= i < |dead| ==> Buries(dead[i], from[i], Fault(n, from[i]))
  {
    if batch != [] {
      var init, m := batch[..|batch|-1], batch[|batch|-1];
      BuriedAreFailing(n, maxAttempts, init);
      FailingMore(n, maxAttempts, init, m, true);
      FateTold(n, maxAttempts, m);
      PoisonedBuries(m, Fault(n, m));
      assert batch == init + [m];
    }
  }

  ghost predicate AllRepeat(again: seq<Envelope>, from: seq<Envelope>) {
    |again| == |from| && forall i :: 0 <= i < |again| ==> Repeats(again[i], from[i])
  }

  lemma RetriedRepeats(m: Envelope)
    ensures Repeats(Retried(m), m)
  {
  }

  lemma {:induction false} RetriedAreFailing(n: Normalizer, maxAttempts: int, batch: seq<Envelope>)
    ensures AllRepeat(RetriedOf(n, maxAttempts, batch), Failing(n, maxAttempts, batch, false))
  {
    if batch != [] {
      var init, m := batch[..|batch|-1], batch[|batch|-1];
      RetriedAreFailing(n, maxAttempts, init);
      FailingMore(n, maxAttempts, init, m, false);
      FateTold(n, maxAttempts, m);
      RetriedRepeats(m);
      assert batch == init + [m];
    }
  }

  /** What has been put at the end of a queue. */
  function Added(before: seq<Envelope>, after: seq<Envelope>): seq<Envelope> {
    if before <= after then after[|before|..] else []
  }

  /** A drain lists the events of the well-formed messages it handles and announces them one by one; it buries a copy
      of each failing message whose attempts are used up, and puts the others back, and nothing else. */
  lemma DrainPublishes(n: Normalizer, maxAttempts: int, s: PipeState, group: string)
    requires Routed(s.f)
    ensures var batch, r := Handled(s, group), DrainRaw(n, maxAttempts, s, group);
      var events, dead, again := Events(n, batch), Failing(n, maxAttempts, batch, true), Failing(n, maxAttempts, batch, false);
      && Routed(r.s.f) && r.accepted == |events| && r.dead == |dead|
      && r.s.normalized == s.normalized + events
      && s.f.topics[NORMALIZED] <= r.s.f.topics[NORMALIZED] && s.f.topics[DEADLETTER] <= r.s.f.topics[DEADLETTER]
      && (var out := Added(s.f.topics[NORMALIZED], r.s.f.topics[NORMALIZED]);
          |out| == |events| && forall i :: 0 <= i < |out| ==> Announces(out[i], events[i]))
      && (var buried := Added(s.f.topics[DEADLETTER], r.s.f.topics[DEADLETTER]);
          |buried| == |dead| && forall i :: 0 <= i < |dead| ==> Buries(buried[i], dead[i], Fault(n, dead[i])))
      && AllRepeat(r.s.f.topics[RAW], again)
  {
    var batch := Handled(s, group);
    DrainSplits(n, maxAttempts, s, group);
    AcceptedAreEvents(n, maxAttempts, batch);
    OutgoingAnnounce(Events(n, batch));
    BuriedAreFailing(n, maxAttempts, batch);
    RetriedAreFailing(n, maxAttempts, batch);
    var r := DrainRaw(n, maxAttempts, s, group).s.f;
    assert Added(s.f.topics[NORMALIZED], r.topics[NORMALIZED]) == OutgoingOf(Events(n, batch));
    assert Added(s.f.topics[DEADLETTER], r.topics[DEADLETTER]) == BuriedOf(n, maxAttempts, batch);
  }

  /** Whatever is done with a fabric, it has just the eight topics; the stage reads from and writes to the first three. */
  lemma TopicsOfAFabric(ops: seq<Op>)
    ensures RunAll(ops).f.topics.Keys == {
      "telemetry.raw.v1", "telemetry.normalized.v1", "deadletter.events.v1", "detections.findings.v1",
      "correlation.candidates.v1", "incidents.events.v1", "evidence.created.v1", "telemetry.health.v1"}
    ensures RAW == "telemetry.raw.v1" && NORMALIZED == "telemetry.normalized.v1" && DEADLETTER == "deadletter.events.v1"
  {
    FabricInvariant(ops);
  }
}
