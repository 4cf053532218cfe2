/**
 What becomes of each single message of the raw topic: in the drain that handles it, and in whatever
 happens after.
 */
module PipelineFates {
  import opened Common
  import opened Fabric
  import opened Pipeline

  /** The normaliser answers for the message with an event of its tenant that has a schema version. */
  predicate Wellformed(n: Normalizer, m: Envelope) {
    var r := n(m.payload, m.tenantId);
    r.Normal? && r.event.tenantId == m.tenantId && r.event.schemaVersion != ""
  }

  function DeadKey(m: Envelope): string { "dlq:" + m.idempotencyKey }

  // ---------- members of the three lists ----------

  lemma {:induction false} AcceptedMembers(n: Normalizer, maxAttempts: int, batch: seq<Envelope>, e: CanonicalEvent)
    ensures e in AcceptedOf(n, maxAttempts, batch) <==> exists i :: 0 <= i < |batch| && FateOf(n, maxAttempts, batch[i]) == Accept(e)
  {
    if batch != [] {
      var init := batch[..|batch|-1];
      AcceptedMembers(n, maxAttempts, init, e);
      if i :| 0 <= i < |init| && FateOf(n, maxAttempts, init[i]) == Accept(e) { assert batch[i] == init[i]; }
      if i :| 0 <= i < |batch| && FateOf(n, maxAttempts, batch[i]) == Accept(e) {
        if i < |init| { assert init[i] == batch[i]; }
      }
    }
  }

  ghost predicate HasKey(q: seq<Envelope>, key: string) {
    exists i :: 0 <= i < |q| && q[i].idempotencyKey == key
  }

  lemma HasKeyConcat(a: seq<Envelope>, b: seq<Envelope>, key: string)
    ensures HasKey(a + b, key) <==> HasKey(a, key) || HasKey(b, key)
  {
    if i :| 0 <= i < |a| && a[i].idempotencyKey == key { assert (a + b)[i] == a[i]; }
    if i :| 0 <= i < |b| && b[i].idempotencyKey == key { assert (a + b)[|a|+i] == b[i]; }
  }

  lemma {:induction false} BuriedKeys(n: Normalizer, maxAttempts: int, batch: seq<Envelope>, m: Envelope)
    ensures HasKey(BuriedOf(n, maxAttempts, batch), DeadKey(m)) <==> BuriedFrom(n, maxAttempts, batch, m)
  {
    if batch != [] {
      var init, last := batch[..|batch|-1], batch[|batch|-1];
      BuriedKeys(n, maxAttempts, init, m);
      var fate := FateOf(n, maxAttempts, last);
      var more := if fate.Bury? then [Poisoned(last, fate.reason)] else [];
      HasKeyConcat(BuriedOf(n, maxAttempts, init), more, DeadKey(m));
      assert fate.Bury? ==> (HasKey(more, DeadKey(m)) <==> last.idempotencyKey == m.idempotencyKey) by {
        if fate.Bury? {
          assert more[0].idempotencyKey == DeadKey(last) && DeadKey(last)[4..] == last.idempotencyKey && DeadKey(m)[4..] == m.idempotencyKey;
        }
      }
      BatchSplit(n, maxAttempts, batch, m);
    }
  }

  lemma BatchSplit(n: Normalizer, maxAttempts: int, batch: seq<Envelope>, m: Envelope)
    requires batch != []
    ensures var init, last := batch[..|batch|-1], batch[|batch|-1];
      var same, fate := last.idempotencyKey == m.idempotencyKey, FateOf(n, maxAttempts, last);
      && (BuriedFrom(n, maxAttempts, batch, m) <==> (BuriedFrom(n, maxAttempts, init, m) || (same && fate.Bury?)))
      && (RetriedFrom(n, maxAttempts, batch, m) <==> (RetriedFrom(n, maxAttempts, init, m) || (same && fate.Retry?)))
  {
    var init := batch[..|batch|-1];
    assert forall i :: 0 <= i < |init| ==> batch[i] == init[i];
  }

  ghost predicate BuriedFrom(n: Normalizer, maxAttempts: int, batch: seq<Envelope>, m: Envelope) {
    exists i :: 0 <= i < |batch| && batch[i].idempotencyKey == m.idempotencyKey && FateOf(n, maxAttempts, batch[i]).Bury?
  }

  ghost predicate RetriedFrom(n: Normalizer, maxAttempts: int, batch: seq<Envelope>, m: Envelope) {
    exists i :: 0 <= i < |batch| && batch[i].idempotencyKey == m.idempotencyKey && FateOf(n, maxAttempts, batch[i]).Retry?
  }

  lemma {:induction false} RetriedKeys(n: Normalizer, maxAttempts: int, batch: seq<Envelope>, m: Envelope)
    ensures HasKey(RetriedOf(n, maxAttempts, batch), m.idempotencyKey) <==> RetriedFrom(n, maxAttempts, batch, m)
  {
    if batch != [] {
      var init, last := batch[..|batch|-1], batch[|batch|-1];
      RetriedKeys(n, maxAttempts, init, m);
      var more := if FateOf(n, maxAttempts, last).Retry? then [Retried(last)] else [];
      HasKeyConcat(RetriedOf(n, maxAttempts, init), more, m.idempotencyKey);
      assert FateOf(n, maxAttempts, last).Retry? ==> more[0].idempotencyKey == last.idempotencyKey;
      BatchSplit(n, maxAttempts, batch, m);
    }
  }

  // ---------- one drain, one message ----------

  /** The messages a drain for the group handles. */
  function Handled(s: PipeState, group: string): seq<Envelope>
    requires Routed(s.f)
  {
    Fresh(s.f.topics[RAW], s.f.consumed, group)
  }

  /** What a drain added to the normalised list and to the dead-letter topic. */
  function NewEvents(s: PipeState, r: PipeState): seq<CanonicalEvent> {
    if |s.normalized| <= |r.normalized| then r.normalized[|s.normalized|..] else []
  }

  function NewDead(s: PipeState, r: PipeState): seq<Envelope>
    requires Routed(s.f) && Routed(r.f)
  {
    if |s.f.topics[DEADLETTER]| <= |r.f.topics[DEADLETTER]| then r.f.topics[DEADLETTER][|s.f.topics[DEADLETTER]|..] else []
  }

  ghost predicate Accepted(n: Normalizer, s: PipeState, r: PipeState, m: Envelope) {
    Wellformed(n, m) && n(m.payload, m.tenantId).event in NewEvents(s, r)
  }

  ghost predicate DeadLettered(s: PipeState, r: PipeState, m: Envelope)
    requires Routed(s.f) && Routed(r.f)
  {
    HasKey(NewDead(s, r), DeadKey(m))
  }

  ghost predicate Requeued(r: PipeState, m: Envelope)
    requires Routed(r.f)
  {
    HasKey(r.f.topics[RAW], m.idempotencyKey)
  }

  lemma Same(a: seq<Envelope>, i: nat, j: nat)
    requires i < |a| && j < |a| && a[i].idempotencyKey == a[j].idempotencyKey
    requires forall i, j :: 0 <= i < j < |a| ==> a[i].idempotencyKey != a[j].idempotencyKey
    ensures i == j
  {
  }

  /** Each message a drain handles has exactly one of three fates, told from its key in the queues: its
      event is in the normalised list exactly if it is well formed; otherwise it is in the dead-letter
      topic exactly if its attempts are used up, and back on the raw queue exactly if they are not. */
  lemma EachMessageHasOneFate(n: Normalizer, maxAttempts: int, s: PipeState, group: string, m: Envelope)
    requires Routed(s.f) && m in Handled(s, group)
    ensures var r := DrainRaw(n, maxAttempts, s, group).s;
      && Routed(r.f)
      && (Accepted(n, s, r, m) <==> Wellformed(n, m))
      && (DeadLettered(s, r, m) <==> !Wellformed(n, m) && m.attempt + 1 >= maxAttempts)
      && (Requeued(r, m) <==> !Wellformed(n, m) && m.attempt + 1 < maxAttempts)
  {
    var batch := Handled(s, group);
    DrainShows(n, maxAttempts, s, group);
    var k :| 0 <= k < |batch| && batch[k] == m;
    FatesByKey(n, maxAttempts, batch, k);
  }

  lemma DrainShows(n: Normalizer, maxAttempts: int, s: PipeState, group: string)
    requires Routed(s.f)
    ensures var r, batch := DrainRaw(n, maxAttempts, s, group).s, Handled(s, group);
      && Routed(r.f)
      && NewEvents(s, r) == AcceptedOf(n, maxAttempts, batch)
      && NewDead(s, r) == BuriedOf(n, maxAttempts, batch)
      && r.f.topics[RAW] == RetriedOf(n, maxAttempts, batch)
      && forall i, j :: 0 <= i < j < |batch| ==> batch[i].idempotencyKey != batch[j].idempotencyKey
  {
    DrainSplits(n, maxAttempts, s, group);
  }

  lemma FatesByKey(n: Normalizer, maxAttempts: int, batch: seq<Envelope>, k: nat)
    requires k < |batch| && forall i, j :: 0 <= i < j < |batch| ==> batch[i].idempotencyKey != batch[j].idempotencyKey
    ensures Wellformed(n, batch[k]) ==> n(batch[k].payload, batch[k].tenantId).event in AcceptedOf(n, maxAttempts, batch)
    ensures HasKey(BuriedOf(n, maxAttempts, batch), DeadKey(batch[k])) <==> FateOf(n, maxAttempts, batch[k]).Bury?
    ensures HasKey(RetriedOf(n, maxAttempts, batch), batch[k].idempotencyKey) <==> FateOf(n, maxAttempts, batch[k]).Retry?
  {
    var m := batch[k];
    if Wellformed(n, m) { AcceptedMembers(n, maxAttempts, batch, n(m.payload, m.tenantId).event); }
    BuriedKeys(n, maxAttempts, batch, m);
    RetriedKeys(n, maxAttempts, batch, m);
    if i :| 0 <= i < |batch| && batch[i].idempotencyKey == m.idempotencyKey && FateOf(n, maxAttempts, batch[i]).Bury? { Same(batch, i, k); }
    if i :| 0 <= i < |batch| && batch[i].idempotencyKey == m.idempotencyKey && FateOf(n, maxAttempts, batch[i]).Retry? { Same(batch, i, k); }
  }

  // ---------- when nothing is lost ----------

  /** The message is accounted for: its event is in the normalised list, or its key in the dead letters. */
  ghost predicate Kept(n: Normalizer, maxAttempts: int, s: PipeState, group: string, m: Envelope)
    requires Routed(s.f)
  {
    var r := DrainRaw(n, maxAttempts, s, group).s;
    Accepted(n, s, r, m) || (Routed(r.f) && DeadLettered(s, r, m))
  }

  /** Whatever the normaliser does, a drain loses none of its messages, if and only if each of them has
      used up its attempts by this first handling. */
  lemma NothingIsLostIff(maxAttempts: int, s: PipeState, group: string)
    requires Routed(s.f)
    ensures (forall n, m {:trigger Kept(n, maxAttempts, s, group, m)} :: m in Handled(s, group) ==> Kept(n, maxAttempts, s, group, m))
            <==> forall m :: m in Handled(s, group) ==> m.attempt + 1 >= maxAttempts
  {
    if forall m :: m in Handled(s, group) ==> m.attempt + 1 >= maxAttempts {
      forall n, m | m in Handled(s, group) ensures Kept(n, maxAttempts, s, group, m) {
        EachMessageHasOneFate(n, maxAttempts, s, group, m);
      }
    } else {
      var m :| m in Handled(s, group) && m.attempt + 1 < maxAttempts;
      var n: Normalizer := (p, t) => NormRaises("");
      EachMessageHasOneFate(n, maxAttempts, s, group, m);
      assert !Kept(n, maxAttempts, s, group, m);
    }
  }

  /** With at most one attempt allowed, every distinct unconsumed key of the raw queue ends in exactly one
      of the normalised list and the dead-letter topic, and the raw queue is left empty. */
  lemma OneAttemptMeansNothingIsLost(n: Normalizer, maxAttempts: int, s: PipeState, group: string)
    requires Routed(s.f) && maxAttempts <= 1
    requires forall m :: m in s.f.topics[RAW] ==> m.attempt >= 0
    ensures var batch, d := Handled(s, group), DrainRaw(n, maxAttempts, s, group);
      && Routed(d.s.f)
      && KeysOf(batch, group) == KeysOf(s.f.topics[RAW], group) - s.f.consumed
      && (forall m :: m in batch ==> (Accepted(n, s, d.s, m) <==> !DeadLettered(s, d.s, m)))
      && d.accepted + d.dead == |batch|
      && d.s.f.topics[RAW] == []
  {
    var batch := Handled(s, group);
    DrainSplits(n, maxAttempts, s, group);
    FreshSpec(s.f.topics[RAW], s.f.consumed, group);
    NoRetryIff(n, maxAttempts, batch);
    forall m | m in batch ensures m.attempt + 1 >= maxAttempts { assert m in s.f.topics[RAW]; }
    forall m | m in batch ensures Accepted(n, s, DrainRaw(n, maxAttempts, s, group).s, m) <==> !DeadLettered(s, DrainRaw(n, maxAttempts, s, group).s, m) {
      EachMessageHasOneFate(n, maxAttempts, s, group, m);
    }
  }

  // ---------- whatever happens after ----------

  /** Anything that can happen to fabric and pipeline: an operation on the fabric, or a drain of the raw
      topic for some group, by any normaliser and with any limit. */
  datatype Event = OnFabric(op: Op) | Draining(n: Normalizer, maxAttempts: int, group: string)

  function After(s: PipeState, e: Event): (r: PipeState)
    requires Routed(s.f)
    ensures Routed(r.f) && s.f.consumed <= r.f.consumed
  {
    match e
    case OnFabric(op) =>
      OperationKeeps(s.f, op);
      var r := Step(s.f, op);
      if r.Reply? then s.(f := r.f) else s
    case Draining(n, maxAttempts, group) =>
      DrainSplits(n, maxAttempts, s, group);
      DrainRaw(n, maxAttempts, s, group).s
  }

  lemma {:induction false} PullKeepsRouted(f: State, topic: string, group: string, max: int, batch: seq<Envelope>, log: seq<Happening>)
    requires Routed(f) && topic in f.topics
    ensures var p := Pull(f, topic, group, max, batch, log); Routed(p.f) && f.consumed <= p.f.consumed
    decreases |f.topics[topic]|
  {
    var q := f.topics[topic];
    if q != [] && |batch| < max {
      if Key(group, q[0].idempotencyKey) in f.consumed {
        PullKeepsRouted(f.(topics := f.topics[topic := q[1..]]), topic, group, max, batch, log + [Dropped(group, topic, q[0])]);
      } else {
        PullKeepsRouted(Deliver(f, topic, group), topic, group, max, batch + [q[0]], log + [Delivered(group, topic, q[0])]);
      }
    }
  }

  lemma OperationKeeps(f: State, op: Op)
    requires Routed(f)
    ensures var r := Step(f, op); r.Reply? ==> Routed(r.f) && f.consumed <= r.f.consumed
  {
    if op.Consume? && op.topic in f.topics { PullKeepsRouted(f, op.topic, op.group, op.maxRecords, [], []); }
  }

  /** No drain for the group, in the whole course of events, handles a message with the key. */
  ghost predicate NeverHandled(s: PipeState, events: seq<Event>, group: string, key: string)
    requires Routed(s.f)
    decreases |events|
  {
    events != [] ==>
      && (events[0].Draining? && events[0].group == group ==> !HasKey(Handled(s, group), key))
      && NeverHandled(After(s, events[0]), events[1..], group, key)
  }

  lemma {:induction false} ConsumedIsNeverHandled(s: PipeState, events: seq<Event>, group: string, key: string)
    requires Routed(s.f) && Key(group, key) in s.f.consumed
    ensures NeverHandled(s, events, group, key)
    decreases |events|
  {
    if events != [] {
      FreshSpec(s.f.topics[RAW], s.f.consumed, group);
      var batch := Handled(s, group);
      forall i | 0 <= i < |batch| ensures batch[i].idempotencyKey != key {
        assert batch[i] in batch;
      }
      ConsumedIsNeverHandled(After(s, events[0]), events[1..], group, key);
    }
  }

  /** A message handled by a drain is never handled again for that group, nor any other with its key:
      whatever is published, consumed, dead-lettered or drained afterwards, and whoever drains.  So a
      message put back for another attempt never gets one. */
  lemma RetriesNeverGetAnAttempt(n: Normalizer, maxAttempts: int, s: PipeState, group: string, m: Envelope, later: seq<Event>)
    requires Routed(s.f) && m in Handled(s, group)
    ensures var r := DrainRaw(n, maxAttempts, s, group).s;
      Routed(r.f) && NeverHandled(r, later, group, m.idempotencyKey)
  {
    DrainSplits(n, maxAttempts, s, group);
    FreshSpec(s.f.topics[RAW], s.f.consumed, group);
    var r := DrainRaw(n, maxAttempts, s, group).s;
    assert Key(group, m.idempotencyKey) in KeysOf(s.f.topics[RAW], group);
    ConsumedIsNeverHandled(r, later, group, m.idempotencyKey);
  }
}
