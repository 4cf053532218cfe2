/**
 The raw-to-normalised stage of the event pipeline: drain the raw topic for a group, normalise
 each message, and publish, retry or dead-letter it.
 */
module Pipeline {
  import opened Common
  import opened Fabric

  datatype CanonicalEvent = CanonicalEvent(id: string, tenantId: string, schemaVersion: string, payload: Fields)

  datatype NormResult = Normal(event: CanonicalEvent) | NormRaises(reason: string)

  type Normalizer = (Fields, string) -> NormResult

  datatype PipeState = PipeState(f: State, normalized: seq<CanonicalEvent>)

  /** The topics this stage uses exist, and messages on the raw queue are addressed to it. */
  ghost predicate Routed(f: State) {
    && RAW in f.topics && NORMALIZED in f.topics && DEADLETTER in f.topics
    && AllRaw(f.topics[RAW])
  }

  ghost predicate AllRaw(batch: seq<Envelope>) {
    forall k :: 0 <= k < |batch| ==> batch[k].topic == RAW
  }

  // ---------- what becomes of one message ----------

  datatype Fate = Accept(event: CanonicalEvent) | Bury(reason: string) | Retry

  function FailedFate(maxAttempts: int, m: Envelope, reason: string): Fate {
    if m.attempt + 1 >= maxAttempts then Bury("poison: " + reason) else Retry
  }

  function FateOf(n: Normalizer, maxAttempts: int, m: Envelope): Fate {
    match n(m.payload, m.tenantId)
    case NormRaises(reason) => FailedFate(maxAttempts, m, reason)
    case Normal(e) =>
      if e.tenantId != m.tenantId then FailedFate(maxAttempts, m, "tenant mismatch after normalize")
      else if e.schemaVersion == "" then FailedFate(maxAttempts, m, "schema_version missing after normalize")
      else Accept(e)
  }

  function Outgoing(e: CanonicalEvent): Envelope {
    Envelope(e.id, e.tenantId, NORMALIZED, NORMALIZED + ":" + e.id, e.payload, 0, false)
  }

  function Retried(m: Envelope): Envelope { m.(attempt := m.attempt + 1) }

  function Handle(n: Normalizer, maxAttempts: int, s: PipeState, m: Envelope): PipeState
    requires Routed(s.f) && m.topic == RAW
  {
    match FateOf(n, maxAttempts, m)
    case Accept(e) => PipeState(Put(s.f, Outgoing(e)), s.normalized + [e])
    case Bury(reason) => s.(f := Put(s.f, Poisoned(m, reason)))
    case Retry => s.(f := Put(s.f, Retried(m)))
  }

  // ---------- draining a topic ----------

  /** The messages of `q` a group is given: those whose key it has not consumed, first copies only. */
  function Fresh(q: seq<Envelope>, consumed: set<string>, group: string): seq<Envelope> {
    if q == [] then []
    else
      var key := Key(group, q[0].idempotencyKey);
      if key in consumed then Fresh(q[1..], consumed, group)
      else [q[0]] + Fresh(q[1..], consumed + {key}, group)
  }

  function KeysOf(q: seq<Envelope>, group: string): set<string> {
    set m | m in q :: Key(group, m.idempotencyKey)
  }

  lemma KeysOfCons(q: seq<Envelope>, group: string)
    requires q != []
    ensures KeysOf(q, group) == {Key(group, q[0].idempotencyKey)} + KeysOf(q[1..], group)
  {
    assert q == [q[0]] + q[1..];
  }

  lemma {:induction false} FreshSpec(q: seq<Envelope>, consumed: set<string>, group: string)
    ensures var b := Fresh(q, consumed, group);
      && |b| <= |q|
      && (forall m :: m in b ==> m in q && Key(group, m.idempotencyKey) !in consumed)
      && (forall i, j :: 0 <= i < j < |b| ==> b[i].idempotencyKey != b[j].idempotencyKey)
      && KeysOf(b, group) == KeysOf(q, group) - consumed
  {
    if q != [] {
      var key := Key(group, q[0].idempotencyKey);
      assert q == [q[0]] + q[1..];
      KeysOfCons(q, group);
      if key in consumed {
        FreshSpec(q[1..], consumed, group);
      } else {
        FreshSpec(q[1..], consumed + {key}, group);
        var rest := Fresh(q[1..], consumed + {key}, group);
        var b := Fresh(q, consumed, group);
        assert b[1..] == rest;
        KeysOfCons(b, group);
        forall i, j | 0 <= i < j < |b| ensures b[i].idempotencyKey != b[j].idempotencyKey {
          assert b[j] in rest;
        }
      }
    }
  }

  lemma {:induction false} FreshNone(q: seq<Envelope>, consumed: set<string>, group: string)
    requires KeysOf(q, group) <= consumed
    ensures Fresh(q, consumed, group) == []
  {
    if q != [] {
      KeysOfCons(q, group);
      FreshNone(q[1..], consumed, group);
    }
  }

  /** A pull takes fresh messages from the front: those taken and those still fresh after it are the
      ones that were fresh before it. */
  lemma {:induction false} PullTakesFresh(f: State, topic: string, group: string, max: int, batch: seq<Envelope>, log: seq<Happening>)
    requires topic in f.topics
    ensures var q, p := f.topics[topic], Pull(f, topic, group, max, batch, log);
      && topic in p.f.topics
      && p.batch + Fresh(p.f.topics[topic], p.f.consumed, group) == batch + Fresh(q, f.consumed, group)
    decreases |f.topics[topic]|
  {
    var q := f.topics[topic];
    if q != [] && |batch| < max {
      var key := Key(group, q[0].idempotencyKey);
      if key in f.consumed {
        PullTakesFresh(f.(topics := f.topics[topic := q[1..]]), topic, group, max, batch, log + [Dropped(group, topic, q[0])]);
      } else {
        PullTakesFresh(Deliver(f, topic, group), topic, group, max, batch + [q[0]], log + [Delivered(group, topic, q[0])]);
        var rest := Fresh(q[1..], f.consumed + {key}, group);
        assert batch + [q[0]] + rest == batch + ([q[0]] + rest);
      }
    }
  }

  /** It marks what it removes as consumed, and stops when the batch is full or the queue empty. */
  lemma {:induction false} PullMarks(f: State, topic: string, group: string, max: int, batch: seq<Envelope>, log: seq<Happening>)
    requires topic in f.topics
    ensures var q, p := f.topics[topic], Pull(f, topic, group, max, batch, log);
      && topic in p.f.topics
      && p.f.consumed + KeysOf(p.f.topics[topic], group) == f.consumed + KeysOf(q, group)
      && (p.f.topics[topic] == [] || |p.batch| >= max)
      && |p.batch| - |batch| <= |q| - |p.f.topics[topic]|
    decreases |f.topics[topic]|
  {
    var q := f.topics[topic];
    if q != [] && |batch| < max {
      KeysOfCons(q, group);
      if Key(group, q[0].idempotencyKey) in f.consumed {
        PullMarks(f.(topics := f.topics[topic := q[1..]]), topic, group, max, batch, log + [Dropped(group, topic, q[0])]);
      } else {
        PullMarks(Deliver(f, topic, group), topic, group, max, batch + [q[0]], log + [Delivered(group, topic, q[0])]);
      }
    }
  }

  /** One chunk: it takes fresh messages, and none only when the queue is empty. */
  lemma ChunkSpec(f: State, topic: string, group: string)
    requires topic in f.topics
    ensures var p := ConsumeOp(f, topic, CHUNK, group);
      && p.f.topics.Keys == f.topics.Keys
      && (forall t :: t in f.topics && t != topic ==> p.f.topics[t] == f.topics[t])
      && (if p.batch == [] then p.f.topics[topic] == [] else |p.f.topics[topic]| < |f.topics[topic]|)
      && p.f.consumed + KeysOf(p.f.topics[topic], group) == f.consumed + KeysOf(f.topics[topic], group)
      && p.batch + Fresh(p.f.topics[topic], p.f.consumed, group) == Fresh(f.topics[topic], f.consumed, group)
  {
    PullKeepsTopics(f, topic, group, CHUNK, [], []);
    PullMarks(f, topic, group, CHUNK, [], []);
    PullTakesFresh(f, topic, group, CHUNK, [], []);
    var all := Fresh(f.topics[topic], f.consumed, group);
    assert [] + all == all;
  }

  datatype Drained = Drained(f: State, batch: seq<Envelope>)

  const CHUNK := 500

  /** Consume in chunks until a chunk comes back empty. */
  function ConsumeAll(f: State, topic: string, group: string, batch: seq<Envelope>): Drained
    requires topic in f.topics
    decreases |f.topics[topic]|
  {
    var p := ConsumeOp(f, topic, CHUNK, group);
    ChunkSpec(f, topic, group);
    if p.batch == [] then Drained(p.f, batch) else ConsumeAll(p.f, topic, group, batch + p.batch)
  }

  /** Draining empties the topic and hands over exactly its fresh messages. */
  lemma {:induction false} ConsumeAllSpec(f: State, topic: string, group: string, batch: seq<Envelope>)
    requires topic in f.topics
    ensures var q, d := f.topics[topic], ConsumeAll(f, topic, group, batch);
      && d.f.topics.Keys == f.topics.Keys
      && d.f.topics[topic] == []
      && (forall t :: t in f.topics && t != topic ==> d.f.topics[t] == f.topics[t])
      && d.batch == batch + Fresh(q, f.consumed, group)
      && d.f.consumed == f.consumed + KeysOf(q, group)
    decreases |f.topics[topic]|
  {
    var p := ConsumeOp(f, topic, CHUNK, group);
    ChunkSpec(f, topic, group);
    if p.batch == [] {
      assert KeysOf([], group) == {} && batch + [] == batch;
    } else {
      ConsumeAllSpec(p.f, topic, group, batch + p.batch);
      var rest := Fresh(p.f.topics[topic], p.f.consumed, group);
      assert batch + p.batch + rest == batch + (p.batch + rest);
    }
  }

  // ---------- handling the drained messages ----------

  function HandleAll(n: Normalizer, maxAttempts: int, s: PipeState, batch: seq<Envelope>): (r: PipeState)
    requires Routed(s.f) && AllRaw(batch)
    ensures Routed(r.f)
  {
    if batch == [] then s
    else Handle(n, maxAttempts, HandleAll(n, maxAttempts, s, batch[..|batch|-1]), batch[|batch|-1])
  }

  function AcceptedOf(n: Normalizer, maxAttempts: int, batch: seq<Envelope>): seq<CanonicalEvent> {
    if batch == [] then []
    else
      var fate := FateOf(n, maxAttempts, batch[|batch|-1]);
      AcceptedOf(n, maxAttempts, batch[..|batch|-1]) + if fate.Accept? then [fate.event] else []
  }

  function BuriedOf(n: Normalizer, maxAttempts: int, batch: seq<Envelope>): seq<Envelope> {
    if batch == [] then []
    else
      var m := batch[|batch|-1];
      var fate := FateOf(n, maxAttempts, m);
      BuriedOf(n, maxAttempts, batch[..|batch|-1]) + if fate.Bury? then [Poisoned(m, fate.reason)] else []
  }

  function RetriedOf(n: Normalizer, maxAttempts: int, batch: seq<Envelope>): seq<Envelope> {
    if batch == [] then []
    else
      var m := batch[|batch|-1];
      RetriedOf(n, maxAttempts, batch[..|batch|-1]) + if FateOf(n, maxAttempts, m).Retry? then [Retried(m)] else []
  }

  function OutgoingOf(events: seq<CanonicalEvent>): seq<Envelope> {
    if events == [] then []
    else OutgoingOf(events[..|events|-1]) + [Outgoing(events[|events|-1])]
  }

  /** `after` is `before` with the three queues extended and the rest untouched. */
  ghost predicate Extends(before: PipeState, after: PipeState, accepted: seq<CanonicalEvent>, buried: seq<Envelope>, retried: seq<Envelope>)
    requires Routed(before.f)
  {
    && Routed(after.f)
    && after.normalized == before.normalized + accepted
    && after.f.topics[NORMALIZED] == before.f.topics[NORMALIZED] + OutgoingOf(accepted)
    && after.f.topics[DEADLETTER] == before.f.topics[DEADLETTER] + buried
    && after.f.topics[RAW] == before.f.topics[RAW] + retried
    && after.f.consumed == before.f.consumed
    && after.f.topics.Keys == before.f.topics.Keys
    && forall t :: t in before.f.topics && t !in {RAW, NORMALIZED, DEADLETTER} ==> after.f.topics[t] == before.f.topics[t]
  }

  lemma TopicsDiffer()
    ensures RAW != NORMALIZED && RAW != DEADLETTER && NORMALIZED != DEADLETTER
  {
    assert |RAW| == 16 && |NORMALIZED| == 23 && |DEADLETTER| == 20;
  }

  lemma ExtendAccept(s: PipeState, mid: PipeState, a: seq<CanonicalEvent>, b: seq<Envelope>, r: seq<Envelope>, e: CanonicalEvent)
    requires Routed(s.f) && Extends(s, mid, a, b, r)
    ensures Extends(s, PipeState(Put(mid.f, Outgoing(e)), mid.normalized + [e]), a + [e], b, r)
  {
    TopicsDiffer();
    assert (a + [e])[..|a|] == a;
  }

  lemma ExtendBury(s: PipeState, mid: PipeState, a: seq<CanonicalEvent>, b: seq<Envelope>, r: seq<Envelope>, m: Envelope, reason: string)
    requires Routed(s.f) && Extends(s, mid, a, b, r)
    ensures Extends(s, mid.(f := Put(mid.f, Poisoned(m, reason))), a, b + [Poisoned(m, reason)], r)
  {
    TopicsDiffer();
  }

  lemma ExtendRetry(s: PipeState, mid: PipeState, a: seq<CanonicalEvent>, b: seq<Envelope>, r: seq<Envelope>, m: Envelope)
    requires Routed(s.f) && Extends(s, mid, a, b, r) && m.topic == RAW
    ensures Extends(s, mid.(f := Put(mid.f, Retried(m))), a, b, r + [Retried(m)])
  {
    TopicsDiffer();
  }

  lemma {:induction false} HandleAllSpec(n: Normalizer, maxAttempts: int, s: PipeState, batch: seq<Envelope>)
    requires Routed(s.f) && AllRaw(batch)
    ensures Extends(s, HandleAll(n, maxAttempts, s, batch), AcceptedOf(n, maxAttempts, batch), BuriedOf(n, maxAttempts, batch), RetriedOf(n, maxAttempts, batch))
  {
    if batch == [] {
      assert forall q: seq<Envelope> :: q + [] == q;
    } else {
      var init, m := batch[..|batch|-1], batch[|batch|-1];
      HandleAllSpec(n, maxAttempts, s, init);
      var mid := HandleAll(n, maxAttempts, s, init);
      var a, b, r := AcceptedOf(n, maxAttempts, init), BuriedOf(n, maxAttempts, init), RetriedOf(n, maxAttempts, init);
      assert a + [] == a && b + [] == b && r + [] == r;
      match FateOf(n, maxAttempts, m) {
        case Accept(e) => ExtendAccept(s, mid, a, b, r, e);
        case Bury(reason) => ExtendBury(s, mid, a, b, r, m, reason);
        case Retry => ExtendRetry(s, mid, a, b, r, m);
      }
    }
  }

  // ---------- the stage ----------

  datatype DrainResult = DrainResult(s: PipeState, accepted: nat, dead: nat)

  function DrainRaw(n: Normalizer, maxAttempts: int, s: PipeState, group: string): DrainResult
    requires Routed(s.f)
  {
    var d := ConsumeAll(s.f, RAW, group, []);
    DrainedIsRouted(s.f, group);
    DrainResult(
      HandleAll(n, maxAttempts, s.(f := d.f), d.batch),
      |AcceptedOf(n, maxAttempts, d.batch)|,
      |BuriedOf(n, maxAttempts, d.batch)|)
  }

  /** Every state of the fabric reachable by any operations is one the stage can run on. */
  lemma ReachableFabricsAreRouted(ops: seq<Op>)
    ensures Routed(RunAll(ops).f)
  {
    FabricInvariant(ops);
    var r := RunAll(ops);
    assert RAW in ALL_TOPICS && NORMALIZED in ALL_TOPICS && DEADLETTER in ALL_TOPICS;
    assert Settled(r.f, r.trace, RAW);
  }

  lemma DrainedIsRouted(f: State, group: string)
    requires Routed(f)
    ensures var d := ConsumeAll(f, RAW, group, []); Routed(d.f) && AllRaw(d.batch)
  {
    ConsumeAllSpec(f, RAW, group, []);
    FreshSpec(f.topics[RAW], f.consumed, group);
  }

  lemma {:induction false} SplitCounts(n: Normalizer, maxAttempts: int, batch: seq<Envelope>)
    ensures |AcceptedOf(n, maxAttempts, batch)| + |BuriedOf(n, maxAttempts, batch)| + |RetriedOf(n, maxAttempts, batch)| == |batch|
  {
    if batch != [] { SplitCounts(n, maxAttempts, batch[..|batch|-1]); }
  }

  lemma {:induction false} SplitTenants(n: Normalizer, maxAttempts: int, batch: seq<Envelope>)
    ensures forall e :: e in AcceptedOf(n, maxAttempts, batch) ==> exists m :: m in batch && e.tenantId == m.tenantId
  {
    if batch != [] {
      var init, m := batch[..|batch|-1], batch[|batch|-1];
      SplitTenants(n, maxAttempts, init);
      assert batch == init + [m];
    }
  }

  /** One drain: the fresh messages of the raw queue, each key at most once and never one the group
      had consumed, split exactly into events accepted (with their message's tenant), messages
      dead-lettered and messages retried; the raw queue then holds the retries and nothing else, and
      every other topic is as it was. */
  lemma DrainSplits(n: Normalizer, maxAttempts: int, s: PipeState, group: string)
    requires Routed(s.f)
    ensures var batch := Fresh(s.f.topics[RAW], s.f.consumed, group);
      var accepted, buried, retried := AcceptedOf(n, maxAttempts, batch), BuriedOf(n, maxAttempts, batch), RetriedOf(n, maxAttempts, batch);
      var r := DrainRaw(n, maxAttempts, s, group);
      && Routed(r.s.f)
      && |accepted| + |buried| + |retried| == |batch| && r.accepted == |accepted| && r.dead == |buried|
      && (forall i, j :: 0 <= i < j < |batch| ==> batch[i].idempotencyKey != batch[j].idempotencyKey)
      && (forall m :: m in batch ==> Key(group, m.idempotencyKey) !in s.f.consumed)
      && (forall e :: e in accepted ==> exists m :: m in batch && e.tenantId == m.tenantId)
      && r.s.normalized == s.normalized + accepted
      && r.s.f.topics[NORMALIZED] == s.f.topics[NORMALIZED] + OutgoingOf(accepted)
      && r.s.f.topics[DEADLETTER] == s.f.topics[DEADLETTER] + buried
      && r.s.f.topics[RAW] == retried
      && (forall t :: t in s.f.topics && t !in {RAW, NORMALIZED, DEADLETTER} ==> t in r.s.f.topics && r.s.f.topics[t] == s.f.topics[t])
      && r.s.f.consumed == s.f.consumed + KeysOf(s.f.topics[RAW], group)
  {
    var d := ConsumeAll(s.f, RAW, group, []);
    ConsumeAllSpec(s.f, RAW, group, []);
    DrainedIsRouted(s.f, group);
    FreshSpec(s.f.topics[RAW], s.f.consumed, group);
    TopicsDiffer();
    var batch := Fresh(s.f.topics[RAW], s.f.consumed, group);
    assert d.batch == batch;
    HandleAllSpec(n, maxAttempts, s.(f := d.f), batch);
    SplitCounts(n, maxAttempts, batch);
    SplitTenants(n, maxAttempts, batch);
    var retried := RetriedOf(n, maxAttempts, batch);
    assert [] + retried == retried;
  }

  lemma {:induction false} RetriesKeepTheirKeys(n: Normalizer, maxAttempts: int, batch: seq<Envelope>, group: string)
    ensures KeysOf(RetriedOf(n, maxAttempts, batch), group) <= KeysOf(batch, group)
  {
    if batch != [] {
      var init, m := batch[..|batch|-1], batch[|batch|-1];
      RetriesKeepTheirKeys(n, maxAttempts, init, group);
      assert batch == init + [m];
      assert KeysOf(init, group) <= KeysOf(batch, group);
      if FateOf(n, maxAttempts, m).Retry? {
        assert RetriedOf(n, maxAttempts, batch) == RetriedOf(n, maxAttempts, init) + [Retried(m)];
        assert Key(group, Retried(m).idempotencyKey) in KeysOf(batch, group);
      }
    }
  }

  /** The next drain of the group throws every retry away: it keeps its idempotency key, which the group
      has just consumed.  Nothing is normalised, nothing reaches the dead-letter topic, and the raw queue
      is left empty. */
  lemma RetriesAreLost(n: Normalizer, n': Normalizer, maxAttempts: int, maxAttempts': int, s: PipeState, group: string)
    requires Routed(s.f)
    ensures var once := DrainRaw(n, maxAttempts, s, group).s;
      && Routed(once.f)
      && var twice := DrainRaw(n', maxAttempts', once, group);
      && twice.accepted == 0 && twice.dead == 0
      && Routed(twice.s.f)
      && twice.s.normalized == once.normalized
      && twice.s.f.topics[DEADLETTER] == once.f.topics[DEADLETTER]
      && twice.s.f.topics[NORMALIZED] == once.f.topics[NORMALIZED]
      && twice.s.f.topics[RAW] == []
  {
    DrainSplits(n, maxAttempts, s, group);
    var once := DrainRaw(n, maxAttempts, s, group).s;
    var batch := Fresh(s.f.topics[RAW], s.f.consumed, group);
    FreshSpec(s.f.topics[RAW], s.f.consumed, group);
    RetriesKeepTheirKeys(n, maxAttempts, batch, group);
    FreshNone(once.f.topics[RAW], once.f.consumed, group);
    DrainSplits(n', maxAttempts', once, group);
    assert forall q: seq<Envelope> :: q + [] == q;
    assert once.normalized + [] == once.normalized;
  }

  /** A failing message is dead-lettered exactly when its attempts are used up already on this first
      and only handling; so every failing message of a drain is, if and only if none is retried. */
  lemma {:induction false} NoRetryIff(n: Normalizer, maxAttempts: int, batch: seq<Envelope>)
    ensures RetriedOf(n, maxAttempts, batch) == [] <==>
            forall m :: m in batch && !FateOf(n, maxAttempts, m).Accept? ==> m.attempt + 1 >= maxAttempts
  {
    if batch != [] {
      var init, m := batch[..|batch|-1], batch[|batch|-1];
      NoRetryIff(n, maxAttempts, init);
      assert batch == init + [m];
    }
  }

  class EventPipeline {
    const fabric: InMemoryFabric
    const normalizer: Normalizer
    const maxAttempts: int
    var normalized: seq<CanonicalEvent>

    ghost predicate Valid()
      reads this, fabric
    {
      Routed(fabric.Model())
    }

    ghost function Model(): PipeState
      reads this, fabric
    {
      PipeState(fabric.Model(), normalized)
    }

    constructor (fabric: InMemoryFabric, normalizer: Normalizer, maxAttempts: int)
      requires Routed(fabric.Model())
      ensures Valid() && this.fabric == fabric && this.normalizer == normalizer && this.maxAttempts == maxAttempts
      ensures normalized == []
    {
      this.fabric, this.normalizer, this.maxAttempts := fabric, normalizer, maxAttempts;
      normalized := [];
    }

    method Collect(group: string) returns (batch: seq<Envelope>)
      requires Valid()
      modifies fabric
      ensures normalized == old(normalized)
      ensures Drained(fabric.Model(), batch) == ConsumeAll(old(fabric.Model()), RAW, group, [])
    {
      batch := [];
      var more := true;
      while more
        invariant RAW in fabric.topics
        invariant ConsumeAll(old(fabric.Model()), RAW, group, []) ==
          if more then ConsumeAll(fabric.Model(), RAW, group, batch) else Drained(fabric.Model(), batch)
        decreases |fabric.topics[RAW]|, more
      {
        ChunkSpec(fabric.Model(), RAW, group);
        var _, chunk := fabric.ConsumeMessages(RAW, CHUNK, group);
        more := chunk != [];
        batch := batch + chunk;
      }
    }

    method HandleMessage(message: Envelope) returns (fate: Fate)
      requires Valid() && message.topic == RAW
      modifies this, fabric
      ensures Valid()
      ensures fate == FateOf(normalizer, maxAttempts, message)
      ensures Model() == Handle(normalizer, maxAttempts, old(Model()), message)
    {
      TopicsDiffer();
      fate := FateOf(normalizer, maxAttempts, message);
      match fate {
        case Accept(event) =>
          normalized := normalized + [event];
          var _ := fabric.PublishMessage(Outgoing(event));
        case Bury(reason) =>
          var _ := fabric.DeadLetterMessage(message, reason);
        case Retry =>
          var _ := fabric.PublishMessage(Retried(message));
      }
    }

    method HandleBatch(batch: seq<Envelope>) returns (accepted: nat, dead: nat)
      requires Valid() && AllRaw(batch)
      modifies this, fabric
      ensures Valid()
      ensures Model() == HandleAll(normalizer, maxAttempts, old(Model()), batch)
      ensures accepted == |AcceptedOf(normalizer, maxAttempts, batch)|
      ensures dead == |BuriedOf(normalizer, maxAttempts, batch)|
    {
      accepted, dead := 0, 0;
      var i := 0;
      while i < |batch|
        invariant 0 <= i <= |batch| && Valid()
        invariant Model() == HandleAll(normalizer, maxAttempts, old(Model()), batch[..i])
        invariant accepted == |AcceptedOf(normalizer, maxAttempts, batch[..i])|
        invariant dead == |BuriedOf(normalizer, maxAttempts, batch[..i])|
      {
        assert batch[..i+1][..i] == batch[..i];
        var fate := HandleMessage(batch[i]);
        if fate.Accept? {
          accepted := accepted + 1;
        } else if fate.Bury? {
          dead := dead + 1;
        }
        i := i + 1;
      }
      assert batch[..i] == batch;
    }

    method Drain(group: string) returns (accepted: nat, dead: nat)
      requires Valid()
      modifies this, fabric
      ensures Valid()
      ensures DrainResult(Model(), accepted, dead) == DrainRaw(normalizer, maxAttempts, old(Model()), group)
    {
      DrainedIsRouted(fabric.Model(), group);
      var batch := Collect(group);
      accepted, dead := HandleBatch(batch);
    }
  }
}
