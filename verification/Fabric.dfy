/**
 The in-process event fabric: per-topic queues, a set of consumed idempotency keys per group,
 and counters.  Each operation is one atomic step under the lock; the trace records what every
 step did to every message, so that statements range over any interleaving.
 */
module Fabric {
  import opened Common
  import opened Joining

  type Fields = map<string, string>

  datatype Envelope = Envelope(
    eventId: string, tenantId: string, topic: string, idempotencyKey: string,
    payload: Fields, attempt: int, poison: bool)

  const RAW := "telemetry.raw.v1"
  const NORMALIZED := "telemetry.normalized.v1"
  const DEADLETTER := "deadletter.events.v1"

  const ALL_TOPICS: set<string> := {
    RAW, NORMALIZED, DEADLETTER, "detections.findings.v1", "correlation.candidates.v1",
    "incidents.events.v1", "evidence.created.v1", "telemetry.health.v1"
  }

  datatype State = State(
    topics: map<string, seq<Envelope>>, consumed: set<string>,
    offsets: map<string, nat>, published: map<string, nat>, lag: map<string, nat>)

  const EMPTY_FABRIC := State(map t | t in ALL_TOPICS :: [], {}, map[], map[], map[])

  /** A counter dict: a missing key counts as zero. */
  function Count(m: map<string, nat>, k: string): nat { if k in m then m[k] else 0 }

  function Key(group: string, key: string): string { group + ":" + key }

  // ---------- the operations ----------

  datatype Happening =
    | Published(msg: Envelope)
    | Delivered(group: string, topic: string, msg: Envelope)
    | Dropped(group: string, topic: string, msg: Envelope)

  datatype Op =
    | Publish(msg: Envelope)
    | Consume(topic: string, maxRecords: int, group: string)
    | DeadLetter(msg: Envelope, reason: string)

  function Put(f: State, msg: Envelope): State
    requires msg.topic in f.topics
  {
    var q := f.topics[msg.topic] + [msg];
    f.(topics := f.topics[msg.topic := q],
       published := f.published[msg.topic := Count(f.published, msg.topic) + 1],
       lag := f.lag[msg.topic := |q|])
  }

  /** The state after handing the front message of `topic` to `group`. */
  function Deliver(f: State, topic: string, group: string): State
    requires topic in f.topics && f.topics[topic] != []
  {
    var g := Key(group, topic);
    f.(topics := f.topics[topic := f.topics[topic][1..]],
       consumed := f.consumed + {Key(group, f.topics[topic][0].idempotencyKey)},
       offsets := f.offsets[g := Count(f.offsets, g) + 1])
  }

  datatype Pulled = Pulled(f: State, batch: seq<Envelope>, log: seq<Happening>)

  /** The loop of `consume`: take from the front until the batch is full or the queue is empty,
      skipping messages whose key the group is on record for. */
  function Pull(f: State, topic: string, group: string, max: int, batch: seq<Envelope>, log: seq<Happening>): Pulled
    requires topic in f.topics
    decreases |f.topics[topic]|
  {
    var q := f.topics[topic];
    if q == [] || |batch| >= max then Pulled(f, batch, log)
    else
      var item := q[0];
      var key := Key(group, item.idempotencyKey);
      var popped := f.(topics := f.topics[topic := q[1..]]);
      if key in f.consumed then Pull(popped, topic, group, max, batch, log + [Dropped(group, topic, item)])
      else
        Pull(Deliver(f, topic, group), topic, group, max, batch + [item], log + [Delivered(group, topic, item)])
  }

  function ConsumeOp(f: State, topic: string, max: int, group: string): Pulled
    requires topic in f.topics
  {
    var p := Pull(f, topic, group, max, [], []);
    PullKeepsTopics(f, topic, group, max, [], []);
    p.(f := p.f.(lag := p.f.lag[topic := |p.f.topics[topic]|]))
  }

  lemma {:induction false} PullKeepsTopics(f: State, topic: string, group: string, max: int, batch: seq<Envelope>, log: seq<Happening>)
    requires topic in f.topics
    ensures var p := Pull(f, topic, group, max, batch, log);
      && p.f.topics.Keys == f.topics.Keys
      && (forall t :: t in f.topics && t != topic ==> p.f.topics[t] == f.topics[t])
      && p.f.published == f.published && p.f.lag == f.lag
      && |p.f.topics[topic]| <= |f.topics[topic]|
    decreases |f.topics[topic]|
  {
    var q := f.topics[topic];
    if q != [] && |batch| < max {
      var item := q[0];
      if Key(group, item.idempotencyKey) in f.consumed {
        PullKeepsTopics(f.(topics := f.topics[topic := q[1..]]), topic, group, max, batch, log + [Dropped(group, topic, item)]);
      } else {
        PullKeepsTopics(Deliver(f, topic, group), topic, group, max, batch + [item], log + [Delivered(group, topic, item)]);
      }
    }
  }

  function Poisoned(msg: Envelope, reason: string): Envelope {
    msg.(topic := DEADLETTER, poison := true, attempt := msg.attempt + 1,
         idempotencyKey := "dlq:" + msg.idempotencyKey,
         payload := msg.payload["dlq_reason" := reason]["original_topic" := msg.topic])
  }

  datatype Reply = Reply(f: State, batch: seq<Envelope>, log: seq<Happening>) | UnknownTopic

  function Step(f: State, op: Op): Reply {
    match op
    case Publish(msg) =>
      if msg.topic !in f.topics then UnknownTopic else Reply(Put(f, msg), [], [Published(msg)])
    case DeadLetter(msg, reason) =>
      if DEADLETTER !in f.topics then UnknownTopic else Reply(Put(f, Poisoned(msg, reason)), [], [Published(Poisoned(msg, reason))])
    case Consume(topic, max, group) =>
      if topic !in f.topics then UnknownTopic
      else var p := ConsumeOp(f, topic, max, group); Reply(p.f, p.batch, p.log)
  }

  class InMemoryFabric {
    var topics: map<string, seq<Envelope>>
    var consumed: set<string>
    var offsets: map<string, nat>
    var published: map<string, nat>
    var lag: map<string, nat>

    ghost function Model(): State
      reads this
    {
      State(topics, consumed, offsets, published, lag)
    }

    constructor ()
      ensures Model() == EMPTY_FABRIC
    {
      topics := map t | t in ALL_TOPICS :: [];
      consumed, offsets, published, lag := {}, map[], map[], map[];
    }

    method PublishMessage(msg: Envelope) returns (ok: bool)
      modifies this
      ensures ok == Step(old(Model()), Publish(msg)).Reply?
      ensures Model() == if ok then Step(old(Model()), Publish(msg)).f else old(Model())
    {
      ok := msg.topic in topics;
      if ok {
        topics := topics[msg.topic := topics[msg.topic] + [msg]];
        published := published[msg.topic := Count(published, msg.topic) + 1];
        lag := lag[msg.topic := |topics[msg.topic]|];
      }
    }

    method ConsumeMessages(topic: string, maxRecords: int, group: string) returns (ok: bool, batch: seq<Envelope>)
      modifies this
      ensures var r := Step(old(Model()), Consume(topic, maxRecords, group));
        && ok == r.Reply?
        && (ok ==> Model() == r.f && batch == r.batch)
        && (!ok ==> Model() == old(Model()) && batch == [])
    {
      batch := [];
      if topic !in topics {
        return false, [];
      }
      ok := true;
      ghost var log: seq<Happening> := [];
      while topics[topic] != [] && |batch| < maxRecords
        invariant topic in topics
        invariant Pull(Model(), topic, group, maxRecords, batch, log) == Pull(old(Model()), topic, group, maxRecords, [], [])
        decreases |topics[topic]|
      {
        var item := topics[topic][0];
        topics := topics[topic := topics[topic][1..]];
        var key := Key(group, item.idempotencyKey);
        if key in consumed {
          log := log + [Dropped(group, topic, item)];
          continue;
        }
        consumed := consumed + {key};
        offsets := offsets[Key(group, topic) := Count(offsets, Key(group, topic)) + 1];
        batch := batch + [item];
        log := log + [Delivered(group, topic, item)];
      }
      lag := lag[topic := |topics[topic]|];
    }

    method DeadLetterMessage(msg: Envelope, reason: string) returns (ok: bool)
      modifies this
      ensures ok == Step(old(Model()), DeadLetter(msg, reason)).Reply?
      ensures Model() == if ok then Step(old(Model()), DeadLetter(msg, reason)).f else old(Model())
    {
      ok := PublishMessage(Poisoned(msg, reason));
    }
  }

  // ---------- runs ----------

  datatype Run = Run(f: State, trace: seq<Happening>)

  /** Any sequence of operations; one that raises changes nothing. */
  function RunAll(ops: seq<Op>): Run {
    if ops == [] then Run(EMPTY_FABRIC, [])
    else
      var r := RunAll(ops[..|ops|-1]);
      var s := Step(r.f, ops[|ops|-1]);
      if s.Reply? then Run(s.f, r.trace + s.log) else r
  }

  function PublishedTo(trace: seq<Happening>, topic: string): seq<Envelope> {
    if trace == [] then []
    else
      var h := trace[|trace|-1];
      PublishedTo(trace[..|trace|-1], topic) + if h.Published? && h.msg.topic == topic then [h.msg] else []
  }

  /** Taken off the topic's queue, delivered or dropped, in order. */
  function RemovedFrom(trace: seq<Happening>, topic: string): seq<Envelope> {
    if trace == [] then []
    else
      var h := trace[|trace|-1];
      RemovedFrom(trace[..|trace|-1], topic) + if !h.Published? && h.topic == topic then [h.msg] else []
  }

  function Deliveries(trace: seq<Happening>): nat {
    if trace == [] then 0
    else Deliveries(trace[..|trace|-1]) + if trace[|trace|-1].Delivered? then 1 else 0
  }

  function KeyOf(h: Happening): string {
    if h.Published? then "" else Key(h.group, h.msg.idempotencyKey)
  }

  ghost function DeliveredKeys(trace: seq<Happening>): set<string> {
    set h | h in trace && h.Delivered? :: KeyOf(h)
  }

  ghost predicate OncePerKey(trace: seq<Happening>) {
    forall i, j {:trigger DifferentKeys(trace, i, j)} :: 0 <= i < j < |trace| ==> DifferentKeys(trace, i, j)
  }

  ghost predicate DifferentKeys(trace: seq<Happening>, i: nat, j: nat)
    requires i < j < |trace|
  {
    trace[i].Delivered? && trace[j].Delivered? ==> KeyOf(trace[i]) != KeyOf(trace[j])
  }

  ghost predicate DropsAreRepeats(trace: seq<Happening>) {
    forall j {:trigger GivenBefore(trace, j)} :: 0 <= j < |trace| && trace[j].Dropped? ==> GivenBefore(trace, j)
  }

  ghost predicate GivenBefore(trace: seq<Happening>, j: nat)
    requires j < |trace|
  {
    KeyOf(trace[j]) in DeliveredKeys(trace[..j])
  }

  ghost function SumOf(m: map<string, nat>): nat
    decreases m.Keys
  {
    if m.Keys == {} then 0
    else
      var k :| k in m.Keys;
      m[k] + SumOf(m - {k})
  }

  ghost predicate Balanced(f: State, trace: seq<Happening>) {
    forall t {:trigger Settled(f, trace, t)} :: t in f.topics ==> Settled(f, trace, t)
  }

  /** For one topic: what was published is what was removed followed by what is queued. */
  ghost predicate Settled(f: State, trace: seq<Happening>, t: string)
    requires t in f.topics
  {
    && PublishedTo(trace, t) == RemovedFrom(trace, t) + f.topics[t]
    && Count(f.published, t) == |PublishedTo(trace, t)|
    && (forall m :: m in f.topics[t] ==> m.topic == t)
  }

  ghost predicate Counted(f: State, trace: seq<Happening>) {
    && f.consumed == DeliveredKeys(trace)
    && |f.consumed| == Deliveries(trace)
    && Tallied(f.offsets, trace)
  }

  /** The offset counters add up to the deliveries. */
  ghost predicate Tallied(offsets: map<string, nat>, trace: seq<Happening>) {
    SumOf(offsets) == Deliveries(trace)
  }

  ghost predicate KeysKept(f: State, trace: seq<Happening>) {
    Counted(f, trace) && OncePerKey(trace) && DropsAreRepeats(trace)
  }

  ghost predicate LagIsLength(f: State) {
    forall t :: t in f.topics ==> Count(f.lag, t) == |f.topics[t]|
  }

  // ---------- one happening at a time ----------

  lemma TraceGrows(trace: seq<Happening>, h: Happening, t: string)
    ensures PublishedTo(trace + [h], t) == PublishedTo(trace, t) + if h.Published? && h.msg.topic == t then [h.msg] else []
    ensures RemovedFrom(trace + [h], t) == RemovedFrom(trace, t) + if !h.Published? && h.topic == t then [h.msg] else []
    ensures Deliveries(trace + [h]) == Deliveries(trace) + if h.Delivered? then 1 else 0
  {
    assert (trace + [h])[..|trace|] == trace;
  }

  lemma DeliveredKeysGrow(trace: seq<Happening>, h: Happening)
    ensures DeliveredKeys(trace + [h]) == DeliveredKeys(trace) + if h.Delivered? then {KeyOf(h)} else {}
  {
    assert forall x :: x in trace + [h] <==> x in trace || x == h;
  }

  lemma {:induction false} SumRemove(m: map<string, nat>, k: string)
    requires k in m
    ensures SumOf(m) == m[k] + SumOf(m - {k})
    decreases m.Keys
  {
    var j :| j in m.Keys && SumOf(m) == m[j] + SumOf(m - {j});
    if j != k {
      SumRemove(m - {j}, k);
      SumRemove(m - {k}, j);
      assert m - {j} - {k} == m - {k} - {j};
    }
  }

  lemma SumBump(m: map<string, nat>, k: string)
    ensures SumOf(m[k := Count(m, k) + 1]) == SumOf(m) + 1
  {
    var n := m[k := Count(m, k) + 1];
    SumRemove(n, k);
    if k in m {
      SumRemove(m, k);
      assert n - {k} == m - {k};
    } else {
      assert n - {k} == m;
    }
  }

  lemma OnceGrows(trace: seq<Happening>, h: Happening)
    requires OncePerKey(trace) && DropsAreRepeats(trace)
    requires h.Delivered? ==> KeyOf(h) !in DeliveredKeys(trace)
    requires h.Dropped? ==> KeyOf(h) in DeliveredKeys(trace)
    ensures OncePerKey(trace + [h]) && DropsAreRepeats(trace + [h])
  {
    var more := trace + [h];
    forall i, j | 0 <= i < j < |more| ensures DifferentKeys(more, i, j) {
      if j < |trace| { assert DifferentKeys(trace, i, j); } else { assert trace[i] in trace; }
    }
    forall j | 0 <= j < |more| && more[j].Dropped? ensures GivenBefore(more, j) {
      if j < |trace| { assert GivenBefore(trace, j) && more[..j] == trace[..j]; } else { assert more[..j] == trace; }
    }
  }

  /** Removing the front message of a queue, delivered or dropped. */
  lemma RemoveKeeps(f: State, trace: seq<Happening>, topic: string, h: Happening, f': State)
    requires Balanced(f, trace) && topic in f.topics && f.topics[topic] != []
    requires !h.Published? && h.topic == topic && h.msg == f.topics[topic][0]
    requires f'.topics == f.topics[topic := f.topics[topic][1..]] && f'.published == f.published
    ensures Balanced(f', trace + [h])
  {
    forall t | t in f'.topics ensures Settled(f', trace + [h], t) {
      RemoveSettles(f, trace, topic, h, f', t);
    }
  }

  lemma RemoveSettles(f: State, trace: seq<Happening>, topic: string, h: Happening, f': State, t: string)
    requires topic in f.topics && f.topics[topic] != [] && t in f.topics && Settled(f, trace, t)
    requires !h.Published? && h.topic == topic && h.msg == f.topics[topic][0]
    requires f'.topics == f.topics[topic := f.topics[topic][1..]] && f'.published == f.published
    ensures Settled(f', trace + [h], t)
  {
    TraceGrows(trace, h, t);
    if t == topic {
      var q := f.topics[t];
      assert q == [h.msg] + q[1..];
      assert RemovedFrom(trace, t) + q == RemovedFrom(trace, t) + [h.msg] + q[1..];
    }
  }

  lemma PutSettles(f: State, trace: seq<Happening>, msg: Envelope, t: string)
    requires msg.topic in f.topics && t in f.topics && Settled(f, trace, t)
    ensures Settled(Put(f, msg), trace + [Published(msg)], t)
  {
    TraceGrows(trace, Published(msg), t);
    if t == msg.topic {
      assert RemovedFrom(trace, t) + f.topics[t] + [msg] == RemovedFrom(trace, t) + (f.topics[t] + [msg]);
    }
  }

  lemma QuietGrows(f: State, trace: seq<Happening>, h: Happening, f': State)
    requires KeysKept(f, trace) && !h.Delivered?
    requires f'.consumed == f.consumed && f'.offsets == f.offsets
    requires h.Dropped? ==> KeyOf(h) in f.consumed
    ensures KeysKept(f', trace + [h])
  {
    OnceGrows(trace, h);
    assert Counted(f', trace + [h]) by {
      TraceGrows(trace, h, "");
      DeliveredKeysGrow(trace, h);
    }
  }

  lemma CountGrows(f: State, trace: seq<Happening>, h: Happening, f': State, g: string)
    requires Counted(f, trace) && h.Delivered? && KeyOf(h) !in f.consumed
    requires f'.consumed == f.consumed + {KeyOf(h)} && f'.offsets == f.offsets[g := Count(f.offsets, g) + 1]
    ensures Counted(f', trace + [h])
  {
    TallyGrows(f.offsets, trace, h, g);
    DeliveredKeysGrow(trace, h);
    assert |f'.consumed| == |f.consumed| + 1;
  }

  lemma TallyGrows(offsets: map<string, nat>, trace: seq<Happening>, h: Happening, g: string)
    requires Tallied(offsets, trace) && h.Delivered?
    ensures Tallied(offsets[g := Count(offsets, g) + 1], trace + [h])
    ensures Deliveries(trace + [h]) == Deliveries(trace) + 1
  {
    TraceGrows(trace, h, "");
    SumBump(offsets, g);
  }

  lemma DeliveryGrows(f: State, trace: seq<Happening>, h: Happening, f': State, g: string)
    requires KeysKept(f, trace) && h.Delivered? && KeyOf(h) !in f.consumed
    requires f'.consumed == f.consumed + {KeyOf(h)} && f'.offsets == f.offsets[g := Count(f.offsets, g) + 1]
    ensures KeysKept(f', trace + [h])
  {
    OnceGrows(trace, h);
    CountGrows(f, trace, h, f', g);
  }

  ghost predicate Sound(f: State, trace: seq<Happening>) {
    Balanced(f, trace) && KeysKept(f, trace)
  }

  lemma DropKeeps(f: State, trace: seq<Happening>, log: seq<Happening>, topic: string, group: string)
    requires Sound(f, trace + log) && topic in f.topics && f.topics[topic] != []
    requires Key(group, f.topics[topic][0].idempotencyKey) in f.consumed
    ensures Sound(f.(topics := f.topics[topic := f.topics[topic][1..]]), trace + (log + [Dropped(group, topic, f.topics[topic][0])]))
  {
    var h, f' := Dropped(group, topic, f.topics[topic][0]), f.(topics := f.topics[topic := f.topics[topic][1..]]);
    RemoveKeeps(f, trace + log, topic, h, f');
    QuietGrows(f, trace + log, h, f');
    assert trace + log + [h] == trace + (log + [h]);
  }

  lemma DeliverKeeps(f: State, trace: seq<Happening>, log: seq<Happening>, topic: string, group: string)
    requires Sound(f, trace + log) && topic in f.topics && f.topics[topic] != []
    requires Key(group, f.topics[topic][0].idempotencyKey) !in f.consumed
    ensures Sound(Deliver(f, topic, group), trace + (log + [Delivered(group, topic, f.topics[topic][0])]))
  {
    var h := Delivered(group, topic, f.topics[topic][0]);
    DeliveredBalances(f, trace + log, topic, h, Deliver(f, topic, group));
    assert trace + log + [h] == trace + (log + [h]);
  }

  lemma DeliveredBalances(f: State, trace: seq<Happening>, topic: string, h: Happening, f': State)
    requires Sound(f, trace) && topic in f.topics && f.topics[topic] != []
    requires h.Delivered? && h.topic == topic && h.msg == f.topics[topic][0] && KeyOf(h) !in f.consumed
    requires f' == Deliver(f, topic, h.group)
    ensures Sound(f', trace + [h])
  {
    assert Balanced(f', trace + [h]) by { RemoveKeeps(f, trace, topic, h, f'); }
    assert KeysKept(f', trace + [h]) by { DeliveryGrows(f, trace, h, f', Key(h.group, topic)); }
  }

  lemma {:induction false} PullKeeps(f: State, trace: seq<Happening>, topic: string, group: string, max: int, batch: seq<Envelope>, log: seq<Happening>)
    requires Sound(f, trace + log) && topic in f.topics
    ensures var p := Pull(f, topic, group, max, batch, log); Sound(p.f, trace + p.log)
    decreases |f.topics[topic]|
  {
    var q := f.topics[topic];
    if q != [] && |batch| < max {
      if Key(group, q[0].idempotencyKey) in f.consumed {
        DropKeeps(f, trace, log, topic, group);
        PullKeeps(f.(topics := f.topics[topic := q[1..]]), trace, topic, group, max, batch, log + [Dropped(group, topic, q[0])]);
      } else {
        DeliverKeeps(f, trace, log, topic, group);
        PullKeeps(Deliver(f, topic, group), trace, topic, group, max, batch + [q[0]], log + [Delivered(group, topic, q[0])]);
      }
    }
  }

  lemma PutKeeps(f: State, trace: seq<Happening>, msg: Envelope)
    requires Sound(f, trace) && LagIsLength(f) && msg.topic in f.topics
    ensures Sound(Put(f, msg), trace + [Published(msg)]) && LagIsLength(Put(f, msg))
  {
    forall t | t in f.topics ensures Settled(Put(f, msg), trace + [Published(msg)], t) {
      PutSettles(f, trace, msg, t);
    }
    QuietGrows(f, trace, Published(msg), Put(f, msg));
  }

  lemma ConsumeKeeps(f: State, trace: seq<Happening>, topic: string, max: int, group: string)
    requires Sound(f, trace) && LagIsLength(f) && topic in f.topics
    ensures var p := ConsumeOp(f, topic, max, group);
      Sound(p.f, trace + p.log) && LagIsLength(p.f) && p.f.topics.Keys == f.topics.Keys
  {
    assert trace + [] == trace;
    PullKeeps(f, trace, topic, group, max, [], []);
    PullKeepsTopics(f, topic, group, max, [], []);
    var p, f' := Pull(f, topic, group, max, [], []), ConsumeOp(f, topic, max, group).f;
    forall t | t in f'.topics ensures Settled(f', trace + p.log, t) {
      assert Settled(p.f, trace + p.log, t);
    }
  }

  /** Over any interleaving of publish, consume and dead_letter: on every topic, what was published is
      what was removed followed by what is queued, in order, and the published counter counts it; lag is
      queue length; the consumed set, the offset counters and the deliveries agree; no composite key is
      delivered twice, and a message is dropped only when its composite key had been delivered. */
  lemma {:induction false} FabricInvariant(ops: seq<Op>)
    ensures var r := RunAll(ops);
      Balanced(r.f, r.trace) && KeysKept(r.f, r.trace) && LagIsLength(r.f) && r.f.topics.Keys == ALL_TOPICS
  {
    if ops == [] {
      assert DeliveredKeys([]) == {};
    } else {
      var r, op := RunAll(ops[..|ops|-1]), ops[|ops|-1];
      FabricInvariant(ops[..|ops|-1]);
      match op {
        case Publish(msg) => if msg.topic in r.f.topics { PutKeeps(r.f, r.trace, msg); }
        case DeadLetter(msg, reason) => PutKeeps(r.f, r.trace, Poisoned(msg, reason));
        case Consume(topic, max, group) => if topic in r.f.topics { ConsumeKeeps(r.f, r.trace, topic, max, group); }
      }
    }
  }

  // ---------- groups whose composite keys collide ----------

  /** Composite keys of two groups can collide exactly when the groups are equal or one is the other
      followed by a colon and more. */
  lemma KeysCollideIff(g: string, g': string)
    ensures (exists k, k' :: Key(g, k) == Key(g', k')) <==> g == g' || g + ":" <= g' || g' + ":" <= g
  {
    forall k, k' | Key(g, k) == Key(g', k') ensures g == g' || g + ":" <= g' || g' + ":" <= g {
      SameKeySplit(g, k, g', k');
    }
    if g == g' { assert Key(g, "") == Key(g', ""); }
    if g + ":" <= g' {
      var rest := g'[|g|+1..];
      assert g' == g + ":" + rest;
      assert Key(g, rest + ":") == Key(g', "");
    }
    if g' + ":" <= g {
      var rest := g[|g'|+1..];
      assert g == g' + ":" + rest;
      assert Key(g, "") == Key(g', rest + ":");
    }
  }

  lemma SameKeySplit(g: string, k: string, g': string, k': string)
    requires Key(g, k) == Key(g', k')
    ensures (g == g' && k == k') || g + ":" <= g' || g' + ":" <= g
  {
    JoinedSplit(g, k, g', k', ':');
  }

  ghost predicate Apart(trace: seq<Happening>) {
    forall i, j :: 0 <= i < |trace| && 0 <= j < |trace| && !trace[i].Published? && !trace[j].Published? ==>
      !(trace[i].group + ":" <= trace[j].group)
  }

  /** Each group is given each idempotency key at most once, whatever the groups are called. */
  lemma EachKeyOncePerGroup(ops: seq<Op>, i: nat, j: nat)
    requires var trace := RunAll(ops).trace; i < j < |trace| && trace[i].Delivered? && trace[j].Delivered?
    ensures var trace := RunAll(ops).trace;
      trace[i].group == trace[j].group ==> trace[i].msg.idempotencyKey != trace[j].msg.idempotencyKey
  {
    FabricInvariant(ops);
    assert DifferentKeys(RunAll(ops).trace, i, j);
  }

  /** When no group name extends another with a colon, a message is dropped only if its group had
      been given that very idempotency key before. */
  lemma DroppedOnlyIfAlreadyGiven(ops: seq<Op>, j: nat) returns (i: nat)
    requires var trace := RunAll(ops).trace; j < |trace| && trace[j].Dropped? && Apart(trace)
    ensures var trace := RunAll(ops).trace;
      i < j && trace[i].Delivered? && trace[i].group == trace[j].group && trace[i].msg.idempotencyKey == trace[j].msg.idempotencyKey
  {
    FabricInvariant(ops);
    var trace := RunAll(ops).trace;
    assert GivenBefore(trace, j);
    var h :| h in trace[..j] && h.Delivered? && KeyOf(h) == KeyOf(trace[j]);
    i :| 0 <= i < j && trace[..j][i] == h;
    SameKeySplit(trace[i].group, trace[i].msg.idempotencyKey, trace[j].group, trace[j].msg.idempotencyKey);
  }

  lemma RunStep(ops: seq<Op>, op: Op)
    ensures var r, s := RunAll(ops), Step(RunAll(ops).f, op);
      RunAll(ops + [op]) == if s.Reply? then Run(s.f, r.trace + s.log) else r
  {
    assert (ops + [op])[..|ops|] == ops;
  }

  lemma ConsumeLone(f: State, topic: string, group: string, m: Envelope)
    requires topic in f.topics && f.topics[topic] == [m]
    ensures var p, key := ConsumeOp(f, topic, 1, group), Key(group, m.idempotencyKey);
      && topic in p.f.topics && p.f.topics[topic] == []
      && if key in f.consumed then p.f.consumed == f.consumed && p.log == [Dropped(group, topic, m)]
         else p.f.consumed == f.consumed + {key} && p.log == [Delivered(group, topic, m)]
  {
    var dropped, delivered := [Dropped(group, topic, m)], [Delivered(group, topic, m)];
    assert [] + dropped == dropped && [] + delivered == delivered && [] + [m] == [m];
    var popped := f.(topics := f.topics[topic := [m][1..]]);
    assert Pull(popped, topic, group, 1, [], dropped) == Pulled(popped, [], dropped);
    var next := Deliver(f, topic, group);
    assert Pull(next, topic, group, 1, [m], delivered) == Pulled(next, [m], delivered);
  }

  /** Publish one message to an empty raw queue and let one group ask for it. */
  lemma PublishThenConsume(ops: seq<Op>, m: Envelope, group: string)
    requires m.topic == RAW
    requires var f := RunAll(ops).f; RAW in f.topics && f.topics[RAW] == []
    ensures var r, r' := RunAll(ops), RunAll(ops + [Publish(m)] + [Consume(RAW, 1, group)]);
      var key := Key(group, m.idempotencyKey);
      && RAW in r'.f.topics && r'.f.topics[RAW] == []
      && if key in r.f.consumed then r'.f.consumed == r.f.consumed && r'.trace == r.trace + [Published(m), Dropped(group, RAW, m)]
         else r'.f.consumed == r.f.consumed + {key} && r'.trace == r.trace + [Published(m), Delivered(group, RAW, m)]
  {
    RunStep(ops, Publish(m));
    var mid := RunAll(ops + [Publish(m)]);
    assert mid.f.topics[RAW] == [m];
    RunStep(ops + [Publish(m)], Consume(RAW, 1, group));
    ConsumeLone(mid.f, RAW, group, m);
  }

  /** When a group's name extends another's with a colon, it can lose a message it was never given: the
      other group's delivery uses up the composite key. */
  lemma ExtendingGroupLosesMessages(g: string, x: string, m: Envelope, m': Envelope)
    requires m.topic == RAW && m'.topic == RAW && m.idempotencyKey == x + ":" + m'.idempotencyKey
    ensures var h := g + ":" + x;
      var r := RunAll([] + [Publish(m)] + [Consume(RAW, 1, g)] + [Publish(m')] + [Consume(RAW, 1, h)]);
      && r.trace == [Published(m), Delivered(g, RAW, m), Published(m'), Dropped(h, RAW, m')]
      && RAW in r.f.topics && r.f.topics[RAW] == []
  {
    var h := g + ":" + x;
    assert Key(g, m.idempotencyKey) == Key(h, m'.idempotencyKey);
    PublishThenConsume([], m, g);
    PublishThenConsume([] + [Publish(m)] + [Consume(RAW, 1, g)], m', h);
  }

  // ---------- which sets of groups lose nothing ----------

  /** No name extends another with a colon. */
  ghost predicate NamesApart(groups: set<string>) {
    forall g, h :: g in groups && h in groups ==> !(g + ":" <= h)
  }

  ghost predicate UsesOnly(ops: seq<Op>, groups: set<string>) {
    forall i :: 0 <= i < |ops| && ops[i].Consume? ==> ops[i].group in groups
  }

  /** The message dropped at `j` had been given, by its key, to the group it was dropped for. */
  ghost predicate AlreadyGiven(trace: seq<Happening>, j: nat)
    requires j < |trace| && trace[j].Dropped?
  {
    exists i :: 0 <= i < j && trace[i].Delivered? && trace[i].group == trace[j].group
                && trace[i].msg.idempotencyKey == trace[j].msg.idempotencyKey
  }

  ghost predicate LosesNothing(trace: seq<Happening>) {
    forall j {:trigger AlreadyGiven(trace, j)} :: 0 <= j < |trace| && trace[j].Dropped? ==> AlreadyGiven(trace, j)
  }

  ghost predicate ForGroups(trace: seq<Happening>, groups: set<string>) {
    forall i :: 0 <= i < |trace| && !trace[i].Published? ==> trace[i].group in groups
  }

  lemma {:induction false} PullForGroup(f: State, topic: string, group: string, max: int, batch: seq<Envelope>, log: seq<Happening>, groups: set<string>)
    requires topic in f.topics && group in groups && ForGroups(log, groups)
    ensures ForGroups(Pull(f, topic, group, max, batch, log).log, groups)
    decreases |f.topics[topic]|
  {
    var q := f.topics[topic];
    if q != [] && |batch| < max {
      if Key(group, q[0].idempotencyKey) in f.consumed {
        PullForGroup(f.(topics := f.topics[topic := q[1..]]), topic, group, max, batch, log + [Dropped(group, topic, q[0])], groups);
      } else {
        PullForGroup(Deliver(f, topic, group), topic, group, max, batch + [q[0]], log + [Delivered(group, topic, q[0])], groups);
      }
    }
  }

  lemma {:induction false} RunForGroups(ops: seq<Op>, groups: set<string>)
    requires UsesOnly(ops, groups)
    ensures ForGroups(RunAll(ops).trace, groups)
  {
    if ops != [] {
      var init, op := ops[..|ops|-1], ops[|ops|-1];
      assert UsesOnly(init, groups) by { assert forall i :: 0 <= i < |init| ==> init[i] == ops[i]; }
      RunForGroups(init, groups);
      var f := RunAll(init).f;
      if op.Consume? && op.topic in f.topics { PullForGroup(f, op.topic, op.group, op.maxRecords, [], [], groups); }
    }
  }

  /** Groups with these names lose nothing, whatever is published and in whatever order they consume, if
      and only if no name extends another with a colon. */
  lemma GroupsLoseNothingIff(groups: set<string>)
    ensures (forall ops {:trigger RunAll(ops)} :: UsesOnly(ops, groups) ==> LosesNothing(RunAll(ops).trace)) <==> NamesApart(groups)
  {
    if NamesApart(groups) {
      forall ops | UsesOnly(ops, groups) ensures LosesNothing(RunAll(ops).trace) {
        RunForGroups(ops, groups);
        var trace := RunAll(ops).trace;
        forall j | 0 <= j < |trace| && trace[j].Dropped? ensures AlreadyGiven(trace, j) {
          var i := DroppedOnlyIfAlreadyGiven(ops, j);
        }
      }
    } else {
      var g, h :| g in groups && h in groups && g + ":" <= h;
      var ops := SomethingIsLost(g, h);
      assert UsesOnly(ops, groups);
    }
  }

  lemma SomethingIsLost(g: string, h: string) returns (ops: seq<Op>)
    requires g + ":" <= h
    ensures UsesOnly(ops, {g, h}) && !LosesNothing(RunAll(ops).trace)
  {
    var x := h[|g|+1..];
    assert h == g + ":" + x;
    var m := Envelope("1", "ten_a", RAW, x + ":" + "k", map[], 0, false);
    var m' := Envelope("2", "ten_a", RAW, "k", map[], 0, false);
    ExtendingGroupLosesMessages(g, x, m, m');
    ops := [] + [Publish(m)] + [Consume(RAW, 1, g)] + [Publish(m')] + [Consume(RAW, 1, h)];
    assert !AlreadyGiven(RunAll(ops).trace, 3) by { assert |g| < |h|; }
  }
}
