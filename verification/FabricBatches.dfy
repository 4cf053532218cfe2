/** What one `consume` hands over, told from the queue: which messages, in which order, and where it stops. */
module FabricBatches {
  import opened Common
  import opened Fabric

  /** The group is given the message at `i`: it has not consumed its key, nor met it earlier in the queue. */
  ghost predicate Given(q: seq<Envelope>, consumed: set<string>, group: string, i: nat)
    requires i < |q|
  {
    group + ":" + q[i].idempotencyKey !in consumed && forall j :: 0 <= j < i ==> q[j].idempotencyKey != q[i].idempotencyKey
  }

  /** The messages given among the first `n`, in order. */
  ghost function Batch(q: seq<Envelope>, consumed: set<string>, group: string, n: nat): seq<Envelope>
    requires n <= |q|
  {
    if n == 0 then [] else Batch(q, consumed, group, n - 1) + if Given(q, consumed, group, n - 1) then [q[n-1]] else []
  }

  /** The batch is what is new to the group among the first `n` messages, and `n` is where the batch, on top of the `had`
      messages before, has reached `max`, or the queue its end. */
  ghost predicate Stops(q: seq<Envelope>, consumed: set<string>, group: string, max: int, had: nat, batch: seq<Envelope>, n: nat) {
    && n <= |q| && batch == Batch(q, consumed, group, n)
    && (had + |batch| >= max || n == |q|)
    && (n > 0 ==> had + |Batch(q, consumed, group, n - 1)| < max)
  }

  /** Every message up to `n` is on the record, as given or as dropped. */
  ghost predicate Recorded(q: seq<Envelope>, consumed: set<string>, topic: string, group: string, log: seq<Happening>, n: nat) {
    n <= |q| && |log| == n && forall i :: 0 <= i < n ==>
      log[i] == if Given(q, consumed, group, i) then Delivered(group, topic, q[i]) else Dropped(group, topic, q[i])
  }

  /** The group's counter for the topic has grown, and no other. */
  ghost predicate CountsOn(f: State, after: State, topic: string, group: string, given: nat) {
    && Count(after.offsets, group + ":" + topic) == Count(f.offsets, group + ":" + topic) + given
    && forall k :: k != group + ":" + topic ==> Count(after.offsets, k) == Count(f.offsets, k)
  }

  ghost predicate Takes(f: State, topic: string, group: string, max: int, had: nat, batch: seq<Envelope>, log: seq<Happening>, after: State, n: nat)
    requires topic in f.topics
  {
    && Stops(f.topics[topic], f.consumed, group, max, had, batch, n)
    && Recorded(f.topics[topic], f.consumed, topic, group, log, n)
    && CountsOn(f, after, topic, group, |batch|)
    && topic in after.topics && after.topics[topic] == f.topics[topic][n..]
  }

  lemma GivenLater(q: seq<Envelope>, consumed: set<string>, group: string, i: nat)
    requires q != [] && i < |q| - 1
    ensures Given(q, consumed, group, i + 1) <==> Given(q[1..], consumed + {Key(group, q[0].idempotencyKey)}, group, i)
  {
    var rest := q[1..];
    assert rest[i] == q[i+1] && forall j :: 0 <= j < i ==> rest[j] == q[j+1];
    if Key(group, q[0].idempotencyKey) == Key(group, q[i+1].idempotencyKey) { SameKeys(group, q[0].idempotencyKey, q[i+1].idempotencyKey); }
  }

  lemma SameKeys(group: string, a: string, b: string)
    requires Key(group, a) == Key(group, b)
    ensures a == b
  {
    assert a == Key(group, a)[|group + ":"|..] && b == Key(group, b)[|group + ":"|..];
  }

  lemma {:induction false} BatchLater(q: seq<Envelope>, consumed: set<string>, group: string, n: nat)
    requires q != [] && n < |q|
    ensures Batch(q, consumed, group, n + 1)
            == (if Given(q, consumed, group, 0) then [q[0]] else [])
               + Batch(q[1..], consumed + {Key(group, q[0].idempotencyKey)}, group, n)
  {
    if n > 0 {
      BatchLater(q, consumed, group, n - 1);
      GivenLater(q, consumed, group, n - 1);
      var front, rest := Front(q, Given(q, consumed, group, 0)), consumed + {Key(group, q[0].idempotencyKey)};
      ConcatAssoc(front, Batch(q[1..], rest, group, n - 1), if Given(q, consumed, group, n) then [q[n]] else []);
    }
  }

  /** The state after the front message is taken, given or not. */
  function Popped(f: State, topic: string, group: string): State
    requires topic in f.topics && f.topics[topic] != []
  {
    if Key(group, f.topics[topic][0].idempotencyKey) in f.consumed then f.(topics := f.topics[topic := f.topics[topic][1..]])
    else Deliver(f, topic, group)
  }

  function Front(q: seq<Envelope>, given: bool): seq<Envelope>
    requires q != []
  {
    if given then [q[0]] else []
  }

  lemma StopsLater(q: seq<Envelope>, consumed: set<string>, group: string, max: int, had: nat, batch: seq<Envelope>, n: nat)
    requires q != [] && had < max
    requires var front := Front(q, Given(q, consumed, group, 0));
      Stops(q[1..], consumed + {Key(group, q[0].idempotencyKey)}, group, max, had + |front|, batch, n)
    ensures Stops(q, consumed, group, max, had, Front(q, Given(q, consumed, group, 0)) + batch, n + 1)
  {
    BatchLater(q, consumed, group, n);
    if n > 0 { BatchLater(q, consumed, group, n - 1); }
  }

  lemma RecordedLater(q: seq<Envelope>, consumed: set<string>, topic: string, group: string, log: seq<Happening>, n: nat)
    requires q != [] && Recorded(q[1..], consumed + {Key(group, q[0].idempotencyKey)}, topic, group, log, n)
    ensures Recorded(q, consumed, topic, group,
      [if Given(q, consumed, group, 0) then Delivered(group, topic, q[0]) else Dropped(group, topic, q[0])] + log, n + 1)
  {
    forall i | 0 <= i < n
      ensures Given(q, consumed, group, i + 1) <==> Given(q[1..], consumed + {Key(group, q[0].idempotencyKey)}, group, i)
    {
      GivenLater(q, consumed, group, i);
    }
  }

  lemma OneMoreTaken(f: State, topic: string, group: string, max: int, had: nat, batch: seq<Envelope>, log: seq<Happening>, after: State, n: nat)
    requires topic in f.topics && f.topics[topic] != [] && had < max
    requires var front := Front(f.topics[topic], Given(f.topics[topic], f.consumed, group, 0));
      Takes(Popped(f, topic, group), topic, group, max, had + |front|, batch, log, after, n)
    ensures var q, given := f.topics[topic], Given(f.topics[topic], f.consumed, group, 0);
      Takes(f, topic, group, max, had, Front(q, given) + batch,
            [if given then Delivered(group, topic, q[0]) else Dropped(group, topic, q[0])] + log, after, n + 1)
  {
    var q, g := f.topics[topic], Popped(f, topic, group);
    PoppedFront(f, topic, group);
    StopsLater(q, f.consumed, group, max, had, batch, n);
    RecordedLater(q, f.consumed, topic, group, log, n);
    assert q[1..][n..] == q[n+1..];
  }

  lemma PoppedFront(f: State, topic: string, group: string)
    requires topic in f.topics && f.topics[topic] != []
    ensures var q, g := f.topics[topic], Popped(f, topic, group);
      && topic in g.topics && g.topics[topic] == q[1..] && g.consumed == f.consumed + {Key(group, q[0].idempotencyKey)}
      && CountsOn(f, g, topic, group, if Given(q, f.consumed, group, 0) then 1 else 0)
  {
  }

  lemma PullOnce(f: State, topic: string, group: string, max: int, batch: seq<Envelope>, log: seq<Happening>)
    requires topic in f.topics && f.topics[topic] != [] && |batch| < max
    ensures var q, given := f.topics[topic], Given(f.topics[topic], f.consumed, group, 0);
      Pull(f, topic, group, max, batch, log) == Pull(Popped(f, topic, group), topic, group, max, batch + Front(q, given),
        log + [if given then Delivered(group, topic, q[0]) else Dropped(group, topic, q[0])])
  {
    assert batch + [] == batch;
  }

  lemma {:induction false} PullTakes(f: State, topic: string, group: string, max: int, batch: seq<Envelope>, log: seq<Happening>)
    returns (more: seq<Envelope>, logged: seq<Happening>, n: nat)
    requires topic in f.topics
    ensures var p := Pull(f, topic, group, max, batch, log);
      p.batch == batch + more && p.log == log + logged && Takes(f, topic, group, max, |batch|, more, logged, p.f, n)
    decreases |f.topics[topic]|
  {
    var q := f.topics[topic];
    if q == [] || |batch| >= max {
      more, logged, n := [], [], 0;
    } else {
      var given := Given(q, f.consumed, group, 0);
      var front, now := Front(q, given), [if given then Delivered(group, topic, q[0]) else Dropped(group, topic, q[0])];
      PoppedFront(f, topic, group);
      PullOnce(f, topic, group, max, batch, log);
      more, logged, n := PullTakes(Popped(f, topic, group), topic, group, max, batch + front, log + now);
      var after := Pull(Popped(f, topic, group), topic, group, max, batch + front, log + now).f;
      OneMoreTaken(f, topic, group, max, |batch|, more, logged, after, n);
      ConcatAssoc(batch, front, more);
      ConcatAssoc(log, now, logged);
      more, logged, n := front + more, now + logged, n + 1;
    }
  }

  /** A group consumes from the front of a topic what is new to it, in order and each key once, until it has `max`
      messages or the topic is empty; what is not new to it is dropped on the way.  Its counter for the
      topic grows by the messages given, and no other counter. */
  lemma ConsumeHandsOver(f: State, topic: string, max: int, group: string) returns (n: nat)
    requires topic in f.topics
    ensures var r := Step(f, Consume(topic, max, group));
      r.Reply? && Takes(f, topic, group, max, 0, r.batch, r.log, r.f, n)
  {
    n := PullHandsOver(f, topic, max, group);
    PullKeepsTopics(f, topic, group, max, [], []);
  }

  lemma PullHandsOver(f: State, topic: string, max: int, group: string) returns (n: nat)
    requires topic in f.topics
    ensures var p := Pull(f, topic, group, max, [], []); Takes(f, topic, group, max, 0, p.batch, p.log, p.f, n)
  {
    var more, logged;
    more, logged, n := PullTakes(f, topic, group, max, [], []);
    assert [] + more == more && [] + logged == logged;
  }
}
