/**
 The append-only audit log: each record hashes its covered fields together with the hash of the
 record before it, and verification replays the chain in sequence order.
 */
module Audit {
  import opened Common
  import opened Sorting

  type Json = map<string, string>

  datatype Action = Action(
    tenantId: Option<string>, actorType: string, actorId: string, requestId: string, name: string,
    targetType: string, targetId: Option<string>, reason: Option<string>,
    policyDecision: Option<string>, approvalStatus: Option<string>,
    before: Option<Json>, after: Option<Json>, result: string)

  /** `id` and `timestamp` are stored but not covered by the hash. */
  datatype Record = Record(id: nat, timestamp: int, sequence: int, action: Action, previousHash: string, recordHash: string)

  /** What the hash covers: an absent state counts as an empty one. */
  datatype Payload = Payload(sequence: int, action: Action)

  type ChainedHash = (string, Payload) -> string

  const GENESIS_HASH := "0000000000000000000000000000000000000000000000000000000000000000"

  function OrEmpty(s: Option<Json>): Option<Json> {
    if s.Some? then s else Some(map[])
  }

  function Covered(sequence: int, a: Action): Payload {
    Payload(sequence, a.(before := OrEmpty(a.before), after := OrEmpty(a.after)))
  }

  function PayloadOf(r: Record): Payload { Covered(r.sequence, r.action) }

  function BySequence(): Record -> int { (r: Record) => r.sequence }

  /** The rows in ascending sequence order, as the queries return them. */
  function InOrder(rows: seq<Record>): seq<Record> { SortBy(rows, BySequence()) }

  function NextSequence(rows: seq<Record>): int {
    var ordered := InOrder(rows);
    if ordered == [] then 1 else ordered[|ordered|-1].sequence + 1
  }

  function LatestHash(rows: seq<Record>): string {
    var ordered := InOrder(rows);
    if ordered == [] || ordered[|ordered|-1].recordHash == "" then GENESIS_HASH
    else ordered[|ordered|-1].recordHash
  }

  function NewRecord(h: ChainedHash, rows: seq<Record>, id: nat, timestamp: int, a: Action): Record {
    var p := Covered(NextSequence(rows), a);
    Record(id, timestamp, p.sequence, p.action, LatestHash(rows), h(LatestHash(rows), p))
  }

  datatype Verdict = Intact | BreakAt(sequence: int)

  predicate Links(h: ChainedHash, r: Record, previous: string) {
    r.previousHash == previous && r.recordHash == h(previous, PayloadOf(r))
  }

  function Check(h: ChainedHash, ordered: seq<Record>, previous: string): Verdict {
    if ordered == [] then Intact
    else if !Links(h, ordered[0], previous) then BreakAt(ordered[0].sequence)
    else Check(h, ordered[1..], ordered[0].recordHash)
  }

  function VerifyChain(h: ChainedHash, rows: seq<Record>): Verdict {
    Check(h, InOrder(rows), GENESIS_HASH)
  }

  class AuditLog {
    const hash: ChainedHash
    var rows: seq<Record>
    var nextId: nat

    constructor (hash: ChainedHash)
      ensures this.hash == hash && rows == [] && nextId == 0
    {
      this.hash := hash;
      rows, nextId := [], 0;
    }

    method Write(a: Action, timestamp: int) returns (r: Record)
      modifies this
      ensures r == NewRecord(hash, old(rows), old(nextId), timestamp, a)
      ensures rows == old(rows) + [r] && nextId == old(nextId) + 1
    {
      var sequence := NextSequence(rows);
      var previous := LatestHash(rows);
      var payload := Covered(sequence, a);
      r := Record(nextId, timestamp, payload.sequence, payload.action, previous, hash(previous, payload));
      rows := rows + [r];
      nextId := nextId + 1;
    }

    method Verify() returns (v: Verdict)
      ensures v == VerifyChain(hash, rows)
    {
      var ordered := InOrder(rows);
      var previous := GENESIS_HASH;
      var i := 0;
      while i < |ordered|
        invariant 0 <= i <= |ordered|
        invariant Check(hash, ordered[i..], previous) == VerifyChain(hash, rows)
      {
        var row := ordered[i];
        assert ordered[i..][0] == row && ordered[i..][1..] == ordered[i+1..];
        var expected := hash(previous, PayloadOf(row));
        if row.previousHash != previous || row.recordHash != expected {
          return BreakAt(row.sequence);
        }
        previous := row.recordHash;
        i := i + 1;
      }
      v := Intact;
    }
  }

  // ---------- what verification decides ----------

  /** The hash each row must continue from. */
  ghost function Before(ordered: seq<Record>, i: nat): string
    requires i < |ordered|
  {
    if i == 0 then GENESIS_HASH else ordered[i-1].recordHash
  }

  ghost predicate LinkAt(h: ChainedHash, ordered: seq<Record>, i: nat)
    requires i < |ordered|
  {
    Links(h, ordered[i], Before(ordered, i))
  }

  ghost predicate Linked(h: ChainedHash, ordered: seq<Record>) {
    forall i :: 0 <= i < |ordered| ==> LinkAt(h, ordered, i)
  }

  lemma LinkedPrefix(h: ChainedHash, ordered: seq<Record>, n: nat)
    requires Linked(h, ordered) && n <= |ordered|
    ensures Linked(h, ordered[..n])
  {
    var front := ordered[..n];
    forall i | 0 <= i < n ensures LinkAt(h, front, i) {
      assert LinkAt(h, ordered, i) && front[i] == ordered[i] && Before(front, i) == Before(ordered, i);
    }
  }

  lemma LinkedGrows(h: ChainedHash, ordered: seq<Record>, n: nat)
    requires n < |ordered| && Linked(h, ordered[..n]) && LinkAt(h, ordered, n)
    ensures Linked(h, ordered[..n+1])
  {
    var front, more := ordered[..n], ordered[..n+1];
    forall i | 0 <= i < n + 1 ensures LinkAt(h, more, i) {
      if i < n { assert LinkAt(h, front, i) && front[i] == more[i] && Before(front, i) == Before(more, i); }
    }
  }

  lemma {:induction false} CheckSpec(h: ChainedHash, ordered: seq<Record>, i: nat)
    requires i <= |ordered| && Linked(h, ordered[..i])
    ensures var v := Check(h, ordered[i..], if i == 0 then GENESIS_HASH else ordered[i-1].recordHash);
      match v
      case Intact => Linked(h, ordered)
      case BreakAt(s) => exists k :: i <= k < |ordered| && ordered[k].sequence == s
                           && Linked(h, ordered[..k]) && !LinkAt(h, ordered, k)
    decreases |ordered| - i
  {
    if i == |ordered| {
      assert ordered[..i] == ordered;
    } else {
      assert ordered[i..][0] == ordered[i] && ordered[i..][1..] == ordered[i+1..];
      if LinkAt(h, ordered, i) {
        LinkedGrows(h, ordered, i);
        CheckSpec(h, ordered, i + 1);
      }
    }
  }

  /** Verification succeeds exactly when every row continues the chain; when it fails, it names the
      first row that does not, all rows before it being sound. */
  lemma VerificationIsExact(h: ChainedHash, rows: seq<Record>)
    ensures var ordered, v := InOrder(rows), VerifyChain(h, rows);
      && (v == Intact <==> Linked(h, ordered))
      && (v.BreakAt? ==> exists k :: 0 <= k < |ordered| && ordered[k].sequence == v.sequence
                           && Linked(h, ordered[..k]) && !LinkAt(h, ordered, k))
  {
    var ordered := InOrder(rows);
    assert ordered[0..] == ordered;
    CheckSpec(h, ordered, 0);
  }

  // ---------- logs that were written ----------

  datatype Entry = Entry(action: Action, timestamp: int)

  /** The table after writing the entries, in order, to an empty log. */
  function Written(h: ChainedHash, entries: seq<Entry>): seq<Record> {
    if entries == [] then []
    else
      var rows := Written(h, entries[..|entries|-1]);
      var e := entries[|entries|-1];
      rows + [NewRecord(h, rows, |rows|, e.timestamp, e.action)]
  }

  ghost predicate NeverEmpty(h: ChainedHash) {
    forall p, a :: h(p, a) != ""
  }

  lemma {:induction false} WrittenLinked(h: ChainedHash, entries: seq<Entry>)
    requires NeverEmpty(h)
    ensures var rows := Written(h, entries);
      && |rows| == |entries|
      && (forall i :: 0 <= i < |rows| ==> rows[i].sequence == i + 1)
      && Linked(h, rows)
  {
    if entries != [] {
      var init := entries[..|entries|-1];
      WrittenLinked(h, init);
      var e := entries[|entries|-1];
      WriteLinks(h, Written(h, init), |init|, e.timestamp, e.action);
    }
  }

  /** A record written to a numbered, linked log gets the next number and continues the chain. */
  lemma WriteLinks(h: ChainedHash, rows: seq<Record>, id: nat, timestamp: int, a: Action)
    requires NeverEmpty(h) && Linked(h, rows) && forall i :: 0 <= i < |rows| ==> rows[i].sequence == i + 1
    ensures var r := NewRecord(h, rows, id, timestamp, a);
      r.sequence == |rows| + 1 && Linked(h, rows + [r])
  {
    SortIdentity(rows, BySequence());
    var more := rows + [NewRecord(h, rows, id, timestamp, a)];
    if rows != [] { assert LinkAt(h, rows, |rows| - 1); }
    forall i | 0 <= i < |more| ensures LinkAt(h, more, i) {
      if i < |rows| { assert LinkAt(h, rows, i) && more[i] == rows[i] && Before(more, i) == Before(rows, i); }
    }
  }

  /** Every log built by any run of writes numbers its records from one, is stored in order, and
      verifies. */
  lemma WrittenLogsVerify(h: ChainedHash, entries: seq<Entry>)
    requires NeverEmpty(h)
    ensures var rows := Written(h, entries);
      && |rows| == |entries|
      && (forall i :: 0 <= i < |rows| ==> rows[i].sequence == i + 1)
      && InOrder(rows) == rows
      && Linked(h, rows)
      && VerifyChain(h, rows) == Intact
  {
    WrittenLinked(h, entries);
    SortIdentity(Written(h, entries), BySequence());
    VerificationIsExact(h, Written(h, entries));
  }

  // ---------- what the last hash pins down ----------

  ghost predicate Injective(h: ChainedHash) {
    forall p, a, q, b {:trigger Tells(h, p, a, q, b)} :: Tells(h, p, a, q, b)
  }

  ghost predicate Tells(h: ChainedHash, p: string, a: Payload, q: string, b: Payload) {
    h(p, a) == h(q, b) ==> p == q && a == b
  }

  ghost predicate OmitsGenesis(h: ChainedHash) {
    forall p, a :: h(p, a) != GENESIS_HASH
  }

  /** The two records agree on everything the chain covers. */
  ghost predicate Agree(r: Record, r': Record) {
    PayloadOf(r) == PayloadOf(r') && r.previousHash == r'.previousHash && r.recordHash == r'.recordHash
  }

  ghost predicate AgreeThroughout(xs: seq<Record>, ys: seq<Record>) {
    |xs| == |ys| && forall i :: 0 <= i < |xs| ==> Agree(xs[i], ys[i])
  }

  lemma GenesisIsFirst(h: ChainedHash, xs: seq<Record>, i: nat)
    requires OmitsGenesis(h) && Linked(h, xs) && i < |xs|
    ensures Before(xs, i) == GENESIS_HASH <==> i == 0
  {
    if i > 0 { assert LinkAt(h, xs, i - 1); }
  }

  lemma {:induction false} ChainsAgree(h: ChainedHash, xs: seq<Record>, ys: seq<Record>)
    requires Injective(h) && OmitsGenesis(h) && Linked(h, xs) && Linked(h, ys)
    requires xs != [] && ys != [] && xs[|xs|-1].recordHash == ys[|ys|-1].recordHash
    ensures AgreeThroughout(xs, ys)
  {
    var m, n := |xs| - 1, |ys| - 1;
    assert LinkAt(h, xs, m) && LinkAt(h, ys, n);
    assert Tells(h, Before(xs, m), PayloadOf(xs[m]), Before(ys, n), PayloadOf(ys[n]));
    assert Agree(xs[m], ys[n]);
    GenesisIsFirst(h, xs, m);
    GenesisIsFirst(h, ys, n);
    if m > 0 {
      LinkedPrefix(h, xs, m);
      LinkedPrefix(h, ys, n);
      ChainsAgree(h, xs[..m], ys[..n]);
      forall i | 0 <= i < |xs| ensures Agree(xs[i], ys[i]) {
        if i < m { assert Agree(xs[..m][i], ys[..n][i]); }
      }
    }
  }

  /** Two logs that verify and end in the same record hash have the same length and agree on every
      covered field and both hashes at every position: no record of one can have been changed,
      dropped, inserted or moved. */
  lemma LastHashPinsTheLog(h: ChainedHash, rows: seq<Record>, rows': seq<Record>)
    requires Injective(h) && OmitsGenesis(h)
    requires VerifyChain(h, rows) == Intact && VerifyChain(h, rows') == Intact
    requires rows != [] && rows' != []
    requires LatestHash(rows) == LatestHash(rows') && NeverEmpty(h)
    ensures AgreeThroughout(InOrder(rows), InOrder(rows'))
  {
    SortSpec(rows, BySequence());
    SortSpec(rows', BySequence());
    var m, n := |rows| - 1, |rows'| - 1;
    VerificationIsExact(h, rows);
    VerificationIsExact(h, rows');
    assert LinkAt(h, InOrder(rows), m) && LinkAt(h, InOrder(rows'), n);
    ChainsAgree(h, InOrder(rows), InOrder(rows'));
  }

  // ---------- what removing records does ----------

  /** Some of the rows, by position. */
  ghost function Kept(rows: seq<Record>, ps: seq<nat>): (kept: seq<Record>)
    requires forall k :: 0 <= k < |ps| ==> ps[k] < |rows|
  {
    seq(|ps|, k requires 0 <= k < |ps| => rows[ps[k]])
  }

  /** Positions in order, each once. */
  ghost predicate Rising(ps: seq<nat>, n: nat) {
    (forall k :: 0 <= k < |ps| ==> ps[k] < n) && forall k, l :: 0 <= k < l < |ps| ==> ps[k] < ps[l]
  }

  ghost predicate IsPrefix(ps: seq<nat>) { forall k :: 0 <= k < |ps| ==> ps[k] == k }

  lemma {:induction false} RisingIsPrefix(ps: seq<nat>, n: nat)
    requires Rising(ps, n) && (ps != [] ==> ps[|ps|-1] == |ps| - 1)
    ensures IsPrefix(ps)
  {
    if ps != [] {
      var init := ps[..|ps|-1];
      if init != [] {
        RisingAtLeast(init, n, |init| - 1);
        RisingIsPrefix(init, n);
      }
    }
  }

  lemma {:induction false} RisingAtLeast(ps: seq<nat>, n: nat, k: nat)
    requires Rising(ps, n) && k < |ps|
    ensures ps[k] >= k
  {
    if k > 0 { RisingAtLeast(ps, n, k - 1); }
  }

  lemma PrefixIsKept(rows: seq<Record>, ps: seq<nat>)
    requires Rising(ps, |rows|) && IsPrefix(ps)
    ensures |ps| <= |rows| && Kept(rows, ps) == rows[..|ps|]
  {
    if ps != [] { assert ps[|ps|-1] == |ps| - 1; }
  }

  /** Keeping some rows of a linked log, in order, leaves a linked log only if what is kept is its beginning. */
  lemma LinkedKeptIsPrefix(h: ChainedHash, rows: seq<Record>, ps: seq<nat>)
    requires Injective(h) && OmitsGenesis(h) && Linked(h, rows) && Rising(ps, |rows|) && Linked(h, Kept(rows, ps))
    ensures IsPrefix(ps)
  {
    if ps != [] {
      var last := ps[|ps|-1];
      LinkedPrefix(h, rows, last + 1);
      ChainsAgree(h, Kept(rows, ps), rows[..last+1]);
      RisingIsPrefix(ps, |rows|);
    }
  }

  lemma KeptInOrder(rows: seq<Record>, ps: seq<nat>)
    requires Rising(ps, |InOrder(rows)|)
    ensures InOrder(Kept(InOrder(rows), ps)) == Kept(InOrder(rows), ps)
  {
    SortSpec(rows, BySequence());
    var ordered, kept := InOrder(rows), Kept(InOrder(rows), ps);
    forall i, j | 0 <= i < j < |kept| ensures BySequence()(kept[i]) <= BySequence()(kept[j]) {
      assert BySequence()(ordered[ps[i]]) <= BySequence()(ordered[ps[j]]);
    }
    SortIdentity(kept, BySequence());
  }

  /** Removing records from a log that verifies goes unnoticed if and only if they are cut off its end:
      whatever else is removed, verification breaks. */
  lemma RemovalUnnoticedIff(h: ChainedHash, rows: seq<Record>, ps: seq<nat>)
    requires Injective(h) && OmitsGenesis(h) && VerifyChain(h, rows) == Intact && Rising(ps, |InOrder(rows)|)
    ensures VerifyChain(h, Kept(InOrder(rows), ps)) == Intact <==> IsPrefix(ps)
  {
    var ordered := InOrder(rows);
    KeptInOrder(rows, ps);
    VerificationIsExact(h, rows);
    VerificationIsExact(h, Kept(ordered, ps));
    if IsPrefix(ps) {
      PrefixIsKept(ordered, ps);
      LinkedPrefix(h, ordered, |ps|);
    } else if Linked(h, Kept(ordered, ps)) {
      LinkedKeptIsPrefix(h, ordered, ps);
    }
  }

  /** What the chain cannot see: cutting records off the end of a log that verifies leaves a log
      that verifies. */
  lemma TruncationGoesUnnoticed(h: ChainedHash, rows: seq<Record>, n: nat)
    requires VerifyChain(h, rows) == Intact && n <= |InOrder(rows)|
    ensures VerifyChain(h, InOrder(rows)[..n]) == Intact
  {
    var ordered := InOrder(rows);
    VerificationIsExact(h, rows);
    SortSpec(rows, BySequence());
    SortIdentity(ordered[..n], BySequence());
    LinkedPrefix(h, ordered, n);
    VerificationIsExact(h, ordered[..n]);
  }
}
