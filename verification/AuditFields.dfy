/** What the audit chain protects, field by field. */
module AuditFields {
  import opened Common
  import opened Sorting
  import opened Audit

  /** An absent state is an empty one. */
  function State(s: Option<Json>): Json { match s case None => map[] case Some(json) => json }

  /** The two records agree on their number and on each of the thirteen fields of their actions. */
  predicate SameFields(r: Record, r': Record) {
    var a, b := r.action, r'.action;
    && r.sequence == r'.sequence
    && a.tenantId == b.tenantId && a.actorType == b.actorType && a.actorId == b.actorId && a.requestId == b.requestId
    && a.name == b.name && a.targetType == b.targetType && a.targetId == b.targetId && a.reason == b.reason
    && a.policyDecision == b.policyDecision && a.approvalStatus == b.approvalStatus
    && State(a.before) == State(b.before) && State(a.after) == State(b.after) && a.result == b.result
  }

  lemma CoveredIffSame(r: Record, r': Record)
    ensures PayloadOf(r) == PayloadOf(r') <==> SameFields(r, r')
  {
  }

  // ---------- writing ----------

  /** The row with the highest number. */
  ghost predicate IsLatest(rows: seq<Record>, r: Record) {
    r in rows && forall x :: x in rows ==> x.sequence <= r.sequence
  }

  /** A record that is written carries the action it was given, field by field, with absent states as empty; its number
      follows the highest there is, and its previous hash is that of a row with this number, or of the genesis. */
  lemma RecordCarriesItsAction(h: ChainedHash, rows: seq<Record>, id: nat, timestamp: int, a: Action)
    ensures var r := NewRecord(h, rows, id, timestamp, a);
      && r.id == id && r.timestamp == timestamp
      && SameFields(r, Record(0, 0, r.sequence, a, "", "")) && r.action.before == Some(State(a.before)) && r.action.after == Some(State(a.after))
      && if rows == [] then r.sequence == 1 && r.previousHash == GENESIS_HASH
         else exists last :: IsLatest(rows, last) && r.sequence == last.sequence + 1
                && r.previousHash == if last.recordHash == "" then GENESIS_HASH else last.recordHash
  {
    if rows == [] { SortSpec(rows, BySequence()); } else { var last := LastIsLatest(rows); }
  }

  lemma LastIsLatest(rows: seq<Record>) returns (last: Record)
    requires rows != []
    ensures InOrder(rows) != [] && last == InOrder(rows)[|InOrder(rows)|-1] && IsLatest(rows, last)
  {
    SortSpec(rows, BySequence());
    SortMembers(rows, BySequence());
    var ordered := InOrder(rows);
    last := ordered[|ordered|-1];
    forall x | x in rows ensures x.sequence <= last.sequence {
      var i :| 0 <= i < |ordered| && ordered[i] == x;
      assert BySequence()(ordered[i]) <= BySequence()(last);
    }
    assert last in ordered;
  }

  // ---------- changing ----------

  ghost predicate AgreeOnFields(xs: seq<Record>, ys: seq<Record>) {
    |xs| == |ys| && forall i :: 0 <= i < |xs| ==>
      SameFields(xs[i], ys[i]) && xs[i].previousHash == ys[i].previousHash && xs[i].recordHash == ys[i].recordHash
  }

  /** Two logs that verify and end in the same record hash agree, record by record, on the number, on every field of the
      action and on both hashes. */
  lemma LastHashPinsEveryField(h: ChainedHash, rows: seq<Record>, rows': seq<Record>)
    requires Injective(h) && OmitsGenesis(h) && NeverEmpty(h)
    requires VerifyChain(h, rows) == Intact && VerifyChain(h, rows') == Intact
    requires rows != [] && rows' != [] && LatestHash(rows) == LatestHash(rows')
    ensures AgreeOnFields(InOrder(rows), InOrder(rows'))
  {
    LastHashPinsTheLog(h, rows, rows');
    forall i | 0 <= i < |InOrder(rows)| ensures SameFields(InOrder(rows)[i], InOrder(rows')[i]) {
      assert Agree(InOrder(rows)[i], InOrder(rows')[i]);
      CoveredIffSame(InOrder(rows)[i], InOrder(rows')[i]);
    }
  }

  lemma RowIsLinked(h: ChainedHash, rows: seq<Record>, r: Record) returns (previous: string)
    requires VerifyChain(h, rows) == Intact && r in rows
    ensures Links(h, r, previous)
  {
    VerificationIsExact(h, rows);
    SortMembers(rows, BySequence());
    var ordered := InOrder(rows);
    var i :| 0 <= i < |ordered| && ordered[i] == r;
    assert LinkAt(h, ordered, i);
    previous := Before(ordered, i);
  }

  /** Over all logs that verify, a record hash stands for one number, one action and one predecessor. */
  lemma HashStandsForOneRecord(h: ChainedHash, rows: seq<Record>, rows': seq<Record>, r: Record, r': Record)
    requires Injective(h) && VerifyChain(h, rows) == Intact && VerifyChain(h, rows') == Intact
    requires r in rows && r' in rows' && r.recordHash == r'.recordHash
    ensures SameFields(r, r') && r.previousHash == r'.previousHash
  {
    var p := RowIsLinked(h, rows, r);
    var q := RowIsLinked(h, rows', r');
    assert Tells(h, p, PayloadOf(r), q, PayloadOf(r'));
    CoveredIffSame(r, r');
  }

  lemma SwapInOrder(rows: seq<Record>, i: nat, r: Record)
    requires i < |InOrder(rows)| && r.sequence == InOrder(rows)[i].sequence
    ensures InOrder(InOrder(rows)[i := r]) == InOrder(rows)[i := r]
  {
    SortSpec(rows, BySequence());
    var ordered := InOrder(rows);
    var changed := ordered[i := r];
    forall j, k | 0 <= j < k < |changed| ensures BySequence()(changed[j]) <= BySequence()(changed[k]) {
      assert BySequence()(ordered[j]) <= BySequence()(ordered[k]);
    }
    SortIdentity(changed, BySequence());
  }

  /** If any field of the action is changed in one row of a log that verifies, the hashes being left as they are,
      verification breaks, and at the number of just that row. */
  lemma ChangeBreaksAtItsRow(h: ChainedHash, rows: seq<Record>, i: nat, r: Record)
    requires Injective(h) && VerifyChain(h, rows) == Intact && i < |InOrder(rows)|
    requires var was := InOrder(rows)[i];
      r.sequence == was.sequence && r.previousHash == was.previousHash && r.recordHash == was.recordHash && !SameFields(r, was)
    ensures VerifyChain(h, InOrder(rows)[i := r]) == BreakAt(r.sequence)
  {
    var ordered := InOrder(rows);
    var changed := ordered[i := r];
    SwapInOrder(rows, i, r);
    VerificationIsExact(h, rows);
    VerificationIsExact(h, changed);
    assert LinkAt(h, ordered, i);
    assert Tells(h, Before(ordered, i), PayloadOf(ordered[i]), Before(changed, i), PayloadOf(r));
    CoveredIffSame(r, ordered[i]);
    assert !LinkAt(h, changed, i);
    var k :| 0 <= k < |changed| && changed[k].sequence == VerifyChain(h, changed).sequence && Linked(h, changed[..k]) && !LinkAt(h, changed, k);
    if k < i { LinkedBelow(h, ordered, i, r, k); }
    if k > i { LinkedHas(h, changed, k, i); }
  }

  lemma LinkedBelow(h: ChainedHash, ordered: seq<Record>, i: nat, r: Record, k: nat)
    requires Linked(h, ordered) && k < i < |ordered|
    ensures LinkAt(h, ordered[i := r], k)
  {
    var changed := ordered[i := r];
    assert LinkAt(h, ordered, k) && changed[k] == ordered[k] && Before(changed, k) == Before(ordered, k);
  }

  lemma LinkedHas(h: ChainedHash, rows: seq<Record>, k: nat, i: nat)
    requires i < k <= |rows| && Linked(h, rows[..k])
    ensures LinkAt(h, rows, i)
  {
    var front := rows[..k];
    assert LinkAt(h, front, i) && front[i] == rows[i] && Before(front, i) == Before(rows, i);
  }
}
