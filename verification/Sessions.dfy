/** Network sessions: events with both addresses, grouped by conversation. */
module Sessions {
  import opened Common
  import opened Sorting
  import opened Grouping
  import opened Joining

  /** `time` is in microseconds; the byte counts are the integers read from the attributes. */
  datatype Event = Event(
    id: string, tenantId: string, time: int, srcIp: Option<string>, dstIp: Option<string>,
    protocol: Option<string>, dstPort: Option<int>, bytesOut: int, bytesIn: int,
    sourceType: string, category: string, domain: Option<string>, url: Option<string>)

  datatype Session = Session(
    key: string, tenantId: string, src: string, dst: string, protocol: string,
    start: int, end: int, durationMs: int, bytesOut: int, bytesIn: int, packets: nat,
    dns: set<string>, tls: set<string>, http: set<string>,
    zeekRefs: seq<string>, suricataRefs: seq<string>, risk: int)

  predicate Has(s: Option<string>) { s.Some? && s.value != "" }

  function OrEmpty(s: Option<string>): string { if s.Some? then s.value else "" }

  /** `str(port or "")`: a missing port and port zero read the same. */
  function PortText(p: Option<int>): string {
    if p.None? || p.value == 0 then ""
    else Number(p.value)
  }

  function KeyOf(e: Event): string {
    e.tenantId + "|" + OrEmpty(e.srcIp) + "|" + OrEmpty(e.dstIp) + "|" + OrEmpty(e.protocol) + "|" + PortText(e.dstPort)
  }

  predicate HasBothIps(e: Event) { Has(e.srcIp) && Has(e.dstIp) }

  function ByTime(): Event -> int { (e: Event) => e.time }
  function ByKey(): Event -> string { (e: Event) => KeyOf(e) }
  function BytesOut(): Event -> int { (e: Event) => e.bytesOut }
  function BytesIn(): Event -> int { (e: Event) => e.bytesIn }
  function One(): Event -> int { (e: Event) => 1 }

  function Names(events: seq<Event>, category: string): set<string> {
    set e | e in events && Has(e.domain) && e.category == category :: e.domain.value
  }

  function Refs(events: seq<Event>, source: string): seq<string> {
    if events == [] then []
    else Refs(events[..|events|-1], source) + if events[|events|-1].sourceType == source then [events[|events|-1].id] else []
  }

  function SessionOf(key: string, items: seq<Event>): Session
    requires items != []
  {
    var group := SortBy(items, ByTime());
    SortSpec(items, ByTime());
    var first, last := group[0], group[|group|-1];
    var duration := (last.time - first.time) / 1000;
    Session(
      key, first.tenantId, OrEmpty(first.srcIp), OrEmpty(first.dstIp), OrEmpty(first.protocol),
      first.time, last.time, if duration > 0 then duration else 0,
      Sum(group, BytesOut()), Sum(group, BytesIn()), |group|,
      Names(group, "dns"), Names(group, "tls"), set e | e in group && Has(e.url) :: e.url.value,
      Refs(group, "zeek"), Refs(group, "suricata"),
      if exists e :: e in group && e.category == "alert" then 80 else 10)
  }

  function Relevant(events: seq<Event>): seq<Event> { Filter(events, HasBothIps) }

  predicate NoneEmpty(groups: seq<Group<Event>>) {
    forall i :: 0 <= i < |groups| ==> groups[i].items != []
  }

  function SessionFor(g: Group<Event>): Session
    requires g.items != []
  {
    SessionOf(g.key, g.items)
  }

  function SessionsOf(groups: seq<Group<Event>>): seq<Session>
    requires NoneEmpty(groups)
  {
    seq(|groups|, i requires 0 <= i < |groups| => SessionFor(groups[i]))
  }

  function SessionsFromEvents(events: seq<Event>): seq<Session> {
    AllNotEmpty(Relevant(events), ByKey());
    SessionsOf(GroupBy(Relevant(events), ByKey()))
  }

  method FillBuckets(events: seq<Event>) returns (buckets: seq<Group<Event>>)
    ensures buckets == GroupBy(Relevant(events), ByKey())
  {
    buckets := [];
    var i := 0;
    while i < |events|
      invariant 0 <= i <= |events|
      invariant buckets == GroupBy(Relevant(events[..i]), ByKey())
    {
      var event := events[i];
      RelevantGrows(events, i);
      i := i + 1;
      if !Has(event.srcIp) || !Has(event.dstIp) {
        continue;
      }
      buckets := AddTo(buckets, KeyOf(event), event);
    }
    assert events[..i] == events;
  }

  lemma RelevantGrows(events: seq<Event>, i: nat)
    requires i < |events|
    ensures var before, after := Relevant(events[..i]), Relevant(events[..i+1]);
      if HasBothIps(events[i]) then GroupBy(after, ByKey()) == AddTo(GroupBy(before, ByKey()), KeyOf(events[i]), events[i])
      else after == before
  {
    assert events[..i+1] == events[..i] + [events[i]];
    FilterAppend(events[..i], [events[i]], HasBothIps);
    var before := Relevant(events[..i]);
    assert (before + [events[i]])[..|before|] == before;
  }

  method Summarise(buckets: seq<Group<Event>>) returns (sessions: seq<Session>)
    requires NoneEmpty(buckets)
    ensures sessions == SessionsOf(buckets)
  {
    sessions := [];
    var j := 0;
    while j < |buckets|
      invariant 0 <= j <= |buckets|
      invariant |sessions| == j && forall i :: 0 <= i < j ==> sessions[i] == SessionFor(buckets[i])
    {
      sessions := sessions + [SessionFor(buckets[j])];
      j := j + 1;
    }
  }

  method BuildSessions(events: seq<Event>) returns (sessions: seq<Session>)
    ensures sessions == SessionsFromEvents(events)
  {
    AllNotEmpty(Relevant(events), ByKey());
    var buckets := FillBuckets(events);
    sessions := Summarise(buckets);
  }

  // ---------- what the sessions say ----------

  /** The events of a session: those with both addresses and its key. */
  function Members(events: seq<Event>, key: string): seq<Event> {
    Filter(Relevant(events), Having(ByKey(), key))
  }

  lemma SessionShape(events: seq<Event>, i: nat)
    requires i < |SessionsFromEvents(events)|
    ensures var s := SessionsFromEvents(events)[i];
      Members(events, s.key) != [] && s == SessionOf(s.key, Members(events, s.key))
  {
    var groups := GroupBy(Relevant(events), ByKey());
    AllNotEmpty(Relevant(events), ByKey());
    GroupsPartition(Relevant(events), ByKey());
  }

  /** Each event with both addresses is in exactly one session: there is one with its key, session keys
      are distinct, and a session counts as packets exactly the events with its key. */
  lemma SessionsPartitionEvents(events: seq<Event>)
    ensures var ss := SessionsFromEvents(events);
      && (forall i, j :: 0 <= i < j < |ss| ==> ss[i].key != ss[j].key)
      && (forall e :: e in events && HasBothIps(e) ==> exists i :: 0 <= i < |ss| && ss[i].key == KeyOf(e))
      && (forall i :: 0 <= i < |ss| ==> ss[i].packets == |Members(events, ss[i].key)| > 0)
  {
    var ss, relevant := SessionsFromEvents(events), Relevant(events);
    var groups := GroupBy(relevant, ByKey());
    AllNotEmpty(relevant, ByKey());
    GroupsPartition(relevant, ByKey());
    forall e | e in events && HasBothIps(e) ensures exists i :: 0 <= i < |ss| && ss[i].key == KeyOf(e) {
      FilterMembers(events, HasBothIps);
      assert e in relevant;
      var k :| 0 <= k < |relevant| && relevant[k] == e;
      assert HasKey(groups, ByKey()(relevant[k]));
      var i :| 0 <= i < |groups| && groups[i].key == KeyOf(e);
      assert ss[i].key == KeyOf(e);
    }
    forall i | 0 <= i < |ss| ensures ss[i].packets == |Members(events, ss[i].key)| > 0 {
      SessionShape(events, i);
      SortSpec(Members(events, ss[i].key), ByTime());
    }
  }

  lemma MemberFacts(events: seq<Event>, key: string, e: Event)
    ensures e in Members(events, key) <==> e in events && HasBothIps(e) && KeyOf(e) == key
  {
    FilterMembers(events, HasBothIps);
    FilterMembers(Relevant(events), Having(ByKey(), key));
  }

  /** A session starts at the least and ends at the greatest time of its events, and lasts that long. */
  lemma SessionSpan(events: seq<Event>, i: nat)
    requires i < |SessionsFromEvents(events)|
    ensures var s := SessionsFromEvents(events)[i];
      && (forall e :: e in events && HasBothIps(e) && KeyOf(e) == s.key ==> s.start <= e.time <= s.end)
      && (exists e :: e in events && HasBothIps(e) && KeyOf(e) == s.key && e.time == s.start)
      && (exists e :: e in events && HasBothIps(e) && KeyOf(e) == s.key && e.time == s.end)
      && s.durationMs == (s.end - s.start) / 1000
  {
    SessionShape(events, i);
    var s := SessionsFromEvents(events)[i];
    var items := Members(events, s.key);
    var group := SortBy(items, ByTime());
    SortEnds(items, ByTime());
    var first, last := group[0], group[|group|-1];
    MemberFacts(events, s.key, first);
    MemberFacts(events, s.key, last);
    forall e | e in events && HasBothIps(e) && KeyOf(e) == s.key ensures s.start <= e.time <= s.end {
      MemberFacts(events, s.key, e);
      assert ByTime()(first) <= ByTime()(e) <= ByTime()(last);
    }
    assert ByTime()(first) <= ByTime()(last);
  }

  // ---------- conservation ----------

  function TotalOut(ss: seq<Session>): int { if ss == [] then 0 else TotalOut(ss[..|ss|-1]) + ss[|ss|-1].bytesOut }
  function TotalIn(ss: seq<Session>): int { if ss == [] then 0 else TotalIn(ss[..|ss|-1]) + ss[|ss|-1].bytesIn }
  function TotalPackets(ss: seq<Session>): int { if ss == [] then 0 else TotalPackets(ss[..|ss|-1]) + ss[|ss|-1].packets }

  lemma {:induction false} SumGroupsAppend(groups: seq<Group<Event>>, g: Group<Event>, weight: Event -> int)
    ensures SumGroups(groups + [g], weight) == SumGroups(groups, weight) + Sum(g.items, weight)
  {
    if groups == [] {
      assert ([g])[1..] == [];
    } else {
      SumGroupsAppend(groups[1..], g, weight);
      assert (groups + [g])[1..] == groups[1..] + [g];
    }
  }

  lemma {:induction false} OnesCount(events: seq<Event>)
    ensures Sum(events, One()) == |events|
  {
    if events != [] { OnesCount(events[..|events|-1]); }
  }

  lemma {:induction false} TotalsAreGroupSums(groups: seq<Group<Event>>)
    requires NoneEmpty(groups)
    ensures var ss := SessionsOf(groups);
      TotalOut(ss) == SumGroups(groups, BytesOut()) && TotalIn(ss) == SumGroups(groups, BytesIn()) && TotalPackets(ss) == SumGroups(groups, One())
  {
    if groups != [] {
      var init, g := groups[..|groups|-1], groups[|groups|-1];
      TotalsAreGroupSums(init);
      assert groups == init + [g];
      SumGroupsAppend(init, g, BytesOut());
      SumGroupsAppend(init, g, BytesIn());
      SumGroupsAppend(init, g, One());
      var sorted := SortBy(g.items, ByTime());
      SortSpec(g.items, ByTime());
      SumPermutes(sorted, g.items, BytesOut());
      SumPermutes(sorted, g.items, BytesIn());
      OnesCount(g.items);
      var ss := SessionsOf(groups);
      assert ss[..|ss|-1] == SessionsOf(init) && ss[|ss|-1] == SessionFor(g);
    }
  }

  /** Bytes out, bytes in and packets added up over the sessions are those of the events with both
      addresses: nothing is counted twice or lost. */
  lemma SessionsConserveTraffic(events: seq<Event>)
    ensures var ss := SessionsFromEvents(events);
      && TotalOut(ss) == Sum(Relevant(events), BytesOut())
      && TotalIn(ss) == Sum(Relevant(events), BytesIn())
      && TotalPackets(ss) == |Relevant(events)|
  {
    var relevant := Relevant(events);
    AllNotEmpty(relevant, ByKey());
    TotalsAreGroupSums(GroupBy(relevant, ByKey()));
    GroupingConserves(relevant, ByKey(), BytesOut());
    GroupingConserves(relevant, ByKey(), BytesIn());
    GroupingConserves(relevant, ByKey(), One());
    OnesCount(relevant);
  }

  // ---------- what shares a session ----------

  predicate SameConversation(e: Event, f: Event) {
    && e.tenantId == f.tenantId && OrEmpty(e.srcIp) == OrEmpty(f.srcIp) && OrEmpty(e.dstIp) == OrEmpty(f.dstIp)
    && OrEmpty(e.protocol) == OrEmpty(f.protocol) && PortText(e.dstPort) == PortText(f.dstPort)
  }

  /** What a caller can check of one event: no bar in tenant and protocol, and none in an address unless
      the address is nothing but a bar. */
  predicate Separable(e: Event) {
    && Free(e.tenantId, '|') && Free(OrEmpty(e.protocol), '|')
    && (Free(OrEmpty(e.srcIp), '|') || OrEmpty(e.srcIp) == "|")
    && (Free(OrEmpty(e.dstIp), '|') || OrEmpty(e.dstIp) == "|")
  }

  /** Tenants that the event schema lets through. */
  predicate Receivable(e: Event) { "ten_" <= e.tenantId }

  lemma {:induction false} DigitsFree(n: nat)
    ensures Free(Digits(n), '|')
  {
    if n >= 10 { DigitsFree(n / 10); }
  }

  lemma PortFree(p: Option<int>)
    ensures Free(PortText(p), '|')
  {
    if p.Some? { DigitsFree(if p.value < 0 then -p.value else p.value); }
  }

  function P(s: string): (ps: seq<string>)
    ensures ps != []
  {
    Pieces(s, '|')
  }

  lemma KeyPieces(e: Event)
    ensures P(KeyOf(e)) == P(e.tenantId) + P(OrEmpty(e.srcIp)) + P(OrEmpty(e.dstIp)) + P(OrEmpty(e.protocol)) + [PortText(e.dstPort)]
  {
    var t, s, d, p, o := e.tenantId, OrEmpty(e.srcIp), OrEmpty(e.dstIp), OrEmpty(e.protocol), PortText(e.dstPort);
    PiecesJoin(t, s, '|');
    PiecesJoin(t + "|" + s, d, '|');
    PiecesJoin(t + "|" + s + "|" + d, p, '|');
    PiecesJoin(t + "|" + s + "|" + d + "|" + p, o, '|');
    PortFree(e.dstPort);
    FreePieces(o, '|');
  }

  lemma NotBlank(s: string)
    requires s != ""
    ensures P(s) != [""]
  {
    if P(s) == [""] { SamePieces(s, "", '|'); }
  }

  /** Pieces of an address that is separable. */
  ghost predicate AddressPieces(ps: seq<string>) { (|ps| == 1 && ps != [""]) || ps == ["", ""] }

  lemma SeparableAddress(s: string)
    requires s != "" && (Free(s, '|') || s == "|")
    ensures AddressPieces(P(s))
  {
    NotBlank(s);
    FreePieces(s, '|');
    if s == "|" {
      assert s[1..] == "";
      assert P("") == [""];
    }
  }

  /** The positions of the pieces of the addresses that are nothing but a bar. */
  predicate Blank(i: nat, s: nat, d: nat) { (s == 2 && (i == 1 || i == 2)) || (d == 2 && (i == 1 + s || i == 2 + s)) }

  lemma CutLengths(t: nat, s: nat, d: nat, p: nat, s0: nat, d0: nat)
    requires 1 <= s0 <= 2 && 1 <= d0 <= 2 && t + s + d + p == 2 + s0 + d0
    requires t > 0 && s > 0 && d > 0 && p > 0
    requires s == 1 ==> !Blank(t, s0, d0)
    requires d == 1 ==> !Blank(t + s, s0, d0)
    ensures t == 1 && s == s0 && d == d0 && p == 1
  {
  }

  /** The fields of a separable event cannot be cut another way without leaving an address blank. */
  lemma CutOneWay(all: seq<string>, t: string, s: seq<string>, d: seq<string>, p: string, o: string,
                  t': seq<string>, s': seq<string>, d': seq<string>, p': seq<string>, o': string)
    requires all == [t] + s + d + [p] + [o] && all == t' + s' + d' + p' + [o']
    requires AddressPieces(s) && AddressPieces(d)
    requires t' != [] && s' != [] && d' != [] && p' != [] && s' != [""] && d' != [""]
    ensures t' == [t] && s' == s && d' == d && p' == [p] && o' == o
  {
    Slices([t], s, d, [p], o);
    Slices(t', s', d', p', o');
    assert |t'| + |s'| + |d'| + |p'| == 2 + |s| + |d|;
    forall i: nat | Blank(i, |s|, |d|) ensures i < |all| && all[i] == "" {
      if i == 1 || i == 2 { assert |s| == 2 ==> all[i] == s[i-1]; }
      if |d| == 2 && i > |s| { assert all[i] == d[i-1-|s|]; }
    }
    assert |s'| == 1 ==> s' == [all[|t'|]];
    assert |d'| == 1 ==> d' == [all[|t'|+|s'|]];
    CutLengths(|t'|, |s'|, |d'|, |p'|, |s|, |d|);
  }

  lemma Slices(t: seq<string>, s: seq<string>, d: seq<string>, p: seq<string>, o: string)
    ensures var all := t + s + d + p + [o];
      var i, j, k := |t|, |t| + |s|, |t| + |s| + |d|;
      && all[..i] == t && all[i..j] == s && all[j..k] == d && all[k..k+|p|] == p && all[k+|p|..] == [o]
  {
    var all := t + s + d + p + [o];
    assert all == t + (s + d + p + [o]) && all == t + s + (d + p + [o]) && all == t + s + d + (p + [o]);
  }

  lemma SeparableTells(e: Event, f: Event)
    requires HasBothIps(e) && HasBothIps(f) && Separable(e) && KeyOf(f) == KeyOf(e)
    ensures SameConversation(e, f)
  {
    KeyPieces(e);
    KeyPieces(f);
    FreePieces(e.tenantId, '|');
    FreePieces(OrEmpty(e.protocol), '|');
    SeparableAddress(OrEmpty(e.srcIp));
    SeparableAddress(OrEmpty(e.dstIp));
    NotBlank(OrEmpty(f.srcIp));
    NotBlank(OrEmpty(f.dstIp));
    CutOneWay(P(KeyOf(e)), e.tenantId, P(OrEmpty(e.srcIp)), P(OrEmpty(e.dstIp)), OrEmpty(e.protocol), PortText(e.dstPort),
      P(f.tenantId), P(OrEmpty(f.srcIp)), P(OrEmpty(f.dstIp)), P(OrEmpty(f.protocol)), PortText(f.dstPort));
    SamePieces(f.tenantId, e.tenantId, '|');
    SamePieces(OrEmpty(f.srcIp), OrEmpty(e.srcIp), '|');
    SamePieces(OrEmpty(f.dstIp), OrEmpty(e.dstIp), '|');
    SamePieces(OrEmpty(f.protocol), OrEmpty(e.protocol), '|');
  }

  /** The event is receivable if `e` is, and shares the session of `e` without being of its conversation. */
  ghost predicate Merges(e: Event, f: Event) {
    HasBothIps(f) && KeyOf(f) == KeyOf(e) && !SameConversation(e, f) && (Receivable(e) ==> Receivable(f))
  }

  lemma TenantMerges(e: Event) returns (f: Event)
    requires HasBothIps(e) && !Free(e.tenantId, '|')
    ensures Merges(e, f)
  {
    var a, b := SplitAtFirst(e.tenantId, '|');
    f := e.(tenantId := a, srcIp := Some(b + "|" + e.srcIp.value));
    assert KeyOf(f) == KeyOf(e);
    assert |a| < |e.tenantId|;
    if Receivable(e) { FrontIsReceivable(a, b); }
  }

  lemma FrontIsReceivable(a: string, b: string)
    requires "ten_" <= a + "|" + b
    ensures "ten_" <= a
  {
    var t := a + "|" + b;
    assert t[|a|] == '|';
    assert t[0] == 't' && t[1] == 'e' && t[2] == 'n' && t[3] == '_';
    assert a == t[..|a|];
  }

  lemma ProtocolMerges(e: Event) returns (f: Event)
    requires HasBothIps(e) && !Free(OrEmpty(e.protocol), '|')
    ensures Merges(e, f)
  {
    var a, b := SplitAtFirst(e.protocol.value, '|');
    f := e.(dstIp := Some(e.dstIp.value + "|" + a), protocol := Some(b));
    assert KeyOf(f) == KeyOf(e);
  }

  lemma SourceMerges(e: Event) returns (f: Event)
    requires HasBothIps(e) && !Free(e.srcIp.value, '|') && e.srcIp.value != "|"
    ensures Merges(e, f)
  {
    var a, b := SplitAtFirst(e.srcIp.value, '|');
    if b != "" {
      f := e.(tenantId := e.tenantId + "|" + a, srcIp := Some(b));
      assert |f.tenantId| > |e.tenantId|;
    } else {
      f := e.(srcIp := Some(a), dstIp := Some("|" + e.dstIp.value));
      assert |f.dstIp.value| > |e.dstIp.value|;
    }
    assert KeyOf(f) == KeyOf(e);
  }

  lemma DestinationMerges(e: Event) returns (f: Event)
    requires HasBothIps(e) && !Free(e.dstIp.value, '|') && e.dstIp.value != "|"
    ensures Merges(e, f)
  {
    var a, b := SplitAtFirst(e.dstIp.value, '|');
    if a != "" {
      f := e.(dstIp := Some(a), protocol := Some(b + "|" + OrEmpty(e.protocol)));
      assert |f.dstIp.value| < |e.dstIp.value|;
    } else {
      f := e.(srcIp := Some(e.srcIp.value + "|"), dstIp := Some(b));
      assert |f.srcIp.value| > |e.srcIp.value|;
    }
    assert KeyOf(f) == KeyOf(e);
  }

  lemma InseparableMerges(e: Event) returns (f: Event)
    requires HasBothIps(e) && !Separable(e)
    ensures Merges(e, f)
  {
    if !Free(e.tenantId, '|') { f := TenantMerges(e); }
    else if !Free(OrEmpty(e.protocol), '|') { f := ProtocolMerges(e); }
    else if !Free(e.srcIp.value, '|') && e.srcIp.value != "|" { f := SourceMerges(e); }
    else { f := DestinationMerges(e); }
  }

  /** An event shares its session with no event of another conversation if and only if it is separable;
      a missing port and port zero are the same. */
  lemma SharesOnlyItsConversationIff(e: Event)
    requires HasBothIps(e)
    ensures (forall f {:trigger SameConversation(e, f)} :: HasBothIps(f) && KeyOf(f) == KeyOf(e) ==> SameConversation(e, f))
            <==> Separable(e)
  {
    if Separable(e) {
      forall f | HasBothIps(f) && KeyOf(f) == KeyOf(e) ensures SameConversation(e, f) { SeparableTells(e, f); }
    } else {
      var f := InseparableMerges(e);
    }
  }

  /** Fields with a bar in them can merge two conversations: here the addresses differ. */
  lemma BarsMergeConversations() returns (e: Event, f: Event)
    ensures Receivable(e) && Receivable(f) && HasBothIps(e) && HasBothIps(f)
    ensures KeyOf(e) == KeyOf(f) && !SameConversation(e, f)
  {
    e := Event("1", "ten_a", 0, Some("a|b"), Some("c"), None, None, 0, 0, "", "", None, None);
    f := e.(id := "2", srcIp := Some("a"), dstIp := Some("b|c"));
    assert KeyOf(e) == "ten_a|a|b|c||" && KeyOf(f) == "ten_a|a|b|c||";
  }
}
