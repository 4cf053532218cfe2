/** What a session says, told from the events between its two addresses, and the order of sessions. */
module SessionContents {
  import opened Common
  import opened Sorting
  import opened Grouping
  import opened Sessions

  predicate Given(text: Option<string>) { text.Some? && |text.value| > 0 }

  function TextOr(text: Option<string>): string { match text case None => "" case Some(t) => t }

  /** The event has both addresses, and its tenant, addresses, protocol and port, joined with bars, are the key; no
      port and port zero leave the last field empty. */
  predicate Belongs(e: Event, key: string) {
    && Given(e.srcIp) && Given(e.dstIp)
    && key == e.tenantId + "|" + e.srcIp.value + "|" + e.dstIp.value + "|" + TextOr(e.protocol) + "|"
              + match e.dstPort case None => "" case Some(n) => if n == 0 then "" else Number(n)
  }

  /** The events of a session, in order. */
  function Own(events: seq<Event>, key: string): seq<Event> {
    if events == [] then []
    else (if Belongs(events[0], key) then [events[0]] else []) + Own(events[1..], key)
  }

  lemma {:induction false} OwnAreMembers(events: seq<Event>, key: string)
    ensures Own(events, key) == Members(events, key)
  {
    if events != [] {
      OwnAreMembers(events[1..], key);
      var relevant := Relevant(events[1..]);
      assert ([events[0]] + relevant)[1..] == relevant;
    }
  }

  function TimeIs(v: int): Event -> bool { (e: Event) => e.time == v }

  /** The same events in time order, those of equal times as they were. */
  ghost predicate InTimeOrder(group: seq<Event>, own: seq<Event>) {
    && multiset(group) == multiset(own) && |group| == |own|
    && (forall i, j :: 0 <= i < j < |group| ==> group[i].time <= group[j].time)
    && forall v :: Filter(group, TimeIs(v)) == Filter(own, TimeIs(v))
  }

  /** The ids of the events from one source. */
  function From(group: seq<Event>, source: string): seq<string> {
    if group == [] then [] else (if group[0].sourceType == source then [group[0].id] else []) + From(group[1..], source)
  }

  function SumOut(group: seq<Event>): int { if group == [] then 0 else group[0].bytesOut + SumOut(group[1..]) }

  function SumIn(group: seq<Event>): int { if group == [] then 0 else group[0].bytesIn + SumIn(group[1..]) }

  ghost predicate Domains(names: set<string>, own: seq<Event>, category: string) {
    forall d :: d in names <==> d != "" && exists e :: e in own && e.category == category && e.domain == Some(d)
  }

  ghost predicate Urls(names: set<string>, own: seq<Event>) {
    forall u :: u in names <==> u != "" && exists e :: e in own && e.url == Some(u)
  }

  /** The session read off its events in time order: the first and the last. */
  ghost predicate HasEnds(s: Session, group: seq<Event>) {
    && group != []
    && s.tenantId == group[0].tenantId && Some(s.src) == group[0].srcIp && Some(s.dst) == group[0].dstIp
    && s.protocol == TextOr(group[0].protocol)
    && s.start == group[0].time && s.end == group[|group|-1].time && s.durationMs == (s.end - s.start) / 1000
  }

  /** And all of them. */
  ghost predicate HasTotals(s: Session, group: seq<Event>) {
    && s.bytesOut == SumOut(group) && s.bytesIn == SumIn(group) && s.packets == |group|
    && Domains(s.dns, group, "dns") && Domains(s.tls, group, "tls") && Urls(s.http, group)
    && s.zeekRefs == From(group, "zeek") && s.suricataRefs == From(group, "suricata")
    && (s.risk == 80 || s.risk == 10) && (s.risk == 80 <==> exists e :: e in group && e.category == "alert")
  }

  ghost predicate ReadOff(s: Session, group: seq<Event>) { HasEnds(s, group) && HasTotals(s, group) }

  lemma {:induction false} SumsMore(group: seq<Event>, e: Event)
    ensures SumOut(group + [e]) == SumOut(group) + e.bytesOut && SumIn(group + [e]) == SumIn(group) + e.bytesIn
  {
    if group == [] { assert [e][1..] == []; }
    else {
      SumsMore(group[1..], e);
      assert (group + [e])[1..] == group[1..] + [e];
    }
  }

  lemma {:induction false} FromMore(group: seq<Event>, e: Event, source: string)
    ensures From(group + [e], source) == From(group, source) + if e.sourceType == source then [e.id] else []
  {
    if group == [] { assert [e][1..] == []; }
    else {
      FromMore(group[1..], e, source);
      assert (group + [e])[1..] == group[1..] + [e];
    }
  }

  lemma {:induction false} SumsAgree(group: seq<Event>)
    ensures Sum(group, BytesOut()) == SumOut(group) && Sum(group, BytesIn()) == SumIn(group)
  {
    if group != [] {
      var init, e := group[..|group|-1], group[|group|-1];
      SumsAgree(init);
      SumsMore(init, e);
      assert group == init + [e];
    }
  }

  lemma {:induction false} RefsAgree(group: seq<Event>, source: string)
    ensures Refs(group, source) == From(group, source)
  {
    if group != [] {
      var init, e := group[..|group|-1], group[|group|-1];
      RefsAgree(init, source);
      FromMore(init, e, source);
      assert group == init + [e];
    }
  }

  lemma NamesAgree(group: seq<Event>, category: string)
    ensures Domains(Sessions.Names(group, category), group, category)
  {
    forall d ensures d in Sessions.Names(group, category) <==> d != "" && exists e :: e in group && e.category == category && e.domain == Some(d) {
    }
  }

  lemma SessionIsReadOff(key: string, own: seq<Event>)
    requires own != [] && forall e :: e in own ==> Belongs(e, key)
    ensures ReadOff(SessionOf(key, own), SortBy(own, ByTime()))
  {
    EndsAreReadOff(key, own);
    TotalsAreReadOff(key, own);
  }

  lemma EndsAreReadOff(key: string, own: seq<Event>)
    requires own != [] && forall e :: e in own ==> Belongs(e, key)
    ensures HasEnds(SessionOf(key, own), SortBy(own, ByTime()))
  {
    var group := SortBy(own, ByTime());
    SortSpec(own, ByTime());
    SortMembers(own, ByTime());
    assert group[0] in own;
    assert ByTime()(group[0]) <= ByTime()(group[|group|-1]);
  }

  lemma TotalsAreReadOff(key: string, own: seq<Event>)
    requires own != []
    ensures HasTotals(SessionOf(key, own), SortBy(own, ByTime()))
  {
    var group := SortBy(own, ByTime());
    SumsAgree(group);
    RefsAgree(group, "zeek");
    RefsAgree(group, "suricata");
    NamesAgree(group, "dns");
    NamesAgree(group, "tls");
  }

  lemma {:induction false} OwnBelong(events: seq<Event>, key: string)
    ensures forall e :: e in Own(events, key) ==> Belongs(e, key)
  {
    if events != [] { OwnBelong(events[1..], key); }
  }

  lemma TimeOrdered(own: seq<Event>)
    ensures InTimeOrder(SortBy(own, ByTime()), own)
  {
    var group := SortBy(own, ByTime());
    SortSpec(own, ByTime());
    forall i, j | 0 <= i < j < |group| ensures group[i].time <= group[j].time { assert ByTime()(group[i]) <= ByTime()(group[j]); }
    forall v ensures Filter(group, TimeIs(v)) == Filter(own, TimeIs(v)) { SortStable(own, ByTime(), TimeIs(v), v); }
  }

  /** A session is read off its events, those that belong to its key, taken in time order: ends from the first of them,
      names, references and risk from all. */
  lemma SessionTellsItsEvents(events: seq<Event>, i: nat) returns (group: seq<Event>)
    requires i < |SessionsFromEvents(events)|
    ensures var s := SessionsFromEvents(events)[i];
      InTimeOrder(group, Own(events, s.key)) && ReadOff(s, group)
  {
    var s := SessionsFromEvents(events)[i];
    SessionShape(events, i);
    OwnAreMembers(events, s.key);
    OwnBelong(events, s.key);
    var own := Own(events, s.key);
    group := SortBy(own, ByTime());
    TimeOrdered(own);
    SessionIsReadOff(s.key, own);
  }

  /** Sessions come in the order in which their first events are listed. */
  lemma SessionsInOrder(events: seq<Event>) returns (ps: seq<nat>)
    ensures var ss, relevant := SessionsFromEvents(events), Relevant(events);
      && Ascends(ps) && |ps| == |ss|
      && forall i :: 0 <= i < |ps| ==> FirstAt(relevant, ByKey(), ss[i].key, ps[i])
  {
    ps := GroupsInFirstSeenOrder(Relevant(events), ByKey());
  }
}
