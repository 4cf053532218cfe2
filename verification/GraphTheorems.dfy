/**
 The entities and relations under one tenant are exactly what was observed, whatever the order of events.
 */
module GraphTheorems {
  import opened Common
  import opened Graph

  // ---------- entities ----------

  ghost predicate From(e: Event, ss: seq<Sighting>) {
    forall k :: 0 <= k < |ss| ==> ss[k].eventId == e.id && ss[k].time == e.time
  }

  lemma SightingsComeFromTheirEvent(t: string, e: Event)
    ensures From(e, Sightings(t, e))
  {
    var actors, src, dst := SeeActors(t, e), SeeIp(t, e, e.srcIp, "src"), SeeIp(t, e, e.dstIp, "dst");
    FromConcat(e, SeeUser(t, e), SeeHost(t, e));
    FromConcat(e, SeeUser(t, e) + SeeHost(t, e), SeeProcess(t, e));
    FromConcat(e, SeeDomain(t, e), SeeCloud(t, e));
    FromConcat(e, actors, src);
    FromConcat(e, actors + src, dst);
    FromConcat(e, actors + src + dst, SeeResources(t, e));
    FromConcat(e, actors + src + dst + SeeResources(t, e), SeeParent(t, e));
  }

  lemma FromConcat(e: Event, a: seq<Sighting>, b: seq<Sighting>)
    requires From(e, a) && From(e, b)
    ensures From(e, a + b)
  {
  }

  /** What it is for an event to mention an entity, kind by kind: keys are compared without regard to
      case, and a parent process counts only beside a process. */
  predicate NamedBy(t: string, e: Event, id: EntityId) {
    id.tenantId == t &&
    match id.kind
    case UserEntity => HasUser(e) && id.key == Lower(e.user.value.name.value)
    case HostEntity => HasHost(e) && id.key == Lower(if Has(e.host.value.id) then e.host.value.id.value else e.host.value.name.value)
    case ProcessEntity => HasProcess(e) && (id.key == Lower(ProcessKey(e.process.value)) || (HasParent(e) && id.key == Lower(ProcessKey(e.parent.value))))
    case IpEntity => (Has(e.srcIp) && id.key == Lower(e.srcIp.value)) || (Has(e.dstIp) && id.key == Lower(e.dstIp.value))
    case DomainEntity => Has(e.domain) && id.key == Lower(e.domain.value)
    case CloudEntity => HasCloud(e) && id.key == Lower(if Has(e.cloud.value.resourceId) then e.cloud.value.resourceId.value else e.cloud.value.accountId.value)
  }

  ghost predicate Sees(ss: seq<Sighting>, id: EntityId) {
    exists k :: 0 <= k < |ss| && ss[k].entity == id
  }

  lemma SeesConcat(a: seq<Sighting>, b: seq<Sighting>, id: EntityId)
    ensures Sees(a + b, id) <==> Sees(a, id) || Sees(b, id)
  {
    if k :| 0 <= k < |a| && a[k].entity == id { assert (a + b)[k].entity == id; }
    if k :| 0 <= k < |b| && b[k].entity == id { assert (a + b)[|a|+k].entity == id; }
  }

  lemma SeesAtMostOne(ss: seq<Sighting>, id: EntityId)
    requires |ss| <= 1
    ensures Sees(ss, id) <==> ss != [] && ss[0].entity == id
  {
  }

  lemma ActorsNamed(t: string, e: Event, id: EntityId)
    ensures Sees(SeeActors(t, e), id) <==>
      || (HasUser(e) && id == UserId(t, e)) || (HasHost(e) && id == HostId(t, e)) || (HasProcess(e) && id == ProcId(t, e))
  {
    SeesConcat(SeeUser(t, e) + SeeHost(t, e), SeeProcess(t, e), id);
    SeesConcat(SeeUser(t, e), SeeHost(t, e), id);
    SeesAtMostOne(SeeUser(t, e), id);
    SeesAtMostOne(SeeHost(t, e), id);
    SeesAtMostOne(SeeProcess(t, e), id);
  }

  lemma OthersNamed(t: string, e: Event, id: EntityId)
    ensures Sees(SeeIp(t, e, e.srcIp, "src"), id) <==> Has(e.srcIp) && id == IpId(t, e.srcIp.value)
    ensures Sees(SeeIp(t, e, e.dstIp, "dst"), id) <==> Has(e.dstIp) && id == IpId(t, e.dstIp.value)
    ensures Sees(SeeResources(t, e), id) <==> (Has(e.domain) && id == DomainId(t, e)) || (HasCloud(e) && id == IdOf(t, CloudEntity, CloudKey(e)))
    ensures Sees(SeeParent(t, e), id) <==> HasProcess(e) && HasParent(e) && id == ParentId(t, e)
  {
    SeesConcat(SeeDomain(t, e), SeeCloud(t, e), id);
    SeesAtMostOne(SeeIp(t, e, e.srcIp, "src"), id);
    SeesAtMostOne(SeeIp(t, e, e.dstIp, "dst"), id);
    SeesAtMostOne(SeeDomain(t, e), id);
    SeesAtMostOne(SeeCloud(t, e), id);
    SeesAtMostOne(SeeParent(t, e), id);
  }

  lemma SightingsSee(t: string, e: Event, id: EntityId)
    ensures Sees(Sightings(t, e), id) <==>
      || Sees(SeeActors(t, e), id) || Sees(SeeIp(t, e, e.srcIp, "src"), id) || Sees(SeeIp(t, e, e.dstIp, "dst"), id)
      || Sees(SeeResources(t, e), id) || Sees(SeeParent(t, e), id)
  {
    var a, s, d, r := SeeActors(t, e), SeeIp(t, e, e.srcIp, "src"), SeeIp(t, e, e.dstIp, "dst"), SeeResources(t, e);
    SeesConcat(a + s + d + r, SeeParent(t, e), id);
    SeesConcat(a + s + d, r, id);
    SeesConcat(a + s, d, id);
    SeesConcat(a, s, id);
  }

  lemma MentionsIffSees(t: string, e: Event, id: EntityId)
    ensures Mentions(t, e, id) <==> Sees(Sightings(t, e), id)
  {
    var ss := Sightings(t, e);
    if Mentions(t, e, id) {
      var x :| x in ss && x.entity == id;
      var k :| 0 <= k < |ss| && ss[k] == x;
    }
    if k :| 0 <= k < |ss| && ss[k].entity == id { assert ss[k] in ss; }
  }

  predicate IsOneOf(t: string, e: Event, id: EntityId) {
    || (HasUser(e) && id == UserId(t, e)) || (HasHost(e) && id == HostId(t, e)) || (HasProcess(e) && id == ProcId(t, e))
    || (Has(e.srcIp) && id == IpId(t, e.srcIp.value)) || (Has(e.dstIp) && id == IpId(t, e.dstIp.value))
    || (Has(e.domain) && id == DomainId(t, e)) || (HasCloud(e) && id == IdOf(t, CloudEntity, CloudKey(e)))
    || (HasProcess(e) && HasParent(e) && id == ParentId(t, e))
  }

  lemma SeenIsOneOf(t: string, e: Event, id: EntityId)
    ensures Sees(Sightings(t, e), id) <==> IsOneOf(t, e, id)
  {
    SightingsSee(t, e, id);
    ActorsNamed(t, e, id);
    OthersNamed(t, e, id);
  }

  lemma OneOfIsNamed(t: string, e: Event, id: EntityId)
    ensures IsOneOf(t, e, id) <==> NamedBy(t, e, id)
  {
    match id.kind {
      case UserEntity =>
      case HostEntity =>
      case ProcessEntity =>
      case IpEntity =>
      case DomainEntity =>
      case CloudEntity =>
    }
  }

  /** The upserts an event makes are exactly for the entities it names. */
  lemma MentionsIffNamed(t: string, e: Event, id: EntityId)
    ensures Mentions(t, e, id) <==> NamedBy(t, e, id)
  {
    MentionsIffSees(t, e, id);
    SeenIsOneOf(t, e, id);
    OneOfIsNamed(t, e, id);
  }

  lemma SightingFromEvent(t: string, events: seq<Event>, s: Sighting) returns (e: Event)
    requires s in AllSightings(t, events)
    ensures e in events && s in Sightings(t, e) && Mentions(t, e, s.entity) && e.id == s.eventId && e.time == s.time
  {
    FlatMapMembers(events, SightingsIn(t), s);
    var i :| 0 <= i < |events| && s in SightingsIn(t)(events[i]);
    e := events[i];
    SightingsComeFromTheirEvent(t, e);
  }

  lemma EventGivesSighting(t: string, events: seq<Event>, e: Event, id: EntityId) returns (s: Sighting)
    requires e in events && Mentions(t, e, id)
    ensures s in AllSightings(t, events) && s.entity == id && s.eventId == e.id && s.time == e.time
  {
    s :| s in Sightings(t, e) && s.entity == id;
    var i :| 0 <= i < |events| && events[i] == e;
    assert s in SightingsIn(t)(events[i]);
    FlatMapMembers(events, SightingsIn(t), s);
    SightingsComeFromTheirEvent(t, e);
  }

  ghost predicate Mentioned(t: string, events: seq<Event>, id: EntityId) {
    exists e :: e in events && Mentions(t, e, id)
  }

  /** What the events say about one entity. */
  ghost predicate Observed(t: string, events: seq<Event>, id: EntityId, x: Entity) {
    && Distinct(x.eventIds)
    && (forall i :: i in x.eventIds <==> exists e :: e in events && Mentions(t, e, id) && e.id == i)
    && (forall e :: e in events && Mentions(t, e, id) ==> x.firstSeen <= e.time <= x.lastSeen)
    && (exists e :: e in events && Mentions(t, e, id) && e.time == x.firstSeen)
    && (exists e :: e in events && Mentions(t, e, id) && e.time == x.lastSeen)
  }

  /** An entity is in the graph if and only if some event mentions it; its event ids are those of the
      events that do, each once; it was first and last seen at the least and greatest of their times. */
  lemma EntitiesAreWhatWasObserved(t: string, events: seq<Event>, id: EntityId)
    ensures var g := UpsertAll(AllSightings(t, events));
      (id in g <==> Mentioned(t, events, id)) && (id in g ==> Observed(t, events, id, g[id]))
  {
    var ss := AllSightings(t, events);
    var g := UpsertAll(ss);
    UpsertAllSpec(ss, id);
    if id in g {
      var s :| s in ss && s.entity == id;
      var e := SightingFromEvent(t, events, s);
      ObservedFromSummary(t, events, id, g[id]);
    }
    if Mentioned(t, events, id) {
      var e :| e in events && Mentions(t, e, id);
      var s := EventGivesSighting(t, events, e, id);
    }
  }

  lemma ObservedFromSummary(t: string, events: seq<Event>, id: EntityId, x: Entity)
    requires Summarises(AllSightings(t, events), id, x)
    ensures Observed(t, events, id, x)
  {
    var ss := AllSightings(t, events);
    forall i ensures i in x.eventIds <==> exists e :: e in events && Mentions(t, e, id) && e.id == i {
      if i in x.eventIds {
        var s :| s in ss && s.entity == id && s.eventId == i;
        var e := SightingFromEvent(t, events, s);
      }
      if e :| e in events && Mentions(t, e, id) && e.id == i {
        var s := EventGivesSighting(t, events, e, id);
      }
    }
    forall e | e in events && Mentions(t, e, id) ensures x.firstSeen <= e.time <= x.lastSeen {
      var s := EventGivesSighting(t, events, e, id);
    }
    var s1 :| s1 in ss && s1.entity == id && s1.time == x.firstSeen;
    var e1 := SightingFromEvent(t, events, s1);
    var s2 :| s2 in ss && s2.entity == id && s2.time == x.lastSeen;
    var e2 := SightingFromEvent(t, events, s2);
  }

  function SightingsOf(ss: seq<Sighting>, id: EntityId): seq<Sighting> {
    if ss == [] then []
    else SightingsOf(ss[..|ss|-1], id) + if ss[|ss|-1].entity == id then [ss[|ss|-1]] else []
  }

  function FirstMentions(ss: seq<Sighting>): seq<string> {
    if ss == [] then []
    else
      var before := FirstMentions(ss[..|ss|-1]);
      if ss[|ss|-1].eventId in before then before else before + [ss[|ss|-1].eventId]
  }

  /** Event ids are listed in the order the events first mention the entity, and the display name and
      attributes are those of the first mention. */
  lemma {:induction false} FirstMentionWins(ss: seq<Sighting>, id: EntityId)
    ensures var g, own := UpsertAll(ss), SightingsOf(ss, id);
      if own == [] then id !in g
      else id in g && g[id].eventIds == FirstMentions(own) && g[id].displayName == own[0].name && g[id].attributes == own[0].attributes
  {
    if ss != [] {
      var init, s := ss[..|ss|-1], ss[|ss|-1];
      FirstMentionWins(init, id);
      var own := SightingsOf(ss, id);
      if s.entity == id {
        assert own[..|own|-1] == SightingsOf(init, id);
        if SightingsOf(init, id) == [] { assert own == [s] && FirstMentions(own) == [s.eventId]; }
      } else {
        assert own == SightingsOf(init, id);
      }
    }
  }

  // ---------- relations ----------

  ghost predicate Shown(t: string, events: seq<Event>, r: RelationId) {
    exists e :: e in events && Shows(t, e, r)
  }

  lemma {:induction false} RelateAllSpec(ts: seq<Tie>, r: RelationId)
    ensures r in RelateAll(ts) <==> exists x :: x in ts && x.relation == r
    ensures r in RelateAll(ts) ==>
      Distinct(RelateAll(ts)[r]) && forall i :: i in RelateAll(ts)[r] <==> exists x :: x in ts && x.relation == r && x.eventId == i
  {
    if ts != [] {
      var init, x := ts[..|ts|-1], ts[|ts|-1];
      RelateAllSpec(init, r);
      assert ts == init + [x];
    }
  }

  lemma TieHasIds(t: string, src: Option<EntityId>, r: Relation, dst: Option<EntityId>, e: Event)
    ensures forall x :: x in TieIf(t, src, r, dst, e) ==>
      x.eventId == e.id && src == Some(x.relation.src) && dst == Some(x.relation.dst)
  {
  }

  lemma ActorsAreMentioned(t: string, e: Event)
    ensures UserOf(t, e).Some? ==> Mentions(t, e, UserOf(t, e).value)
    ensures HostOf(t, e).Some? ==> Mentions(t, e, HostOf(t, e).value)
    ensures ProcOf(t, e).Some? ==> Mentions(t, e, ProcOf(t, e).value)
  {
    if HasUser(e) { assert SeeUser(t, e)[0] in Sightings(t, e); }
    if HasHost(e) { assert SeeHost(t, e)[0] in Sightings(t, e); }
    if HasProcess(e) { assert SeeProcess(t, e)[0] in Sightings(t, e); }
  }

  lemma OthersAreMentioned(t: string, e: Event)
    ensures IpOf(t, e.srcIp).Some? ==> Mentions(t, e, IpOf(t, e.srcIp).value)
    ensures IpOf(t, e.dstIp).Some? ==> Mentions(t, e, IpOf(t, e.dstIp).value)
    ensures DomainOf(t, e).Some? ==> Mentions(t, e, DomainOf(t, e).value)
    ensures ProcOf(t, e).Some? && ParentOf(t, e).Some? ==> Mentions(t, e, ParentOf(t, e).value)
  {
    if Has(e.srcIp) { assert SeeIp(t, e, e.srcIp, "src")[0] in Sightings(t, e); }
    if Has(e.dstIp) { assert SeeIp(t, e, e.dstIp, "dst")[0] in Sightings(t, e); }
    if Has(e.domain) { assert SeeDomain(t, e)[0] in Sightings(t, e); }
    if HasProcess(e) && HasParent(e) { assert SeeParent(t, e)[0] in Sightings(t, e); }
  }

  /** What it is for an event to show a relation: the two ends it joins, relation by relation. */
  predicate Joins(t: string, e: Event, r: RelationId) {
    var src, dst := Some(r.src), Some(r.dst);
    r.tenantId == t &&
    match r.relation
    case UsedFrom => src == UserOf(t, e) && dst == IpOf(t, e.srcIp)
    case ConnectedTo =>
      || (src == HostOf(t, e) && (dst == IpOf(t, e.srcIp) || dst == IpOf(t, e.dstIp)))
      || (src == ProcOf(t, e) && dst == IpOf(t, e.dstIp))
    case Queried => src == IpOf(t, e.srcIp) && dst == DomainOf(t, e)
    case OnHost => src == UserOf(t, e) && dst == HostOf(t, e)
    case Ran => src == HostOf(t, e) && dst == ProcOf(t, e)
    case ChildOf => src == ProcOf(t, e) && dst == ParentOf(t, e)
  }

  ghost predicate Binds(ts: seq<Tie>, r: RelationId) {
    exists k :: 0 <= k < |ts| && ts[k].relation == r
  }

  lemma BindsConcat(a: seq<Tie>, b: seq<Tie>, r: RelationId)
    ensures Binds(a + b, r) <==> Binds(a, r) || Binds(b, r)
  {
    if k :| 0 <= k < |a| && a[k].relation == r { assert (a + b)[k].relation == r; }
    if k :| 0 <= k < |b| && b[k].relation == r { assert (a + b)[|a|+k].relation == r; }
  }

  lemma BindsIf(t: string, src: Option<EntityId>, rel: Relation, dst: Option<EntityId>, e: Event, r: RelationId)
    ensures Binds(TieIf(t, src, rel, dst, e), r) <==> src == Some(r.src) && dst == Some(r.dst) && r.relation == rel && r.tenantId == t
  {
    if src.Some? && dst.Some? {
      assert TieIf(t, src, rel, dst, e)[0].relation == RelationId(t, src.value, rel, dst.value);
    }
  }

  lemma AddressesJoined(t: string, e: Event, r: RelationId)
    ensures Binds(TieSource(t, e) + TieDestination(t, e) + TieDomain(t, e), r) <==>
            r.relation in {UsedFrom, ConnectedTo, Queried} && Joins(t, e, r)
  {
    BindsConcat(TieSource(t, e) + TieDestination(t, e), TieDomain(t, e), r);
    BindsConcat(TieSource(t, e), TieDestination(t, e), r);
    BindsConcat(TieIf(t, UserOf(t, e), UsedFrom, IpOf(t, e.srcIp), e), TieIf(t, HostOf(t, e), ConnectedTo, IpOf(t, e.srcIp), e), r);
    BindsConcat(TieIf(t, HostOf(t, e), ConnectedTo, IpOf(t, e.dstIp), e), TieIf(t, ProcOf(t, e), ConnectedTo, IpOf(t, e.dstIp), e), r);
    BindsIf(t, UserOf(t, e), UsedFrom, IpOf(t, e.srcIp), e, r);
    BindsIf(t, HostOf(t, e), ConnectedTo, IpOf(t, e.srcIp), e, r);
    BindsIf(t, HostOf(t, e), ConnectedTo, IpOf(t, e.dstIp), e, r);
    BindsIf(t, ProcOf(t, e), ConnectedTo, IpOf(t, e.dstIp), e, r);
    BindsIf(t, IpOf(t, e.srcIp), Queried, DomainOf(t, e), e, r);
  }

  lemma ActorsJoined(t: string, e: Event, r: RelationId)
    ensures Binds(TieActors(t, e), r) <==> r.relation in {OnHost, Ran, ChildOf} && Joins(t, e, r)
  {
    var onHost, ran := TieIf(t, UserOf(t, e), OnHost, HostOf(t, e), e), TieIf(t, HostOf(t, e), Ran, ProcOf(t, e), e);
    BindsConcat(onHost + ran, TieIf(t, ProcOf(t, e), ChildOf, ParentOf(t, e), e), r);
    BindsConcat(onHost, ran, r);
    BindsIf(t, UserOf(t, e), OnHost, HostOf(t, e), e, r);
    BindsIf(t, HostOf(t, e), Ran, ProcOf(t, e), e, r);
    BindsIf(t, ProcOf(t, e), ChildOf, ParentOf(t, e), e, r);
  }

  /** The relations an event makes are exactly those whose ends it joins. */
  lemma ShowsIffJoins(t: string, e: Event, r: RelationId)
    ensures Shows(t, e, r) <==> Joins(t, e, r)
  {
    BindsConcat(TieSource(t, e) + TieDestination(t, e) + TieDomain(t, e), TieActors(t, e), r);
    AddressesJoined(t, e, r);
    ActorsJoined(t, e, r);
    if Shows(t, e, r) {
      var x :| x in Ties(t, e) && x.relation == r;
      var k :| 0 <= k < |Ties(t, e)| && Ties(t, e)[k] == x;
    }
    if Binds(Ties(t, e), r) {
      var k :| 0 <= k < |Ties(t, e)| && Ties(t, e)[k].relation == r;
      assert Ties(t, e)[k] in Ties(t, e);
    }
  }

  lemma TieEndpoints(t: string, e: Event, x: Tie)
    requires x in Ties(t, e)
    ensures x.eventId == e.id && Mentions(t, e, x.relation.src) && Mentions(t, e, x.relation.dst)
  {
    ActorsAreMentioned(t, e);
    OthersAreMentioned(t, e);
    TieHasIds(t, UserOf(t, e), UsedFrom, IpOf(t, e.srcIp), e);
    TieHasIds(t, HostOf(t, e), ConnectedTo, IpOf(t, e.srcIp), e);
    TieHasIds(t, HostOf(t, e), ConnectedTo, IpOf(t, e.dstIp), e);
    TieHasIds(t, ProcOf(t, e), ConnectedTo, IpOf(t, e.dstIp), e);
    TieHasIds(t, IpOf(t, e.srcIp), Queried, DomainOf(t, e), e);
    TieHasIds(t, UserOf(t, e), OnHost, HostOf(t, e), e);
    TieHasIds(t, HostOf(t, e), Ran, ProcOf(t, e), e);
    TieHasIds(t, ProcOf(t, e), ChildOf, ParentOf(t, e), e);
  }

  /** A relation is in the graph if and only if some event shows it, and its event ids are those of the
      events that do, each once. */
  lemma RelationsAreWhatWasObserved(t: string, events: seq<Event>, r: RelationId)
    ensures var rel := RelateAll(AllTies(t, events));
      && (r in rel <==> Shown(t, events, r))
      && (r in rel ==>
            && Distinct(rel[r])
            && forall i :: i in rel[r] <==> exists e :: e in events && Shows(t, e, r) && e.id == i)
  {
    var ts := AllTies(t, events);
    var rel := RelateAll(ts);
    RelateAllSpec(ts, r);
    if Shown(t, events, r) {
      var e :| e in events && Shows(t, e, r);
      var x := EventGivesTie(t, events, e, r);
    }
    if r in rel {
      var x :| x in ts && x.relation == r;
      var e := TieFromEvent(t, events, x);
      forall i ensures i in rel[r] <==> exists e :: e in events && Shows(t, e, r) && e.id == i {
        if i in rel[r] {
          var y :| y in ts && y.relation == r && y.eventId == i;
          var f := TieFromEvent(t, events, y);
        }
        if f :| f in events && Shows(t, f, r) && f.id == i {
          var y := EventGivesTie(t, events, f, r);
        }
      }
    }
  }

  /** Both ends of a relation are entities of the graph, and each event id of the relation is among the
      event ids of both. */
  lemma RelationsHaveTheirEnds(t: string, events: seq<Event>, r: RelationId, i: string)
    requires r in RelateAll(AllTies(t, events)) && i in RelateAll(AllTies(t, events))[r]
    ensures var g := UpsertAll(AllSightings(t, events));
      r.src in g && r.dst in g && i in g[r.src].eventIds && i in g[r.dst].eventIds
  {
    var ts := AllTies(t, events);
    RelateAllSpec(ts, r);
    var x :| x in ts && x.relation == r && x.eventId == i;
    var e := TieFromEvent(t, events, x);
    MentionGivesId(t, events, e, r.src);
    MentionGivesId(t, events, e, r.dst);
  }

  lemma MentionGivesId(t: string, events: seq<Event>, e: Event, id: EntityId)
    requires e in events && Mentions(t, e, id)
    ensures var g := UpsertAll(AllSightings(t, events)); id in g && e.id in g[id].eventIds
  {
    var ss := AllSightings(t, events);
    UpsertAllSpec(ss, id);
    var s := EventGivesSighting(t, events, e, id);
  }

  lemma TieFromEvent(t: string, events: seq<Event>, x: Tie) returns (e: Event)
    requires x in AllTies(t, events)
    ensures e in events && Shows(t, e, x.relation) && e.id == x.eventId
    ensures Mentions(t, e, x.relation.src) && Mentions(t, e, x.relation.dst)
  {
    FlatMapMembers(events, TiesIn(t), x);
    var i :| 0 <= i < |events| && x in TiesIn(t)(events[i]);
    e := events[i];
    TieEndpoints(t, e, x);
  }

  lemma EventGivesTie(t: string, events: seq<Event>, e: Event, r: RelationId) returns (x: Tie)
    requires e in events && Shows(t, e, r)
    ensures x in AllTies(t, events) && x.relation == r && x.eventId == e.id
  {
    x :| x in Ties(t, e) && x.relation == r;
    var i :| 0 <= i < |events| && events[i] == e;
    assert x in TiesIn(t)(events[i]);
    FlatMapMembers(events, TiesIn(t), x);
    TieEndpoints(t, e, x);
  }
}
