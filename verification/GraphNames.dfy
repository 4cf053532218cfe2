/**
 What it takes for an event to name an entity or to show a relation, field by field, and what the graph says of
 an entity at its first mention.
 */
module GraphNames {
  import opened Common
  import opened Graph
  import opened GraphIds
  import opened GraphTheorems

  // ---------- who is who ----------

  /** The text is given and is the key but for capital letters. */
  predicate Gives(text: Option<string>, key: string) { Given(text) && IsInSmall(key, text.value) }

  predicate Given(text: Option<string>) { text.Some? && |text.value| > 0 }

  predicate IsUser(e: Event, id: EntityId) { id.kind == UserEntity && e.user.Some? && Gives(e.user.value.name, id.key) }

  /** A host goes by its id, and by its name only if it has no id. */
  predicate IsHost(e: Event, id: EntityId) {
    id.kind == HostEntity && e.host.Some? &&
    if Given(e.host.value.id) then Gives(e.host.value.id, id.key) else Gives(e.host.value.name, id.key)
  }

  /** A process goes by its name and number; no number and zero read `na`. */
  predicate IsProcess(p: Option<Process>, id: EntityId) {
    id.kind == ProcessEntity && p.Some? && Given(p.value.name) &&
    IsInSmall(id.key, p.value.name.value + ":" + match p.value.pid case None => "na" case Some(n) => if n == 0 then "na" else Number(n))
  }

  predicate IsAddress(ip: Option<string>, id: EntityId) { id.kind == IpEntity && Gives(ip, id.key) }

  predicate IsDomain(e: Event, id: EntityId) { id.kind == DomainEntity && Gives(e.domain, id.key) }

  /** A cloud resource goes by its id, and by the account's only if it has none. */
  predicate IsCloud(e: Event, id: EntityId) {
    id.kind == CloudEntity && e.cloud.Some? &&
    if Given(e.cloud.value.resourceId) then Gives(e.cloud.value.resourceId, id.key) else Gives(e.cloud.value.accountId, id.key)
  }

  /** The entities an event names; a parent process only beside a process. */
  predicate Names(e: Event, id: EntityId) {
    || IsUser(e, id) || IsHost(e, id) || IsProcess(e.process, id)
    || (e.process.Some? && Given(e.process.value.name) && IsProcess(e.parent, id))
    || IsAddress(e.srcIp, id) || IsAddress(e.dstIp, id) || IsDomain(e, id) || IsCloud(e, id)
  }

  /** The upserts an event makes under a tenant are exactly for the entities it names, field by field. */
  lemma MentionsIffNames(t: string, e: Event, id: EntityId)
    ensures Mentions(t, e, id) <==> id.tenantId == t && Names(e, id)
  {
    MentionsIffNamed(t, e, id);
    NamedIffNames(t, e, id);
  }

  lemma GivesIffLower(text: Option<string>, key: string)
    ensures Gives(text, key) <==> Given(text) && key == Lower(text.value)
  {
    if text.Some? { OneInSmall(key, text.value); }
  }

  lemma ProcessIffLower(p: Option<Process>, id: EntityId)
    ensures IsProcess(p, id) <==> id.kind == ProcessEntity && p.Some? && Has(p.value.name) && id.key == Lower(ProcessKey(p.value))
  {
    if p.Some? && Has(p.value.name) { OneInSmall(id.key, ProcessKey(p.value)); }
  }

  lemma NamedIffNames(t: string, e: Event, id: EntityId)
    ensures NamedBy(t, e, id) <==> id.tenantId == t && Names(e, id)
  {
    match id.kind {
      case UserEntity => if e.user.Some? { GivesIffLower(e.user.value.name, id.key); }
      case HostEntity =>
        if e.host.Some? {
          GivesIffLower(e.host.value.id, id.key);
          GivesIffLower(e.host.value.name, id.key);
        }
      case ProcessEntity =>
        ProcessIffLower(e.process, id);
        ProcessIffLower(e.parent, id);
      case IpEntity =>
        GivesIffLower(e.srcIp, id.key);
        GivesIffLower(e.dstIp, id.key);
      case DomainEntity => GivesIffLower(e.domain, id.key);
      case CloudEntity =>
        if e.cloud.Some? {
          GivesIffLower(e.cloud.value.resourceId, id.key);
          GivesIffLower(e.cloud.value.accountId, id.key);
        }
    }
  }

  // ---------- relations ----------

  /** A user used an address and was on a host; a host ran a process and connected to either address, a process to the
      destination; the source asked for a domain; a process is the child of its parent. */
  predicate Relates(e: Event, src: EntityId, relation: Relation, dst: EntityId) {
    match relation
    case UsedFrom => IsUser(e, src) && IsAddress(e.srcIp, dst)
    case OnHost => IsUser(e, src) && IsHost(e, dst)
    case Ran => IsHost(e, src) && IsProcess(e.process, dst)
    case ChildOf => IsProcess(e.process, src) && IsProcess(e.parent, dst)
    case ConnectedTo =>
      (IsHost(e, src) && (IsAddress(e.srcIp, dst) || IsAddress(e.dstIp, dst))) || (IsProcess(e.process, src) && IsAddress(e.dstIp, dst))
    case Queried => IsAddress(e.srcIp, src) && IsDomain(e, dst)
  }

  /** An event shows a relation under a tenant exactly if its fields relate the two ends. */
  lemma ShowsIffRelates(t: string, e: Event, r: RelationId)
    ensures Shows(t, e, r) <==> r.tenantId == t && r.src.tenantId == t && r.dst.tenantId == t && Relates(e, r.src, r.relation, r.dst)
  {
    ShowsIffJoins(t, e, r);
    WhoIsWho(t, e, r.src);
    WhoIsWho(t, e, r.dst);
  }

  lemma WhoIsWho(t: string, e: Event, id: EntityId)
    ensures Some(id) == UserOf(t, e) <==> id.tenantId == t && IsUser(e, id)
    ensures Some(id) == HostOf(t, e) <==> id.tenantId == t && IsHost(e, id)
    ensures Some(id) == ProcOf(t, e) <==> id.tenantId == t && IsProcess(e.process, id)
    ensures Some(id) == ParentOf(t, e) <==> id.tenantId == t && IsProcess(e.parent, id)
    ensures Some(id) == IpOf(t, e.srcIp) <==> id.tenantId == t && IsAddress(e.srcIp, id)
    ensures Some(id) == IpOf(t, e.dstIp) <==> id.tenantId == t && IsAddress(e.dstIp, id)
    ensures Some(id) == DomainOf(t, e) <==> id.tenantId == t && IsDomain(e, id)
  {
    if e.user.Some? { GivesIffLower(e.user.value.name, id.key); }
    HostIsHost(t, e, id);
    ProcessIffLower(e.process, id);
    ProcessIffLower(e.parent, id);
    GivesIffLower(e.srcIp, id.key);
    GivesIffLower(e.dstIp, id.key);
    GivesIffLower(e.domain, id.key);
  }

  lemma HostIsHost(t: string, e: Event, id: EntityId)
    ensures Some(id) == HostOf(t, e) <==> id.tenantId == t && IsHost(e, id)
  {
    if e.host.Some? {
      GivesIffLower(e.host.value.id, id.key);
      GivesIffLower(e.host.value.name, id.key);
    }
  }

  // ---------- the first mention ----------

  /** Exactly these attributes, those with an empty value left out. */
  ghost predicate Attributed(attributes: Attributes, given: map<string, Option<string>>) {
    forall k :: if k in given && Given(given[k]) then k in attributes && attributes[k] == given[k].value else k !in attributes
  }

  function OrElse(text: Option<string>, other: Option<string>): string {
    if Given(text) then text.value else if other.Some? then other.value else ""
  }

  /** The display name and attributes an event gives an entity it is the first to name: a process before its parent,
      a source before a destination. */
  ghost predicate Introduces(e: Event, id: EntityId, name: string, attributes: Attributes)
    requires Names(e, id)
  {
    match id.kind
    case UserEntity => name == e.user.value.name.value && Attributed(attributes, map["user_id" := e.user.value.id])
    case HostEntity =>
      name == OrElse(e.host.value.name, e.host.value.id) && Attributed(attributes, map["os" := e.host.value.os])
    case ProcessEntity =>
      if IsProcess(e.process, id) then
        && name == e.process.value.name.value
        && Attributed(attributes, map["path" := e.process.value.path, "command_line" := e.process.value.commandLine])
      else name == e.parent.value.name.value && attributes == map[]
    case IpEntity =>
      if IsAddress(e.srcIp, id) then name == e.srcIp.value && attributes == map["role" := "src"]
      else name == e.dstIp.value && attributes == map["role" := "dst"]
    case DomainEntity => name == e.domain.value && attributes == map[]
    case CloudEntity =>
      && name == OrElse(e.cloud.value.resourceType, Some(OrElse(e.cloud.value.resourceId, e.cloud.value.accountId)))
      && Attributed(attributes, map["provider" := e.cloud.value.provider, "account_id" := e.cloud.value.accountId])
  }

  lemma {:induction false} SightingsOfConcat(a: seq<Sighting>, b: seq<Sighting>, id: EntityId)
    ensures SightingsOf(a + b, id) == SightingsOf(a, id) + SightingsOf(b, id)
  {
    if b == [] {
      assert a + b == a;
    } else {
      SightingsOfConcat(a, b[..|b|-1], id);
      assert (a + b)[..|a + b|-1] == a + b[..|b|-1];
    }
  }

  lemma AtMostOneSighting(ss: seq<Sighting>, id: EntityId)
    requires |ss| <= 1
    ensures SightingsOf(ss, id) == if ss != [] && ss[0].entity == id then ss else []
  {
    if ss != [] { assert ss[..0] == [] && ss == [ss[0]]; }
  }

  /** The sightings of one entity, part by part. */
  lemma SightingsByPart(t: string, e: Event, id: EntityId)
    ensures SightingsOf(Sightings(t, e), id)
            == SightingsOf(SeeUser(t, e), id) + SightingsOf(SeeHost(t, e), id) + SightingsOf(SeeProcess(t, e), id)
               + SightingsOf(SeeIp(t, e, e.srcIp, "src"), id) + SightingsOf(SeeIp(t, e, e.dstIp, "dst"), id)
               + (SightingsOf(SeeDomain(t, e), id) + SightingsOf(SeeCloud(t, e), id)) + SightingsOf(SeeParent(t, e), id)
  {
    var a, s, d, r := SeeActors(t, e), SeeIp(t, e, e.srcIp, "src"), SeeIp(t, e, e.dstIp, "dst"), SeeResources(t, e);
    SightingsOfConcat(a + s + d + r, SeeParent(t, e), id);
    SightingsOfConcat(a + s + d, r, id);
    SightingsOfConcat(a + s, d, id);
    SightingsOfConcat(a, s, id);
    SightingsOfConcat(SeeUser(t, e) + SeeHost(t, e), SeeProcess(t, e), id);
    SightingsOfConcat(SeeUser(t, e), SeeHost(t, e), id);
    SightingsOfConcat(SeeDomain(t, e), SeeCloud(t, e), id);
  }

  ghost predicate StartsWith(ss: seq<Sighting>, e: Event, id: EntityId)
    requires Names(e, id)
  {
    ss != [] && Introduces(e, id, ss[0].name, ss[0].attributes)
  }

  lemma NoneOf(ss: seq<Sighting>, id: EntityId, kind: EntityType)
    requires |ss| <= 1 && (ss != [] ==> ss[0].entity.kind == kind) && id.kind != kind
    ensures SightingsOf(ss, id) == []
  {
    AtMostOneSighting(ss, id);
  }

  /** Only the parts for its kind have sightings of an entity. */
  lemma OtherKindsSayNothing(t: string, e: Event, id: EntityId)
    ensures id.kind != UserEntity ==> SightingsOf(SeeUser(t, e), id) == []
    ensures id.kind != HostEntity ==> SightingsOf(SeeHost(t, e), id) == []
    ensures id.kind != ProcessEntity ==> SightingsOf(SeeProcess(t, e), id) == [] && SightingsOf(SeeParent(t, e), id) == []
    ensures id.kind != IpEntity ==> SightingsOf(SeeIp(t, e, e.srcIp, "src"), id) == [] && SightingsOf(SeeIp(t, e, e.dstIp, "dst"), id) == []
    ensures id.kind != DomainEntity ==> SightingsOf(SeeDomain(t, e), id) == []
    ensures id.kind != CloudEntity ==> SightingsOf(SeeCloud(t, e), id) == []
  {
    if id.kind != UserEntity { NoneOf(SeeUser(t, e), id, UserEntity); }
    if id.kind != HostEntity { NoneOf(SeeHost(t, e), id, HostEntity); }
    if id.kind != ProcessEntity { NoneOf(SeeProcess(t, e), id, ProcessEntity); NoneOf(SeeParent(t, e), id, ProcessEntity); }
    if id.kind != IpEntity { NoneOf(SeeIp(t, e, e.srcIp, "src"), id, IpEntity); NoneOf(SeeIp(t, e, e.dstIp, "dst"), id, IpEntity); }
    if id.kind != DomainEntity { NoneOf(SeeDomain(t, e), id, DomainEntity); }
    if id.kind != CloudEntity { NoneOf(SeeCloud(t, e), id, CloudEntity); }
  }

  lemma OneAttribute(k: string, v: Option<string>)
    ensures Attributed(NonEmpty(map[k := Or(v, "")]), map[k := v])
  {
  }

  lemma TwoAttributes(k: string, v: Option<string>, l: string, w: Option<string>)
    requires k != l
    ensures Attributed(NonEmpty(map[k := Or(v, ""), l := Or(w, "")]), map[k := v, l := w])
  {
  }

  lemma UserIntroduces(t: string, e: Event, id: EntityId)
    requires id.tenantId == t && IsUser(e, id)
    ensures StartsWith(SightingsOf(SeeUser(t, e), id), e, id)
  {
    AtMostOneSighting(SeeUser(t, e), id);
    GivesIffLower(e.user.value.name, id.key);
    OneAttribute("user_id", e.user.value.id);
  }

  lemma HostIntroduces(t: string, e: Event, id: EntityId)
    requires id.tenantId == t && IsHost(e, id)
    ensures StartsWith(SightingsOf(SeeHost(t, e), id), e, id)
  {
    AtMostOneSighting(SeeHost(t, e), id);
    HostIsHost(t, e, id);
    OneAttribute("os", e.host.value.os);
  }

  lemma ProcessIntroduces(t: string, e: Event, id: EntityId)
    requires id.tenantId == t
    ensures IsProcess(e.process, id) ==> StartsWith(SightingsOf(SeeProcess(t, e), id), e, id)
    ensures !IsProcess(e.process, id) ==> SightingsOf(SeeProcess(t, e), id) == []
  {
    AtMostOneSighting(SeeProcess(t, e), id);
    ProcessIffLower(e.process, id);
    if IsProcess(e.process, id) {
      TwoAttributes("path", e.process.value.path, "command_line", e.process.value.commandLine);
    }
  }

  /** An address has a sighting in a role exactly if it is the one of that role. */
  lemma AddressSightings(t: string, e: Event, ip: Option<string>, role: string, id: EntityId)
    requires id.tenantId == t
    ensures var own := SightingsOf(SeeIp(t, e, ip, role), id);
      if IsAddress(ip, id) then own != [] && own[0].name == ip.value && (role != "" ==> own[0].attributes == map["role" := role])
      else own == []
  {
    AtMostOneSighting(SeeIp(t, e, ip, role), id);
    GivesIffLower(ip, id.key);
    if Has(ip) { RoleIsKept(role); }
  }

  lemma RoleIsKept(role: string)
    ensures role != "" ==> NonEmpty(map["role" := role]) == map["role" := role]
  {
  }

  lemma AddressIntroduces(t: string, e: Event, id: EntityId)
    requires id.tenantId == t
    ensures IsAddress(e.srcIp, id) ==> StartsWith(SightingsOf(SeeIp(t, e, e.srcIp, "src"), id), e, id)
    ensures !IsAddress(e.srcIp, id) ==> SightingsOf(SeeIp(t, e, e.srcIp, "src"), id) == []
    ensures !IsAddress(e.srcIp, id) && IsAddress(e.dstIp, id) ==> StartsWith(SightingsOf(SeeIp(t, e, e.dstIp, "dst"), id), e, id)
  {
    AddressSightings(t, e, e.srcIp, "src", id);
    AddressSightings(t, e, e.dstIp, "dst", id);
  }

  lemma DomainIntroduces(t: string, e: Event, id: EntityId)
    requires id.tenantId == t && IsDomain(e, id)
    ensures StartsWith(SightingsOf(SeeDomain(t, e), id), e, id)
  {
    AtMostOneSighting(SeeDomain(t, e), id);
    GivesIffLower(e.domain, id.key);
  }

  lemma CloudIntroduces(t: string, e: Event, id: EntityId)
    requires id.tenantId == t && IsCloud(e, id)
    ensures StartsWith(SightingsOf(SeeCloud(t, e), id), e, id)
  {
    AtMostOneSighting(SeeCloud(t, e), id);
    GivesIffLower(e.cloud.value.resourceId, id.key);
    GivesIffLower(e.cloud.value.accountId, id.key);
    TwoAttributes("provider", e.cloud.value.provider, "account_id", e.cloud.value.accountId);
  }

  lemma ParentIntroduces(t: string, e: Event, id: EntityId)
    requires id.tenantId == t && e.process.Some? && Given(e.process.value.name) && IsProcess(e.parent, id) && !IsProcess(e.process, id)
    ensures StartsWith(SightingsOf(SeeParent(t, e), id), e, id)
  {
    AtMostOneSighting(SeeParent(t, e), id);
    ProcessIffLower(e.parent, id);
  }

  lemma FirstSightingIntroduces(t: string, e: Event, id: EntityId)
    requires id.tenantId == t && Names(e, id)
    ensures StartsWith(SightingsOf(Sightings(t, e), id), e, id)
  {
    SightingsByPart(t, e, id);
    OtherKindsSayNothing(t, e, id);
    match id.kind {
      case UserEntity => UserIntroduces(t, e, id);
      case HostEntity => HostIntroduces(t, e, id);
      case ProcessEntity =>
        ProcessIntroduces(t, e, id);
        if !IsProcess(e.process, id) { ParentIntroduces(t, e, id); }
      case IpEntity => AddressIntroduces(t, e, id);
      case DomainEntity => DomainIntroduces(t, e, id);
      case CloudEntity => CloudIntroduces(t, e, id);
    }
  }

  lemma {:induction false} NoMentionNoSighting(t: string, events: seq<Event>, id: EntityId)
    requires forall i :: 0 <= i < |events| ==> !Mentions(t, events[i], id)
    ensures SightingsOf(AllSightings(t, events), id) == []
  {
    if events != [] {
      var init, e := events[..|events|-1], events[|events|-1];
      NoMentionNoSighting(t, init, id);
      SightingsOfConcat(AllSightings(t, init), Sightings(t, e), id);
      NoSighting(Sightings(t, e), id);
    }
  }

  lemma {:induction false} NoSighting(ss: seq<Sighting>, id: EntityId)
    requires forall x :: x in ss ==> x.entity != id
    ensures SightingsOf(ss, id) == []
  {
    if ss != [] { NoSighting(ss[..|ss|-1], id); }
  }

  lemma {:induction false} FirstEventIntroduces(t: string, events: seq<Event>, id: EntityId, i: nat)
    requires i < |events| && id.tenantId == t && Names(events[i], id)
    requires forall j :: 0 <= j < i ==> !Names(events[j], id)
    ensures StartsWith(SightingsOf(AllSightings(t, events), id), events[i], id)
    decreases |events|
  {
    var init, e := events[..|events|-1], events[|events|-1];
    SightingsOfConcat(AllSightings(t, init), Sightings(t, e), id);
    if i < |init| {
      FirstEventIntroduces(t, init, id, i);
    } else {
      forall j | 0 <= j < |init| ensures !Mentions(t, init[j], id) { MentionsIffNames(t, init[j], id); }
      NoMentionNoSighting(t, init, id);
      FirstSightingIntroduces(t, e, id);
    }
  }

  /** The display name and the attributes of an entity are those the first event that names it gives it. */
  lemma FirstEventNamesIt(t: string, events: seq<Event>, id: EntityId, i: nat)
    requires i < |events| && id.tenantId == t && Names(events[i], id)
    requires forall j :: 0 <= j < i ==> !Names(events[j], id)
    ensures var g := UpsertAll(AllSightings(t, events));
      id in g && Introduces(events[i], id, g[id].displayName, g[id].attributes)
  {
    FirstEventIntroduces(t, events, id, i);
    FirstMentionWins(AllSightings(t, events), id);
  }

  // ---------- ids ----------

  /** What a kind is called in ids. */
  function Called(kind: EntityType): string {
    match kind
    case UserEntity => "user" case HostEntity => "host" case IpEntity => "ip"
    case DomainEntity => "domain" case ProcessEntity => "process" case CloudEntity => "cloud_resource"
  }

  function RelationCalled(relation: Relation): string {
    match relation
    case UsedFrom => "used_from" case OnHost => "on_host" case Ran => "ran"
    case ChildOf => "child_of" case ConnectedTo => "connected_to" case Queried => "queried"
  }

  /** What is hashed for the ids of a relation and of its ends. */
  lemma IdsAreMadeOf(h: Digest, r: RelationId)
    ensures var src, dst :=
        "ent_" + h(r.src.tenantId + "|" + Called(r.src.kind) + "|" + r.src.key), "ent_" + h(r.dst.tenantId + "|" + Called(r.dst.kind) + "|" + r.dst.key);
      && EntityKey(h, r.src) == src && EntityKey(h, r.dst) == dst
      && RelationKey(h, r) == "rel_" + h(r.tenantId + "|" + src + "|" + RelationCalled(r.relation) + "|" + dst)
  {
  }
}
