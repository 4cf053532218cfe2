/**
 The entity graph: what events say about entities and relations, and upserting it one by one.  An
 entity is named here by its tenant, kind and key; GraphIds.dfy has the ids made of them.
 */
module Graph {
  import opened Common

  // ---------- telemetry ----------

  datatype User = User(name: Option<string>, id: Option<string>)
  datatype Host = Host(id: Option<string>, name: Option<string>, os: Option<string>)
  datatype Process = Process(name: Option<string>, pid: Option<int>, path: Option<string>, commandLine: Option<string>)
  datatype Cloud = Cloud(provider: Option<string>, accountId: Option<string>, resourceId: Option<string>, resourceType: Option<string>)

  datatype Event = Event(
    id: string, tenantId: string, time: int,
    user: Option<User>, host: Option<Host>, process: Option<Process>, parent: Option<Process>,
    srcIp: Option<string>, dstIp: Option<string>, domain: Option<string>, cloud: Option<Cloud>)

  /** An optional string that is present and not empty. */
  predicate Has(s: Option<string>) { s.Some? && s.value != "" }

  function Or(s: Option<string>, t: string): string { if Has(s) then s.value else t }

  /** `pid or 'na'`: a missing pid and pid zero read the same. */
  function PidText(pid: Option<int>): string {
    if pid.None? || pid.value == 0 then "na"
    else Number(pid.value)
  }

  function ProcessKey(p: Process): string { Or(p.name, "") + ":" + PidText(p.pid) }

  // ---------- the graph ----------

  datatype EntityType = UserEntity | HostEntity | IpEntity | DomainEntity | ProcessEntity | CloudEntity
  datatype Relation = UsedFrom | OnHost | Ran | ChildOf | ConnectedTo | Queried

  datatype EntityId = EntityId(tenantId: string, kind: EntityType, key: string)
  datatype RelationId = RelationId(tenantId: string, src: EntityId, relation: Relation, dst: EntityId)

  type Attributes = map<string, string>

  datatype Entity = Entity(
    displayName: string, firstSeen: int, lastSeen: int, eventIds: seq<string>, attributes: Attributes)

  function IdOf(tenantId: string, kind: EntityType, key: string): EntityId {
    EntityId(tenantId, kind, Lower(key))
  }

  /** One call of `upsert`, and one of `relate`. */
  datatype Sighting = Sighting(entity: EntityId, name: string, eventId: string, time: int, attributes: Attributes)
  datatype Tie = Tie(relation: RelationId, eventId: string)

  type Entities = map<EntityId, Entity>
  type Relations = map<RelationId, seq<string>>

  function AddId(ids: seq<string>, id: string): seq<string> {
    if id in ids then ids else ids + [id]
  }

  function Min(a: int, b: int): int { if a < b then a else b }
  function Max(a: int, b: int): int { if a > b then a else b }

  function Upsert(entities: Entities, s: Sighting): Entities {
    if s.entity !in entities then
      entities[s.entity := Entity(s.name, s.time, s.time, [s.eventId], s.attributes)]
    else
      var e := entities[s.entity];
      entities[s.entity := e.(eventIds := AddId(e.eventIds, s.eventId), firstSeen := Min(s.time, e.firstSeen), lastSeen := Max(s.time, e.lastSeen))]
  }

  function Relate(relations: Relations, t: Tie): Relations {
    if t.relation !in relations then relations[t.relation := [t.eventId]]
    else relations[t.relation := AddId(relations[t.relation], t.eventId)]
  }

  function UpsertAll(ss: seq<Sighting>): Entities {
    if ss == [] then map[] else Upsert(UpsertAll(ss[..|ss|-1]), ss[|ss|-1])
  }

  function RelateAll(ts: seq<Tie>): Relations {
    if ts == [] then map[] else Relate(RelateAll(ts[..|ts|-1]), ts[|ts|-1])
  }

  // ---------- what one event contributes ----------

  /** Attributes with empty values are left out. */
  function NonEmpty(attrs: Attributes): Attributes {
    map k | k in attrs && attrs[k] != "" :: attrs[k]
  }

  function See(tenantId: string, kind: EntityType, key: string, name: string, e: Event, attrs: Attributes): Sighting {
    Sighting(IdOf(tenantId, kind, key), name, e.id, e.time, NonEmpty(attrs))
  }

  predicate HasUser(e: Event) { e.user.Some? && Has(e.user.value.name) }
  predicate HasHost(e: Event) { e.host.Some? && (Has(e.host.value.id) || Has(e.host.value.name)) }
  predicate HasProcess(e: Event) { e.process.Some? && Has(e.process.value.name) }
  predicate HasParent(e: Event) { e.parent.Some? && Has(e.parent.value.name) }
  predicate HasCloud(e: Event) { e.cloud.Some? && (Has(e.cloud.value.resourceId) || Has(e.cloud.value.accountId)) }

  function UserId(t: string, e: Event): EntityId requires HasUser(e) { IdOf(t, UserEntity, e.user.value.name.value) }
  function HostKey(e: Event): string requires HasHost(e) { Or(e.host.value.id, Or(e.host.value.name, "")) }
  function HostId(t: string, e: Event): EntityId requires HasHost(e) { IdOf(t, HostEntity, HostKey(e)) }
  function ProcId(t: string, e: Event): EntityId requires HasProcess(e) { IdOf(t, ProcessEntity, ProcessKey(e.process.value)) }
  function ParentId(t: string, e: Event): EntityId requires HasParent(e) { IdOf(t, ProcessEntity, ProcessKey(e.parent.value)) }
  function IpId(t: string, ip: string): EntityId { IdOf(t, IpEntity, ip) }
  function DomainId(t: string, e: Event): EntityId requires Has(e.domain) { IdOf(t, DomainEntity, e.domain.value) }
  function CloudKey(e: Event): string requires HasCloud(e) { Or(e.cloud.value.resourceId, Or(e.cloud.value.accountId, "")) }

  function UserOf(t: string, e: Event): Option<EntityId> { if HasUser(e) then Some(UserId(t, e)) else None }
  function HostOf(t: string, e: Event): Option<EntityId> { if HasHost(e) then Some(HostId(t, e)) else None }
  function ProcOf(t: string, e: Event): Option<EntityId> { if HasProcess(e) then Some(ProcId(t, e)) else None }
  function ParentOf(t: string, e: Event): Option<EntityId> { if HasParent(e) then Some(ParentId(t, e)) else None }
  function IpOf(t: string, ip: Option<string>): Option<EntityId> { if Has(ip) then Some(IpId(t, ip.value)) else None }
  function DomainOf(t: string, e: Event): Option<EntityId> { if Has(e.domain) then Some(DomainId(t, e)) else None }

  function MakeTie(t: string, src: EntityId, r: Relation, dst: EntityId, e: Event): Tie {
    Tie(RelationId(t, src, r, dst), e.id)
  }

  function SeeUser(t: string, e: Event): seq<Sighting> {
    if HasUser(e) then [See(t, UserEntity, e.user.value.name.value, e.user.value.name.value, e, map["user_id" := Or(e.user.value.id, "")])] else []
  }

  function SeeHost(t: string, e: Event): seq<Sighting> {
    if HasHost(e) then [See(t, HostEntity, HostKey(e), Or(e.host.value.name, HostKey(e)), e, map["os" := Or(e.host.value.os, "")])] else []
  }

  function SeeProcess(t: string, e: Event): seq<Sighting> {
    if HasProcess(e) then
      [See(t, ProcessEntity, ProcessKey(e.process.value), e.process.value.name.value, e,
           map["path" := Or(e.process.value.path, ""), "command_line" := Or(e.process.value.commandLine, "")])]
    else []
  }

  function SeeIp(t: string, e: Event, ip: Option<string>, role: string): seq<Sighting> {
    if Has(ip) then [See(t, IpEntity, ip.value, ip.value, e, map["role" := role])] else []
  }

  function SeeDomain(t: string, e: Event): seq<Sighting> {
    if Has(e.domain) then [See(t, DomainEntity, e.domain.value, e.domain.value, e, map[])] else []
  }

  function SeeCloud(t: string, e: Event): seq<Sighting> {
    if HasCloud(e) then
      [See(t, CloudEntity, CloudKey(e), Or(e.cloud.value.resourceType, CloudKey(e)), e,
           map["provider" := Or(e.cloud.value.provider, ""), "account_id" := Or(e.cloud.value.accountId, "")])]
    else []
  }

  function SeeParent(t: string, e: Event): seq<Sighting> {
    if HasProcess(e) && HasParent(e) then
      [See(t, ProcessEntity, ProcessKey(e.parent.value), e.parent.value.name.value, e, map[])]
    else []
  }

  function SeeActors(t: string, e: Event): seq<Sighting> { SeeUser(t, e) + SeeHost(t, e) + SeeProcess(t, e) }

  function SeeResources(t: string, e: Event): seq<Sighting> { SeeDomain(t, e) + SeeCloud(t, e) }

  /** Every upsert one event makes, in order. */
  function Sightings(t: string, e: Event): seq<Sighting> {
    SeeActors(t, e) + SeeIp(t, e, e.srcIp, "src") + SeeIp(t, e, e.dstIp, "dst") + SeeResources(t, e) + SeeParent(t, e)
  }

  function TieIf(t: string, src: Option<EntityId>, r: Relation, dst: Option<EntityId>, e: Event): seq<Tie> {
    if src.Some? && dst.Some? then [MakeTie(t, src.value, r, dst.value, e)] else []
  }

  function TieSource(t: string, e: Event): seq<Tie> {
    TieIf(t, UserOf(t, e), UsedFrom, IpOf(t, e.srcIp), e) + TieIf(t, HostOf(t, e), ConnectedTo, IpOf(t, e.srcIp), e)
  }

  function TieDestination(t: string, e: Event): seq<Tie> {
    TieIf(t, HostOf(t, e), ConnectedTo, IpOf(t, e.dstIp), e) + TieIf(t, ProcOf(t, e), ConnectedTo, IpOf(t, e.dstIp), e)
  }

  function TieDomain(t: string, e: Event): seq<Tie> {
    TieIf(t, IpOf(t, e.srcIp), Queried, DomainOf(t, e), e)
  }

  function TieActors(t: string, e: Event): seq<Tie> {
    TieIf(t, UserOf(t, e), OnHost, HostOf(t, e), e) + TieIf(t, HostOf(t, e), Ran, ProcOf(t, e), e)
    + TieIf(t, ProcOf(t, e), ChildOf, ParentOf(t, e), e)
  }

  /** Every relation one event makes, in order. */
  function Ties(t: string, e: Event): seq<Tie> {
    TieSource(t, e) + TieDestination(t, e) + TieDomain(t, e) + TieActors(t, e)
  }

  function SightingsIn(t: string): Event -> seq<Sighting> { (e: Event) => Sightings(t, e) }

  function TiesIn(t: string): Event -> seq<Tie> { (e: Event) => Ties(t, e) }

  function AllSightings(t: string, events: seq<Event>): seq<Sighting> { FlatMap(events, SightingsIn(t)) }

  function AllTies(t: string, events: seq<Event>): seq<Tie> { FlatMap(events, TiesIn(t)) }

  // ---------- the graph is exactly what was observed ----------

  ghost predicate Mentions(t: string, e: Event, id: EntityId) {
    exists s :: s in Sightings(t, e) && s.entity == id
  }

  ghost predicate Shows(t: string, e: Event, r: RelationId) {
    exists x :: x in Ties(t, e) && x.relation == r
  }

  ghost predicate Distinct(ids: seq<string>) {
    forall i, j :: 0 <= i < j < |ids| ==> ids[i] != ids[j]
  }

  /** What a list of sightings says about one entity. */
  ghost predicate Summarises(ss: seq<Sighting>, id: EntityId, e: Entity) {
    && Distinct(e.eventIds)
    && (forall x :: x in e.eventIds <==> exists s :: s in ss && s.entity == id && s.eventId == x)
    && (forall s :: s in ss && s.entity == id ==> e.firstSeen <= s.time <= e.lastSeen)
    && (exists s :: s in ss && s.entity == id && s.time == e.firstSeen)
    && (exists s :: s in ss && s.entity == id && s.time == e.lastSeen)
  }

  lemma {:induction false} UpsertAllSpec(ss: seq<Sighting>, id: EntityId)
    ensures id in UpsertAll(ss) <==> exists s :: s in ss && s.entity == id
    ensures id in UpsertAll(ss) ==> Summarises(ss, id, UpsertAll(ss)[id])
  {
    if ss != [] {
      var init, s := ss[..|ss|-1], ss[|ss|-1];
      UpsertAllSpec(init, id);
      assert ss == init + [s];
      if s.entity == id {
        UpsertSummarises(init, s, id);
      } else if id in UpsertAll(init) {
        SummaryUnaffected(init, s, id, UpsertAll(init)[id]);
      }
    }
  }

  lemma SummaryUnaffected(ss: seq<Sighting>, s: Sighting, id: EntityId, e: Entity)
    requires Summarises(ss, id, e) && s.entity != id
    ensures Summarises(ss + [s], id, e)
  {
    assert forall x :: x in ss + [s] && x.entity == id <==> x in ss && x.entity == id;
  }

  lemma UpsertSummarises(ss: seq<Sighting>, s: Sighting, id: EntityId)
    requires s.entity == id
    requires id in UpsertAll(ss) <==> exists x :: x in ss && x.entity == id
    requires id in UpsertAll(ss) ==> Summarises(ss, id, UpsertAll(ss)[id])
    ensures var m := Upsert(UpsertAll(ss), s); id in m && Summarises(ss + [s], id, m[id])
  {
    var m := Upsert(UpsertAll(ss), s);
    var more := ss + [s];
    assert s in more;
    assert forall x :: x in ss ==> x in more;
    forall x ensures x in m[id].eventIds <==> exists y :: y in more && y.entity == id && y.eventId == x {
      if x == s.eventId { assert s in more && s.entity == id; }
    }
  }
}
