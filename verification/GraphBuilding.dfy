/**
 Building the graph: dicts of entities and relations filed under their ids, updated event by event.
 They hold exactly what has been upserted, since within the builder's tenant ids tell entities and
 relations apart.
 */
module GraphBuilding {
  import opened Common
  import opened Graph
  import opened GraphIds

  datatype Node = Node(id: EntityId, seen: Entity)
  datatype Edge = Edge(id: RelationId, eventIds: seq<string>)

  type Nodes = map<string, Node>
  type Edges = map<string, Edge>

  // ---------- what the dicts hold ----------

  /** The entities, each filed under its id, and nothing else. */
  ghost predicate Filed(h: Digest, m: Entities, nodes: Nodes) {
    && (forall id {:trigger FiledAt(h, m, nodes, id)} :: FiledAt(h, m, nodes, id))
    && (forall k {:trigger FiledFrom(h, m, nodes, k)} :: FiledFrom(h, m, nodes, k))
  }

  ghost predicate FiledAt(h: Digest, m: Entities, nodes: Nodes, id: EntityId) {
    id in m ==> EntityKey(h, id) in nodes && nodes[EntityKey(h, id)] == Node(id, m[id])
  }

  ghost predicate FiledFrom(h: Digest, m: Entities, nodes: Nodes, k: string) {
    k in nodes ==> nodes[k].id in m && k == EntityKey(h, nodes[k].id)
  }

  ghost predicate Drawn(h: Digest, m: Relations, edges: Edges) {
    && (forall r {:trigger DrawnAt(h, m, edges, r)} :: DrawnAt(h, m, edges, r))
    && (forall k {:trigger DrawnFrom(h, m, edges, k)} :: DrawnFrom(h, m, edges, k))
  }

  ghost predicate DrawnAt(h: Digest, m: Relations, edges: Edges, r: RelationId) {
    r in m ==> RelationKey(h, r) in edges && edges[RelationKey(h, r)] == Edge(r, m[r])
  }

  ghost predicate DrawnFrom(h: Digest, m: Relations, edges: Edges, k: string) {
    k in edges ==> edges[k].id in m && k == RelationKey(h, edges[k].id)
  }

  ghost predicate Tenanted(t: string, m: Entities) {
    forall id {:trigger TenantOf(t, m, id)} :: TenantOf(t, m, id)
  }

  ghost predicate TenantOf(t: string, m: Entities, id: EntityId) { id in m ==> id.tenantId == t }

  ghost predicate TiesTenanted(t: string, m: Relations) {
    forall r {:trigger TieTenantOf(t, m, r)} :: TieTenantOf(t, m, r)
  }

  ghost predicate TieTenantOf(t: string, m: Relations, r: RelationId) { r in m ==> r.tenantId == t && OfOneTenant(r) }

  predicate OfTenant(t: string, id: Option<EntityId>) { id.Some? ==> id.value.tenantId == t }

  lemma FiledFinds(h: Digest, t: string, m: Entities, nodes: Nodes, id: EntityId)
    requires GoodDigest(h) && Tenanted(t, m) && Filed(h, m, nodes) && id.tenantId == t
    ensures EntityKey(h, id) in nodes <==> id in m
    ensures id in m ==> nodes[EntityKey(h, id)] == Node(id, m[id])
  {
    assert FiledAt(h, m, nodes, id) && FiledFrom(h, m, nodes, EntityKey(h, id));
    if EntityKey(h, id) in nodes {
      assert TenantOf(t, m, nodes[EntityKey(h, id)].id);
      KeyTellsEntity(h, id, nodes[EntityKey(h, id)].id);
    }
  }

  lemma FiledUpsert(h: Digest, t: string, m: Entities, nodes: Nodes, s: Sighting)
    requires GoodDigest(h) && Tenanted(t, m) && Filed(h, m, nodes) && s.entity.tenantId == t
    ensures var m' := Upsert(m, s);
      Tenanted(t, m') && Filed(h, m', nodes[EntityKey(h, s.entity) := Node(s.entity, m'[s.entity])])
  {
    var m', key := Upsert(m, s), EntityKey(h, s.entity);
    var nodes' := nodes[key := Node(s.entity, m'[s.entity])];
    forall id ensures TenantOf(t, m', id) && FiledAt(h, m', nodes', id) {
      assert TenantOf(t, m, id) && FiledAt(h, m, nodes, id);
      if id in m && id != s.entity && EntityKey(h, id) == key { KeyTellsEntity(h, id, s.entity); }
    }
    forall k ensures FiledFrom(h, m', nodes', k) { assert FiledFrom(h, m, nodes, k); }
  }

  lemma DrawnFinds(h: Digest, t: string, m: Relations, edges: Edges, r: RelationId)
    requires GoodDigest(h) && TiesTenanted(t, m) && Drawn(h, m, edges) && r.tenantId == t && OfOneTenant(r)
    ensures RelationKey(h, r) in edges <==> r in m
    ensures r in m ==> edges[RelationKey(h, r)] == Edge(r, m[r])
  {
    assert DrawnAt(h, m, edges, r) && DrawnFrom(h, m, edges, RelationKey(h, r));
    if RelationKey(h, r) in edges {
      assert TieTenantOf(t, m, edges[RelationKey(h, r)].id);
      KeyTellsRelation(h, r, edges[RelationKey(h, r)].id);
    }
  }

  lemma DrawnRelate(h: Digest, t: string, m: Relations, edges: Edges, x: Tie)
    requires GoodDigest(h) && TiesTenanted(t, m) && Drawn(h, m, edges) && x.relation.tenantId == t && OfOneTenant(x.relation)
    ensures var m' := Relate(m, x);
      TiesTenanted(t, m') && Drawn(h, m', edges[RelationKey(h, x.relation) := Edge(x.relation, m'[x.relation])])
  {
    var m', key := Relate(m, x), RelationKey(h, x.relation);
    var edges' := edges[key := Edge(x.relation, m'[x.relation])];
    forall r ensures TieTenantOf(t, m', r) && DrawnAt(h, m', edges', r) {
      assert TieTenantOf(t, m, r) && DrawnAt(h, m, edges, r);
      if r in m && r != x.relation && RelationKey(h, r) == key { KeyTellsRelation(h, r, x.relation); }
    }
    forall k ensures DrawnFrom(h, m', edges', k) { assert DrawnFrom(h, m, edges, k); }
  }

  class GraphBuilder {
    const digest: Digest
    const tenantId: string
    var nodes: Nodes
    var edges: Edges
    ghost var sightings: seq<Sighting>
    ghost var ties: seq<Tie>

    ghost predicate Valid()
      reads this
    {
      && GoodDigest(digest)
      && Tenanted(tenantId, UpsertAll(sightings)) && Filed(digest, UpsertAll(sightings), nodes)
      && TiesTenanted(tenantId, RelateAll(ties)) && Drawn(digest, RelateAll(ties), edges)
    }

    constructor (digest: Digest, tenantId: string)
      requires GoodDigest(digest)
      ensures Valid() && this.digest == digest && this.tenantId == tenantId && sightings == [] && ties == []
    {
      this.digest, this.tenantId := digest, tenantId;
      nodes, edges, sightings, ties := map[], map[], [], [];
    }

    method UpsertEntity(kind: EntityType, key: string, name: string, event: Event, attrs: Attributes) returns (id: EntityId)
      requires Valid()
      modifies this`nodes, this`sightings
      ensures Valid() && id == IdOf(tenantId, kind, key)
      ensures sightings == old(sightings) + [See(tenantId, kind, key, name, event, attrs)]
    {
      id := IdOf(tenantId, kind, key);
      var eid := EntityKey(digest, id);
      ghost var s := See(tenantId, kind, key, name, event, attrs);
      FiledFinds(digest, tenantId, UpsertAll(sightings), nodes, id);
      FiledUpsert(digest, tenantId, UpsertAll(sightings), nodes, s);
      if eid !in nodes {
        nodes := nodes[eid := Node(id, Entity(name, event.time, event.time, [event.id], NonEmpty(attrs)))];
      } else {
        var existing := nodes[eid].seen;
        if event.id !in existing.eventIds {
          existing := existing.(eventIds := existing.eventIds + [event.id]);
        }
        if event.time < existing.firstSeen {
          existing := existing.(firstSeen := event.time);
        }
        if event.time > existing.lastSeen {
          existing := existing.(lastSeen := event.time);
        }
        nodes := nodes[eid := Node(id, existing)];
      }
      sightings := sightings + [s];
      assert sightings[..|sightings|-1] == old(sightings);
    }

    method RelateEntities(src: EntityId, relation: Relation, dst: EntityId, event: Event)
      requires Valid() && src.tenantId == tenantId && dst.tenantId == tenantId
      modifies this`edges, this`ties
      ensures Valid()
      ensures ties == old(ties) + [MakeTie(tenantId, src, relation, dst, event)]
    {
      var id := RelationId(tenantId, src, relation, dst);
      var rid := RelationKey(digest, id);
      ghost var tie, m := MakeTie(tenantId, src, relation, dst, event), RelateAll(ties);
      DrawnFinds(digest, tenantId, m, edges, id);
      DrawnRelate(digest, tenantId, m, edges, tie);
      if rid !in edges {
        edges := edges[rid := Edge(id, [event.id])];
      } else if event.id !in edges[rid].eventIds {
        edges := edges[rid := Edge(id, edges[rid].eventIds + [event.id])];
      } else {
        assert edges == edges[rid := edges[rid]];
      }
      assert edges == old(edges)[rid := Edge(id, Relate(m, tie)[id])];
      assert RelateAll(ties + [tie]) == Relate(m, tie) by { assert (ties + [tie])[..|ties|] == ties; }
      ties := ties + [tie];
    }

    method RelateIf(src: Option<EntityId>, relation: Relation, dst: Option<EntityId>, event: Event)
      requires Valid() && OfTenant(tenantId, src) && OfTenant(tenantId, dst)
      modifies this`edges, this`ties
      ensures Valid()
      ensures ties == old(ties) + TieIf(tenantId, src, relation, dst, event)
    {
      if src.Some? && dst.Some? {
        RelateEntities(src.value, relation, dst.value, event);
      }
    }

    method ObserveActors(event: Event) returns (userId: Option<EntityId>, hostId: Option<EntityId>, procId: Option<EntityId>)
      requires Valid()
      modifies this`nodes, this`sightings
      ensures Valid()
      ensures userId == UserOf(tenantId, event) && hostId == HostOf(tenantId, event) && procId == ProcOf(tenantId, event)
      ensures sightings == old(sightings) + SeeActors(tenantId, event)
    {
      userId := ObserveUser(event);
      hostId := ObserveHost(event);
      procId := ObserveProcess(event);
      Assoc3(old(sightings), SeeUser(tenantId, event), SeeHost(tenantId, event), SeeProcess(tenantId, event));
    }

    method ObserveUser(event: Event) returns (userId: Option<EntityId>)
      requires Valid()
      modifies this`nodes, this`sightings
      ensures Valid() && userId == UserOf(tenantId, event)
      ensures sightings == old(sightings) + SeeUser(tenantId, event)
    {
      userId := None;
      if HasUser(event) {
        var user := event.user.value;
        var id := UpsertEntity(UserEntity, user.name.value, user.name.value, event, map["user_id" := Or(user.id, "")]);
        userId := Some(id);
      }
    }

    method ObserveHost(event: Event) returns (hostId: Option<EntityId>)
      requires Valid()
      modifies this`nodes, this`sightings
      ensures Valid() && hostId == HostOf(tenantId, event)
      ensures sightings == old(sightings) + SeeHost(tenantId, event)
    {
      hostId := None;
      if HasHost(event) {
        var id := UpsertEntity(HostEntity, HostKey(event), Or(event.host.value.name, HostKey(event)), event, map["os" := Or(event.host.value.os, "")]);
        hostId := Some(id);
      }
    }

    method ObserveProcess(event: Event) returns (procId: Option<EntityId>)
      requires Valid()
      modifies this`nodes, this`sightings
      ensures Valid() && procId == ProcOf(tenantId, event)
      ensures sightings == old(sightings) + SeeProcess(tenantId, event)
    {
      procId := None;
      if HasProcess(event) {
        var p := event.process.value;
        var id := UpsertEntity(ProcessEntity, ProcessKey(p), p.name.value, event,
          map["path" := Or(p.path, ""), "command_line" := Or(p.commandLine, "")]);
        procId := Some(id);
      }
    }

    /** An address and the ties to the (at most two) entities that used it. */
    method ObserveAddress(event: Event, address: Option<string>, role: string, first: Option<EntityId>, relation: Relation, second: Option<EntityId>)
      requires Valid() && OfTenant(tenantId, first) && OfTenant(tenantId, second)
      modifies this
      ensures Valid()
      ensures sightings == old(sightings) + SeeIp(tenantId, event, address, role)
      ensures ties == old(ties) + TieIf(tenantId, first, relation, IpOf(tenantId, address), event)
                      + TieIf(tenantId, second, ConnectedTo, IpOf(tenantId, address), event)
    {
      if Has(address) {
        var ip := UpsertEntity(IpEntity, address.value, address.value, event, map["role" := role]);
        RelateIf(first, relation, Some(ip), event);
        RelateIf(second, ConnectedTo, Some(ip), event);
      }
    }

    method ObserveResources(event: Event)
      requires Valid()
      modifies this
      ensures Valid()
      ensures sightings == old(sightings) + SeeResources(tenantId, event)
      ensures ties == old(ties) + TieDomain(tenantId, event)
    {
      ObserveDomain(event);
      ObserveCloud(event);
      Assoc2(old(sightings), SeeDomain(tenantId, event), SeeCloud(tenantId, event));
    }

    method ObserveDomain(event: Event)
      requires Valid()
      modifies this
      ensures Valid()
      ensures sightings == old(sightings) + SeeDomain(tenantId, event)
      ensures ties == old(ties) + TieDomain(tenantId, event)
    {
      if Has(event.domain) {
        var id := UpsertEntity(DomainEntity, event.domain.value, event.domain.value, event, map[]);
        RelateIf(IpOf(tenantId, event.srcIp), Queried, Some(id), event);
      }
    }

    method ObserveCloud(event: Event)
      requires Valid()
      modifies this
      ensures Valid()
      ensures sightings == old(sightings) + SeeCloud(tenantId, event)
      ensures ties == old(ties)
    {
      if HasCloud(event) {
        var c := event.cloud.value;
        var _ := UpsertEntity(CloudEntity, CloudKey(event), Or(c.resourceType, CloudKey(event)), event,
          map["provider" := Or(c.provider, ""), "account_id" := Or(c.accountId, "")]);
      }
    }

    method ObserveLinks(event: Event, userId: Option<EntityId>, hostId: Option<EntityId>, procId: Option<EntityId>)
      requires Valid()
      requires userId == UserOf(tenantId, event) && hostId == HostOf(tenantId, event) && procId == ProcOf(tenantId, event)
      modifies this
      ensures Valid()
      ensures sightings == old(sightings) + SeeParent(tenantId, event)
      ensures ties == old(ties) + TieActors(tenantId, event)
    {
      RelateIf(userId, OnHost, hostId, event);
      RelateIf(hostId, Ran, procId, event);
      if procId.Some? && HasParent(event) {
        var p := event.parent.value;
        var parentId := UpsertEntity(ProcessEntity, ProcessKey(p), p.name.value, event, map[]);
        RelateIf(procId, ChildOf, Some(parentId), event);
      }
      Assoc3(old(ties), TieIf(tenantId, userId, OnHost, hostId, event), TieIf(tenantId, hostId, Ran, procId, event),
             TieIf(tenantId, procId, ChildOf, ParentOf(tenantId, event), event));
    }

    /** One event: everything it mentions and every relation it shows, in the order of the source. */
    method Observe(event: Event)
      requires Valid()
      modifies this
      ensures Valid()
      ensures sightings == old(sightings) + Sightings(tenantId, event)
      ensures ties == old(ties) + Ties(tenantId, event)
    {
      var userId, hostId, procId := ObserveActors(event);
      ObserveAddress(event, event.srcIp, "src", userId, UsedFrom, hostId);
      ObserveAddress(event, event.dstIp, "dst", hostId, ConnectedTo, procId);
      ObserveResources(event);
      ObserveLinks(event, userId, hostId, procId);
      Assoc2(old(ties), TieIf(tenantId, userId, UsedFrom, IpOf(tenantId, event.srcIp), event),
             TieIf(tenantId, hostId, ConnectedTo, IpOf(tenantId, event.srcIp), event));
      Assoc2(old(ties) + TieSource(tenantId, event), TieIf(tenantId, hostId, ConnectedTo, IpOf(tenantId, event.dstIp), event),
             TieIf(tenantId, procId, ConnectedTo, IpOf(tenantId, event.dstIp), event));
      Assoc3(old(ties), TieSource(tenantId, event), TieDestination(tenantId, event), TieDomain(tenantId, event));
      Assoc2(old(ties), TieSource(tenantId, event) + TieDestination(tenantId, event) + TieDomain(tenantId, event), TieActors(tenantId, event));
      Assoc3(old(sightings), SeeActors(tenantId, event), SeeIp(tenantId, event, event.srcIp, "src"), SeeIp(tenantId, event, event.dstIp, "dst"));
      Assoc3(old(sightings), SeeActors(tenantId, event) + SeeIp(tenantId, event, event.srcIp, "src") + SeeIp(tenantId, event, event.dstIp, "dst"),
             SeeResources(tenantId, event), SeeParent(tenantId, event));
    }
  }

  lemma Assoc2<T>(a: seq<T>, b: seq<T>, c: seq<T>)
    ensures a + (b + c) == a + b + c
  {
  }

  lemma Assoc3<T>(a: seq<T>, b: seq<T>, c: seq<T>, d: seq<T>)
    ensures a + (b + c + d) == a + b + c + d
  {
  }

  /** The loop over the events: exactly what they were seen to mention, and nothing else. */
  method BuildEntities(digest: Digest, tenantId: string, events: seq<Event>) returns (nodes: Nodes, edges: Edges)
    requires GoodDigest(digest)
    ensures Filed(digest, UpsertAll(AllSightings(tenantId, events)), nodes)
    ensures Drawn(digest, RelateAll(AllTies(tenantId, events)), edges)
  {
    var builder := new GraphBuilder(digest, tenantId);
    var i := 0;
    while i < |events|
      invariant 0 <= i <= |events| && builder.Valid()
      invariant builder.sightings == AllSightings(tenantId, events[..i])
      invariant builder.ties == AllTies(tenantId, events[..i])
    {
      assert events[..i+1][..i] == events[..i];
      builder.Observe(events[i]);
      i := i + 1;
    }
    assert events[..i] == events;
    return builder.nodes, builder.edges;
  }
}
