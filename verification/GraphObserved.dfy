/**
 The graph as it is observed: ids, spans, event ids and scores told from the events and findings
 alone.  Every graph that is built is of this kind.
 */
module GraphObserved {
  import opened Common
  import opened Graph
  import opened GraphIds
  import opened GraphBuilding
  import opened GraphTheorems
  import opened GraphNames
  import opened GraphRisk

  // ---------- entities ----------

  /** Filed under its id, named by some event, and with the event ids and span of those that name it. */
  ghost predicate NodeObserved(h: Digest, t: string, events: seq<Event>, nodes: Nodes, k: string)
    requires k in nodes
  {
    && k == EntityKey(h, nodes[k].id)
    && (exists e :: e in events && NamedBy(t, e, nodes[k].id))
    && Observed(t, events, nodes[k].id, nodes[k].seen)
  }

  ghost predicate NodeFor(h: Digest, t: string, events: seq<Event>, nodes: Nodes, e: Event, id: EntityId) {
    e in events && NamedBy(t, e, id) ==> EntityKey(h, id) in nodes && nodes[EntityKey(h, id)].id == id
  }

  ghost predicate NodesObserved(h: Digest, t: string, events: seq<Event>, nodes: Nodes) {
    && (forall k {:trigger NodeObserved(h, t, events, nodes, k)} :: k in nodes ==> NodeObserved(h, t, events, nodes, k))
    && (forall e, id {:trigger NodeFor(h, t, events, nodes, e, id)} :: NodeFor(h, t, events, nodes, e, id))
  }

  lemma FiledIsObserved(h: Digest, t: string, events: seq<Event>, nodes: Nodes)
    requires Filed(h, UpsertAll(AllSightings(t, events)), nodes)
    ensures NodesObserved(h, t, events, nodes)
  {
    var m := UpsertAll(AllSightings(t, events));
    forall k | k in nodes ensures NodeObserved(h, t, events, nodes, k) { FiledNodeObserved(h, t, events, m, nodes, k); }
    forall e, id ensures NodeFor(h, t, events, nodes, e, id) {
      if e in events && NamedBy(t, e, id) {
        MentionsIffNamed(t, e, id);
        EntitiesAreWhatWasObserved(t, events, id);
        assert FiledAt(h, m, nodes, id);
      }
    }
  }

  lemma FiledNodeObserved(h: Digest, t: string, events: seq<Event>, m: Entities, nodes: Nodes, k: string)
    requires m == UpsertAll(AllSightings(t, events)) && Filed(h, m, nodes) && k in nodes
    ensures NodeObserved(h, t, events, nodes, k)
  {
    var id := nodes[k].id;
    assert FiledFrom(h, m, nodes, k);
    assert FiledAt(h, m, nodes, id);
    EntitiesAreWhatWasObserved(t, events, id);
    var e :| e in events && Mentions(t, e, id);
    MentionsIffNamed(t, e, id);
  }

  /** The display name and attributes are those the first event that names the entity gives it. */
  ghost predicate NodeIntroduced(events: seq<Event>, nodes: Nodes, k: string)
    requires k in nodes
  {
    forall i: nat :: FirstNames(events, nodes[k].id, i) ==> Introduces(events[i], nodes[k].id, nodes[k].seen.displayName, nodes[k].seen.attributes)
  }

  ghost predicate FirstNames(events: seq<Event>, id: EntityId, i: nat) {
    i < |events| && Names(events[i], id) && forall j :: 0 <= j < i ==> !Names(events[j], id)
  }

  ghost predicate NodesIntroduced(events: seq<Event>, nodes: Nodes) {
    forall k {:trigger NodeIntroduced(events, nodes, k)} :: k in nodes ==> NodeIntroduced(events, nodes, k)
  }

  lemma FiledIsIntroduced(h: Digest, t: string, events: seq<Event>, nodes: Nodes)
    requires Filed(h, UpsertAll(AllSightings(t, events)), nodes)
    ensures NodesIntroduced(events, nodes)
  {
    var m := UpsertAll(AllSightings(t, events));
    forall k | k in nodes ensures NodeIntroduced(events, nodes, k) { FiledNodeIntroduced(h, t, events, m, nodes, k); }
  }

  lemma FiledNodeIntroduced(h: Digest, t: string, events: seq<Event>, m: Entities, nodes: Nodes, k: string)
    requires m == UpsertAll(AllSightings(t, events)) && Filed(h, m, nodes) && k in nodes
    ensures NodeIntroduced(events, nodes, k)
  {
    var id := nodes[k].id;
    FiledIsOfTenant(h, t, events, m, nodes, k);
    forall i: nat | FirstNames(events, id, i) ensures Introduces(events[i], id, nodes[k].seen.displayName, nodes[k].seen.attributes) {
      FirstEventNamesIt(t, events, id, i);
    }
  }

  lemma FiledIsOfTenant(h: Digest, t: string, events: seq<Event>, m: Entities, nodes: Nodes, k: string)
    requires m == UpsertAll(AllSightings(t, events)) && Filed(h, m, nodes) && k in nodes
    ensures var id := nodes[k].id; id.tenantId == t && id in m && nodes[k].seen == m[id]
  {
    FiledNodeObserved(h, t, events, m, nodes, k);
    assert FiledFrom(h, m, nodes, k);
    assert FiledAt(h, m, nodes, nodes[k].id);
    var e :| e in events && NamedBy(t, e, nodes[k].id);
  }

  // ---------- relations ----------

  /** Filed under its id, joined by some event, and with the event ids of those that join it. */
  ghost predicate EdgeObserved(h: Digest, t: string, events: seq<Event>, edges: Edges, k: string)
    requires k in edges
  {
    var r := edges[k].id;
    && k == RelationKey(h, r)
    && (exists e :: e in events && Joins(t, e, r))
    && (forall i :: i in edges[k].eventIds <==> exists e :: e in events && Joins(t, e, r) && e.id == i)
  }

  ghost predicate EdgeFor(h: Digest, t: string, events: seq<Event>, edges: Edges, e: Event, r: RelationId) {
    e in events && Joins(t, e, r) ==> RelationKey(h, r) in edges && edges[RelationKey(h, r)].id == r
  }

  ghost predicate EdgesObserved(h: Digest, t: string, events: seq<Event>, edges: Edges) {
    && (forall k {:trigger EdgeObserved(h, t, events, edges, k)} :: k in edges ==> EdgeObserved(h, t, events, edges, k))
    && (forall e, r {:trigger EdgeFor(h, t, events, edges, e, r)} :: EdgeFor(h, t, events, edges, e, r))
  }

  lemma DrawnIsObserved(h: Digest, t: string, events: seq<Event>, edges: Edges)
    requires Drawn(h, RelateAll(AllTies(t, events)), edges)
    ensures EdgesObserved(h, t, events, edges)
  {
    var m := RelateAll(AllTies(t, events));
    forall k | k in edges ensures EdgeObserved(h, t, events, edges, k) { DrawnEdgeObserved(h, t, events, m, edges, k); }
    forall e, r ensures EdgeFor(h, t, events, edges, e, r) {
      if e in events && Joins(t, e, r) {
        ShowsIffJoins(t, e, r);
        RelationsAreWhatWasObserved(t, events, r);
        assert DrawnAt(h, m, edges, r);
      }
    }
  }

  lemma DrawnEdgeObserved(h: Digest, t: string, events: seq<Event>, m: Relations, edges: Edges, k: string)
    requires m == RelateAll(AllTies(t, events)) && Drawn(h, m, edges) && k in edges
    ensures EdgeObserved(h, t, events, edges, k)
  {
    var r := edges[k].id;
    assert DrawnFrom(h, m, edges, k);
    assert DrawnAt(h, m, edges, r);
    RelationsAreWhatWasObserved(t, events, r);
    forall e ensures Shows(t, e, r) <==> Joins(t, e, r) { ShowsIffJoins(t, e, r); }
    var e :| e in events && Shows(t, e, r);
  }

  // ---------- the graph ----------

  ghost predicate RisksRated(nodes: Nodes, risks: map<string, Risk>, overrides: Criticalities, fs: seq<Finding>) {
    && risks.Keys == nodes.Keys
    && forall k {:trigger RiskFor(nodes, k, overrides, fs)} :: k in nodes ==> risks[k] == RiskFor(nodes, k, overrides, fs)
  }

  ghost predicate ObservedGraph(h: Digest, events: seq<Event>, fs: seq<Finding>, overrides: Criticalities, g: EntityGraph)
    requires events != []
  {
    && g.tenantId == events[0].tenantId
    && NodesObserved(h, g.tenantId, events, g.nodes)
    && NodesIntroduced(events, g.nodes)
    && EdgesObserved(h, g.tenantId, events, g.edges)
    && RisksRated(g.nodes, g.risks, overrides, fs)
  }

  /** No events: an empty graph for the tenant of the first finding.  Otherwise what was observed, filed
      under the tenant of the first event. */
  method BuildGraph(digest: Digest, events: seq<Event>, fs: seq<Finding>, overrides: Criticalities) returns (g: EntityGraph)
    requires GoodDigest(digest)
    ensures events == [] ==> g == EntityGraph(if fs == [] then "" else fs[0].tenantId, map[], map[], map[])
    ensures events != [] ==> ObservedGraph(digest, events, fs, overrides, g)
  {
    if events == [] {
      return EntityGraph(if fs == [] then "" else fs[0].tenantId, map[], map[], map[]);
    }
    var t := events[0].tenantId;
    var nodes, edges := BuildEntities(digest, t, events);
    FiledIsObserved(digest, t, events, nodes);
    FiledIsIntroduced(digest, t, events, nodes);
    DrawnIsObserved(digest, t, events, edges);
    var risks := RateAll(nodes, overrides, fs);
    g := EntityGraph(t, nodes, risks, edges);
  }
}
