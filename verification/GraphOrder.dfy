/** What the order of events and findings does to the graph that is built from them. */
module GraphOrder {
  import opened Common
  import opened Graph
  import opened GraphIds
  import opened GraphBuilding
  import opened GraphTheorems
  import opened GraphRisk
  import opened GraphObserved

  // ---------- two graphs alike ----------

  ghost predicate SameEvents(events: seq<Event>, events': seq<Event>) {
    forall e :: e in events <==> e in events'
  }

  /** `x'` has seen all that `x` has. */
  ghost predicate Covers(x': Entity, x: Entity) {
    x'.firstSeen <= x.firstSeen && x.lastSeen <= x'.lastSeen && forall i :: i in x.eventIds ==> i in x'.eventIds
  }

  ghost predicate NodesAlike(g: Nodes, g': Nodes) {
    g.Keys == g'.Keys && forall k {:trigger NodeAlike(g, g', k)} :: k in g && k in g' ==> NodeAlike(g, g', k)
  }

  ghost predicate NodeAlike(g: Nodes, g': Nodes, k: string)
    requires k in g && k in g'
  {
    g[k].id == g'[k].id && Covers(g[k].seen, g'[k].seen) && Covers(g'[k].seen, g[k].seen)
  }

  ghost predicate EdgesAlike(x: Edges, x': Edges) {
    x.Keys == x'.Keys && forall k {:trigger EdgeAlike(x, x', k)} :: k in x && k in x' ==> EdgeAlike(x, x', k)
  }

  ghost predicate EdgeAlike(x: Edges, x': Edges, k: string)
    requires k in x && k in x'
  {
    x[k].id == x'[k].id && forall i :: i in x[k].eventIds <==> i in x'[k].eventIds
  }

  ghost predicate ScoresAlike(g: EntityGraph, g': EntityGraph) {
    g.risks.Keys == g'.risks.Keys && forall k :: k in g.risks ==> g.risks[k].score == g'.risks[k].score
  }

  /** The same entities with the same event ids and spans, the same relations with the same event ids,
      and the same scores. */
  ghost predicate Alike(g: EntityGraph, g': EntityGraph) {
    NodesAlike(g.nodes, g'.nodes) && EdgesAlike(g.edges, g'.edges) && ScoresAlike(g, g')
  }

  lemma ObservedAlike(t: string, events: seq<Event>, events': seq<Event>, id: EntityId, x: Entity, x': Entity)
    requires SameEvents(events, events') && Observed(t, events, id, x) && Observed(t, events', id, x')
    ensures Covers(x', x)
  {
    var a :| a in events && Mentions(t, a, id) && a.time == x.firstSeen;
    var b :| b in events && Mentions(t, b, id) && b.time == x.lastSeen;
    forall i | i in x.eventIds ensures i in x'.eventIds {
      var e :| e in events && Mentions(t, e, id) && e.id == i;
      assert e in events';
    }
  }

  lemma NodesFollow(h: Digest, t: string, events: seq<Event>, events': seq<Event>, nodes: Nodes, nodes': Nodes, k: string)
    requires SameEvents(events, events') && k in nodes
    requires NodesObserved(h, t, events, nodes) && NodesObserved(h, t, events', nodes')
    ensures k in nodes' && NodeAlike(nodes, nodes', k)
  {
    var id := nodes[k].id;
    assert NodeObserved(h, t, events, nodes, k);
    var e :| e in events && NamedBy(t, e, id);
    assert NodeFor(h, t, events', nodes', e, id);
    assert NodeObserved(h, t, events', nodes', k);
    ObservedAlike(t, events, events', id, nodes[k].seen, nodes'[k].seen);
    ObservedAlike(t, events', events, id, nodes'[k].seen, nodes[k].seen);
  }

  lemma EdgesFollow(h: Digest, t: string, events: seq<Event>, events': seq<Event>, edges: Edges, edges': Edges, k: string)
    requires SameEvents(events, events') && k in edges
    requires EdgesObserved(h, t, events, edges) && EdgesObserved(h, t, events', edges')
    ensures k in edges' && EdgeAlike(edges, edges', k)
  {
    var r := edges[k].id;
    assert EdgeObserved(h, t, events, edges, k);
    var e :| e in events && Joins(t, e, r);
    assert EdgeFor(h, t, events', edges', e, r);
    assert EdgeObserved(h, t, events', edges', k);
  }

  lemma ScoreFollows(nodes: Nodes, nodes': Nodes, k: string, overrides: Criticalities, fs: seq<Finding>, fs': seq<Finding>)
    requires k in nodes && k in nodes' && NodeAlike(nodes, nodes', k) && multiset(fs) == multiset(fs')
    ensures RiskFor(nodes, k, overrides, fs).score == RiskFor(nodes', k, overrides, fs').score
  {
    RawFollowsIds(nodes[k].id, nodes[k].seen, nodes'[k].seen, fs);
    RawPermutes(nodes[k].id, nodes'[k].seen, fs, fs');
  }

  lemma SameNodes(h: Digest, t: string, events: seq<Event>, events': seq<Event>, nodes: Nodes, nodes': Nodes)
    requires SameEvents(events, events') && NodesObserved(h, t, events, nodes) && NodesObserved(h, t, events', nodes')
    ensures NodesAlike(nodes, nodes')
  {
    forall k | k in nodes ensures k in nodes' && NodeAlike(nodes, nodes', k) { NodesFollow(h, t, events, events', nodes, nodes', k); }
    forall k | k in nodes' ensures k in nodes { NodesFollow(h, t, events', events, nodes', nodes, k); }
  }

  lemma SameEdges(h: Digest, t: string, events: seq<Event>, events': seq<Event>, edges: Edges, edges': Edges)
    requires SameEvents(events, events') && EdgesObserved(h, t, events, edges) && EdgesObserved(h, t, events', edges')
    ensures EdgesAlike(edges, edges')
  {
    forall k | k in edges ensures k in edges' && EdgeAlike(edges, edges', k) { EdgesFollow(h, t, events, events', edges, edges', k); }
    forall k | k in edges' ensures k in edges { EdgesFollow(h, t, events', events, edges', edges, k); }
  }

  lemma SameScores(g: EntityGraph, g': EntityGraph, overrides: Criticalities, fs: seq<Finding>, fs': seq<Finding>)
    requires NodesAlike(g.nodes, g'.nodes) && multiset(fs) == multiset(fs')
    requires RisksRated(g.nodes, g.risks, overrides, fs) && RisksRated(g'.nodes, g'.risks, overrides, fs')
    ensures ScoresAlike(g, g')
  {
    forall k | k in g.risks ensures k in g'.risks && g.risks[k].score == g'.risks[k].score {
      assert NodeAlike(g.nodes, g'.nodes, k);
      ScoreFollows(g.nodes, g'.nodes, k, overrides, fs, fs');
    }
  }

  lemma SameHeadAlike(h: Digest, events: seq<Event>, events': seq<Event>, fs: seq<Finding>, fs': seq<Finding>, overrides: Criticalities,
                      g: EntityGraph, g': EntityGraph)
    requires SameEvents(events, events') && multiset(fs) == multiset(fs')
    requires events != [] && events' != [] && events[0].tenantId == events'[0].tenantId
    requires ObservedGraph(h, events, fs, overrides, g) && ObservedGraph(h, events', fs', overrides, g')
    ensures Alike(g, g')
  {
    SameNodes(h, g.tenantId, events, events', g.nodes, g'.nodes);
    SameEdges(h, g.tenantId, events, events', g.edges, g'.edges);
    SameScores(g, g', overrides, fs, fs');
  }

  // ---------- events of several tenants ----------

  /** The event names nothing a graph would have an entity for. */
  predicate NamesNothing(e: Event) {
    !HasUser(e) && !HasHost(e) && !HasProcess(e) && !Has(e.srcIp) && !Has(e.dstIp) && !Has(e.domain) && !HasCloud(e)
  }

  lemma NamedIsLow(t: string, e: Event, id: EntityId)
    requires NamedBy(t, e, id)
    ensures id.tenantId == t && LowKey(id) && !NamesNothing(e)
    ensures forall t' :: NamedBy(t', e, id.(tenantId := t'))
  {
    match id.kind {
      case UserEntity => LowerIsLow(e.user.value.name.value);
      case HostEntity => LowerIsLow(if Has(e.host.value.id) then e.host.value.id.value else e.host.value.name.value);
      case ProcessEntity =>
        LowerIsLow(ProcessKey(e.process.value));
        if HasParent(e) { LowerIsLow(ProcessKey(e.parent.value)); }
      case IpEntity =>
        if Has(e.srcIp) { LowerIsLow(e.srcIp.value); }
        if Has(e.dstIp) { LowerIsLow(e.dstIp.value); }
      case DomainEntity => LowerIsLow(e.domain.value);
      case CloudEntity => LowerIsLow(if Has(e.cloud.value.resourceId) then e.cloud.value.resourceId.value else e.cloud.value.accountId.value);
    }
  }

  /** An entity of the graph is named by some event. */
  lemma NodeIsNamed(h: Digest, t: string, events: seq<Event>, nodes: Nodes, k: string) returns (e: Event)
    requires NodesObserved(h, t, events, nodes) && k in nodes
    ensures k == EntityKey(h, nodes[k].id) && e in events && NamedBy(t, e, nodes[k].id)
  {
    assert NodeObserved(h, t, events, nodes, k);
    e :| e in events && NamedBy(t, e, nodes[k].id);
  }

  /** What an event names is an entity of the graph. */
  lemma NamedIsNode(h: Digest, t: string, events: seq<Event>, nodes: Nodes, e: Event, id: EntityId)
    requires NodesObserved(h, t, events, nodes) && e in events && NamedBy(t, e, id)
    ensures EntityKey(h, id) in nodes && nodes[EntityKey(h, id)].id == id
  {
    assert NodeFor(h, t, events, nodes, e, id);
  }

  /** A relation of the graph is of its tenant and joined by some event. */
  lemma EdgeIsJoined(h: Digest, t: string, events: seq<Event>, edges: Edges, k: string) returns (e: Event)
    requires EdgesObserved(h, t, events, edges) && k in edges
    ensures k == RelationKey(h, edges[k].id) && edges[k].id.tenantId == t
    ensures e in events && !NamesNothing(e)
  {
    assert EdgeObserved(h, t, events, edges, k);
    e :| e in events && Joins(t, e, edges[k].id);
  }

  /** If the first events are of different tenants, the two graphs have no relation in common, and no
      entity either unless one tenant's name extends the other's with the name of a kind. */
  lemma DifferentHeadsShareNothing(h: Digest, events: seq<Event>, events': seq<Event>, fs: seq<Finding>, fs': seq<Finding>, overrides: Criticalities,
                                   g: EntityGraph, g': EntityGraph)
    requires GoodDigest(h) && events != [] && events' != [] && events[0].tenantId != events'[0].tenantId
    requires ObservedGraph(h, events, fs, overrides, g) && ObservedGraph(h, events', fs', overrides, g')
    ensures forall k :: k in g.edges ==> k !in g'.edges
    ensures !Extends(g.tenantId, g'.tenantId) && !Extends(g'.tenantId, g.tenantId) ==> forall k :: k in g.nodes ==> k !in g'.nodes
  {
    forall k | k in g.edges ensures k !in g'.edges {
      var e := EdgeIsJoined(h, g.tenantId, events, g.edges, k);
      if k in g'.edges {
        var e' := EdgeIsJoined(h, g'.tenantId, events', g'.edges, k);
        RelationKeysNeverCollide(h, g.edges[k].id, g'.edges[k].id);
      }
    }
    if k :| k in g.nodes && k in g'.nodes { SharedKeyExtends(h, events, events', g.tenantId, g'.tenantId, g.nodes, g'.nodes, k); }
  }

  lemma SharedKeyExtends(h: Digest, events: seq<Event>, events': seq<Event>, t: string, t': string, nodes: Nodes, nodes': Nodes, k: string)
    requires GoodDigest(h) && t != t' && k in nodes && k in nodes'
    requires NodesObserved(h, t, events, nodes) && NodesObserved(h, t', events', nodes')
    ensures Extends(t, t') || Extends(t', t)
  {
    var e := NodeIsNamed(h, t, events, nodes, k);
    var e' := NodeIsNamed(h, t', events', nodes', k);
    NamedIsLow(t, e, nodes[k].id);
    NamedIsLow(t', e', nodes'[k].id);
    KeyTellsEntity(h, nodes[k].id, nodes'[k].id);
    IdsCollideIff(t, t');
  }

  lemma NothingNamedNothingBuilt(h: Digest, events: seq<Event>, fs: seq<Finding>, overrides: Criticalities, g: EntityGraph)
    requires events != [] && (forall e :: e in events ==> NamesNothing(e)) && ObservedGraph(h, events, fs, overrides, g)
    ensures g.nodes == map[] && g.edges == map[] && g.risks == map[]
  {
    forall k ensures k !in g.nodes {
      if k in g.nodes {
        var e := NodeIsNamed(h, g.tenantId, events, g.nodes, k);
        NamedIsLow(g.tenantId, e, g.nodes[k].id);
      }
    }
    forall k ensures k !in g.edges {
      if k in g.edges { var e := EdgeIsJoined(h, g.tenantId, events, g.edges, k); }
    }
    assert g.risks.Keys == {};
  }

  function SomethingNamed(t: string, e: Event): (id: EntityId)
    requires !NamesNothing(e)
    ensures NamedBy(t, e, id)
  {
    if HasUser(e) then UserId(t, e)
    else if HasHost(e) then HostId(t, e)
    else if HasProcess(e) then ProcId(t, e)
    else if Has(e.srcIp) then IpId(t, e.srcIp.value)
    else if Has(e.dstIp) then IpId(t, e.dstIp.value)
    else if Has(e.domain) then DomainId(t, e)
    else IdOf(t, CloudEntity, CloudKey(e))
  }

  lemma {:induction false} Longest(nodes: Nodes, ks: set<string>) returns (k: string)
    requires ks != {} && ks <= nodes.Keys
    ensures k in ks && forall l :: l in ks ==> |IdText(nodes[l].id)| <= |IdText(nodes[k].id)|
    decreases ks
  {
    var l :| l in ks;
    if ks == {l} {
      k := l;
    } else {
      k := Longest(nodes, ks - {l});
      if |IdText(nodes[l].id)| > |IdText(nodes[k].id)| { k := l; }
    }
  }

  lemma SwappedTextLength(id: EntityId, t: string)
    ensures |IdText(id.(tenantId := t))| == |IdText(id)| - |id.tenantId| + |t|
  {
  }

  /** The graph under the longer of two tenants has an id that the other does not: that of what is named by
      the longest text under the shorter. */
  lemma LongerTenantDiffers(h: Digest, t: string, t': string, events: seq<Event>, events': seq<Event>, nodes: Nodes, nodes': Nodes)
    requires GoodDigest(h) && SameEvents(events, events') && |t| < |t'| && nodes != map[]
    requires NodesObserved(h, t, events, nodes) && NodesObserved(h, t', events', nodes')
    ensures nodes.Keys != nodes'.Keys
  {
    var some :| some in nodes;
    var k := Longest(nodes, nodes.Keys);
    var e := NodeIsNamed(h, t, events, nodes, k);
    NamedIsLow(t, e, nodes[k].id);
    var id := nodes[k].id.(tenantId := t');
    NamedIsNode(h, t', events', nodes', e, id);
    SwappedTextLength(nodes[k].id, t');
    if EntityKey(h, id) in nodes {
      var f := NodeIsNamed(h, t, events, nodes, EntityKey(h, id));
      KeyTellsEntity(h, nodes[EntityKey(h, id)].id, id);
    }
  }

  lemma SameLengthDiffers(h: Digest, t: string, t': string, events: seq<Event>, events': seq<Event>, nodes: Nodes, nodes': Nodes)
    requires GoodDigest(h) && t != t' && |t| == |t'| && nodes != map[]
    requires NodesObserved(h, t, events, nodes) && NodesObserved(h, t', events', nodes')
    ensures nodes.Keys != nodes'.Keys
  {
    var k :| k in nodes;
    if k in nodes' {
      SharedKeyExtends(h, events, events', t, t', nodes, nodes', k);
      if Extends(t, t') { ExtendedIsLonger(t, t'); } else { ExtendedIsLonger(t', t); }
    }
  }

  lemma ExtendedIsLonger(t: string, t': string)
    requires Extends(t, t')
    ensures |t| < |t'|
  {
    var k, r :| t' == Extended(t, k, r) && (r == "" || r[0] == '|') && LowCase(r);
  }

  lemma DifferentHeadsDiffer(h: Digest, events: seq<Event>, events': seq<Event>, fs: seq<Finding>, fs': seq<Finding>, overrides: Criticalities,
                             g: EntityGraph, g': EntityGraph)
    requires GoodDigest(h) && SameEvents(events, events') && events != [] && events' != [] && events[0].tenantId != events'[0].tenantId
    requires exists e :: e in events && !NamesNothing(e)
    requires ObservedGraph(h, events, fs, overrides, g) && ObservedGraph(h, events', fs', overrides, g')
    ensures !NodesAlike(g.nodes, g'.nodes)
  {
    var e :| e in events && !NamesNothing(e);
    var t, t' := g.tenantId, g'.tenantId;
    NamedIsNode(h, t, events, g.nodes, e, SomethingNamed(t, e));
    NamedIsNode(h, t', events', g'.nodes, e, SomethingNamed(t', e));
    if |t| < |t'| { LongerTenantDiffers(h, t, t', events, events', g.nodes, g'.nodes); }
    else if |t'| < |t| { LongerTenantDiffers(h, t', t, events', events, g'.nodes, g.nodes); }
    else { SameLengthDiffers(h, t, t', events, events', g.nodes, g'.nodes); }
  }

  /** Building a graph from the same events and findings in another order gives the same entities,
      relations and scores if and only if the first event is of the same tenant, or no event names
      anything at all. */
  lemma BuildIgnoresOrderIff(h: Digest, events: seq<Event>, events': seq<Event>, fs: seq<Finding>, fs': seq<Finding>, overrides: Criticalities,
                             g: EntityGraph, g': EntityGraph)
    requires GoodDigest(h) && SameEvents(events, events') && multiset(fs) == multiset(fs') && events != [] && events' != []
    requires ObservedGraph(h, events, fs, overrides, g) && ObservedGraph(h, events', fs', overrides, g')
    ensures Alike(g, g') <==> events[0].tenantId == events'[0].tenantId || forall e :: e in events ==> NamesNothing(e)
  {
    if events[0].tenantId == events'[0].tenantId {
      SameHeadAlike(h, events, events', fs, fs', overrides, g, g');
    } else if forall e :: e in events ==> NamesNothing(e) {
      NothingNamedNothingBuilt(h, events, fs, overrides, g);
      NothingNamedNothingBuilt(h, events', fs', overrides, g');
    } else {
      DifferentHeadsDiffer(h, events, events', fs, fs', overrides, g, g');
    }
  }

  // ---------- two tenants ----------

  function UserEvent(id: string, tenantId: string, name: string): Event {
    Event(id, tenantId, 0, Some(User(Some(name), None)), None, None, None, None, None, None, None)
  }

  function AddressEvent(id: string, tenantId: string, ip: string): Event {
    Event(id, tenantId, 0, None, None, None, None, Some(ip), None, None, None)
  }

  /** Two events of two tenants: swapping them moves the one user from one tenant's graph to the other's. */
  lemma SwappingTenantsChangesTheGraph(h: Digest, g: EntityGraph, g': EntityGraph)
    requires var e, f := UserEvent("1", "ten_a", "u"), UserEvent("2", "ten_b", "u");
      GoodDigest(h) && ObservedGraph(h, [e, f], [], map[], g) && ObservedGraph(h, [f, e], [], map[], g')
    ensures var k := EntityKey(h, IdOf("ten_a", UserEntity, "u")); k in g.nodes && k !in g'.nodes
  {
    var e, f := UserEvent("1", "ten_a", "u"), UserEvent("2", "ten_b", "u");
    var es, es' := [e, f], [f, e];
    var id := IdOf("ten_a", UserEntity, "u");
    assert es[0] == e && es'[0] == f && g.tenantId == "ten_a" && g'.tenantId == "ten_b";
    NamedIsNode(h, "ten_a", es, g.nodes, e, id);
    var k := EntityKey(h, id);
    if k in g'.nodes {
      SharedKeyExtends(h, es, es', "ten_a", "ten_b", g.nodes, g'.nodes, k);
      if Extends("ten_a", "ten_b") { ExtendedIsLonger("ten_a", "ten_b"); } else { ExtendedIsLonger("ten_b", "ten_a"); }
    }
  }

  /** A tenant whose name extends another's: the user `ip|x` of the one and the address `x` of the other
      have the same id. */
  lemma ExtendedTenantSharesAnId(h: Digest, g: EntityGraph, g': EntityGraph)
    requires var e, f := UserEvent("1", "ten_a", "ip|x"), AddressEvent("2", "ten_a|user", "x");
      GoodDigest(h) && ObservedGraph(h, [e, f], [], map[], g) && ObservedGraph(h, [f, e], [], map[], g')
    ensures var k := EntityKey(h, IdOf("ten_a", UserEntity, "ip|x"));
      k in g.nodes && k in g'.nodes && g.nodes[k].id.kind == UserEntity && g'.nodes[k].id.kind == IpEntity
  {
    var e, f := UserEvent("1", "ten_a", "ip|x"), AddressEvent("2", "ten_a|user", "x");
    var es, es' := [e, f], [f, e];
    var id, id' := IdOf("ten_a", UserEntity, "ip|x"), IdOf("ten_a|user", IpEntity, "x");
    assert es[0] == e && es'[0] == f && f in es' && g.tenantId == "ten_a" && g'.tenantId == "ten_a|user";
    NamedIsNode(h, "ten_a", es, g.nodes, e, id);
    NamedIsNode(h, "ten_a|user", es', g'.nodes, f, id');
    SharedText();
  }

  lemma SharedText()
    ensures IdText(IdOf("ten_a", UserEntity, "ip|x")) == IdText(IdOf("ten_a|user", IpEntity, "x"))
  {
    LowerOfLow("ip|x");
    LowerOfLow("x");
    assert "ten_a" + "|" + "user" + "|" + "ip|x" == "ten_a|user" + "|" + "ip" + "|" + "x";
  }

  lemma {:induction false} LowerOfLow(s: string)
    requires LowCase(s)
    ensures Lower(s) == s
  {
    if s != "" {
      LowerOfLow(s[1..]);
      assert s == [s[0]] + s[1..];
    }
  }
}
