/**
 The risk of an entity told from the events and findings: which findings concern it, and what each adds.
 */
module GraphConcerns {
  import opened Common
  import opened Graph
  import opened GraphIds
  import opened GraphBuilding
  import opened GraphTheorems
  import opened GraphNames
  import opened GraphRisk
  import opened GraphObserved

  // ---------- what concerns an entity ----------

  /** The finding cites an event that names the entity. */
  ghost predicate Cites(events: seq<Event>, id: EntityId, f: Finding) {
    exists e :: e in events && Names(e, id) && e.id in f.eventIds
  }

  /** The finding's attribute is the entity's key but for capital letters; an absent attribute is empty. */
  predicate Carries(f: Finding, attribute: string, key: string) {
    IsInSmall(key, if attribute in f.attributes then f.attributes[attribute] else "")
  }

  function Around(before: string, s: string, after: string): string { before + s + after }

  /** The process attribute, in small letters, is a part of the key and not empty. */
  ghost predicate PartOf(f: Finding, key: string) {
    exists before, name, after {:trigger Around(before, name, after)} ::
      name != "" && key == Around(before, name, after) && "process" in f.attributes && IsInSmall(name, f.attributes["process"])
  }

  ghost predicate Attributes(id: EntityId, f: Finding) {
    match id.kind
    case UserEntity => Carries(f, "user", id.key)
    case HostEntity => Carries(f, "host", id.key)
    case IpEntity => Carries(f, "src_ip", id.key) || Carries(f, "dst_ip", id.key)
    case ProcessEntity => PartOf(f, id.key)
    case _ => false
  }

  /** A finding of the tenant concerns an entity if it cites an event that names it or has it among its attributes. */
  ghost predicate Concerns(t: string, events: seq<Event>, id: EntityId, f: Finding) {
    f.tenantId == t && (Cites(events, id, f) || Attributes(id, f))
  }

  lemma CarriesIffAttr(f: Finding, attribute: string, key: string)
    ensures Carries(f, attribute, key) <==> Attr(f, attribute) == key
  {
    OneInSmall(key, if attribute in f.attributes then f.attributes[attribute] else "");
  }

  lemma PartIsContained(f: Finding, key: string, before: string, name: string, after: string)
    requires name != "" && key == Around(before, name, after) && "process" in f.attributes && IsInSmall(name, f.attributes["process"])
    ensures Attr(f, "process") == name && Contains(key, name)
  {
    OneInSmall(name, f.attributes["process"]);
    assert key[|before|..|before| + |name|] == name;
    assert OccursAt(key, name, |before|);
  }

  lemma ContainedIsPart(f: Finding, key: string)
    requires Attr(f, "process") != "" && Contains(key, Attr(f, "process"))
    ensures PartOf(f, key)
  {
    var name := Attr(f, "process");
    var i :| 0 <= i <= |key| && OccursAt(key, name, i);
    assert key == Around(key[..i], name, key[i + |name|..]);
    assert "process" in f.attributes by { assert Lower("") == ""; }
    OneInSmall(name, f.attributes["process"]);
  }

  lemma PartIffContains(f: Finding, key: string)
    ensures PartOf(f, key) <==> Attr(f, "process") != "" && Contains(key, Attr(f, "process"))
  {
    if PartOf(f, key) {
      var before, name, after :| name != "" && key == Around(before, name, after) && "process" in f.attributes && IsInSmall(name, f.attributes["process"]);
      PartIsContained(f, key, before, name, after);
    }
    if Attr(f, "process") != "" && Contains(key, Attr(f, "process")) { ContainedIsPart(f, key); }
  }

  ghost predicate Shares(x: Entity, f: Finding) { exists i :: i in x.eventIds && i in f.eventIds }

  lemma TouchesIff(id: EntityId, x: Entity, f: Finding)
    ensures Touches(id, x, f) <==> Shares(x, f) || ByAttribute(id, f)
  {
  }

  lemma SharedIffCites(t: string, events: seq<Event>, id: EntityId, x: Entity, f: Finding)
    requires Observed(t, events, id, x) && id.tenantId == t
    ensures Shares(x, f) <==> Cites(events, id, f)
  {
    if i :| i in x.eventIds && i in f.eventIds {
      var e :| e in events && Mentions(t, e, id) && e.id == i;
      MentionsIffNames(t, e, id);
    }
    if Cites(events, id, f) {
      var e :| e in events && Names(e, id) && e.id in f.eventIds;
      MentionsIffNames(t, e, id);
      assert e.id in x.eventIds;
    }
  }

  predicate ByAttribute(id: EntityId, f: Finding) {
    match id.kind
    case UserEntity => Attr(f, "user") == id.key
    case HostEntity => Attr(f, "host") == id.key
    case IpEntity => Attr(f, "src_ip") == id.key || Attr(f, "dst_ip") == id.key
    case ProcessEntity => Attr(f, "process") != "" && Contains(id.key, Attr(f, "process"))
    case _ => false
  }

  lemma AttributeIff(id: EntityId, f: Finding)
    ensures ByAttribute(id, f) <==> Attributes(id, f)
  {
    match id.kind {
      case UserEntity => CarriesIffAttr(f, "user", id.key);
      case HostEntity => CarriesIffAttr(f, "host", id.key);
      case IpEntity =>
        CarriesIffAttr(f, "src_ip", id.key);
        CarriesIffAttr(f, "dst_ip", id.key);
      case ProcessEntity => PartIffContains(f, id.key);
      case _ =>
    }
  }

  lemma CountsIffConcerns(h: Digest, t: string, events: seq<Event>, nodes: Nodes, k: string, f: Finding)
    requires NodesObserved(h, t, events, nodes) && k in nodes
    ensures Counts(nodes[k].id, nodes[k].seen, f) <==> Concerns(t, events, nodes[k].id, f)
  {
    NodeIsOfTenant(h, t, events, nodes, k);
    SharedIffCites(t, events, nodes[k].id, nodes[k].seen, f);
    AttributeIff(nodes[k].id, f);
    TouchesIff(nodes[k].id, nodes[k].seen, f);
  }

  lemma NodeIsOfTenant(h: Digest, t: string, events: seq<Event>, nodes: Nodes, k: string)
    requires NodesObserved(h, t, events, nodes) && k in nodes
    ensures nodes[k].id.tenantId == t && Observed(t, events, nodes[k].id, nodes[k].seen)
  {
    assert NodeObserved(h, t, events, nodes, k);
    var e :| e in events && NamedBy(t, e, nodes[k].id);
  }

  // ---------- the findings of an entity ----------

  /** The findings that concern the entity, in order. */
  ghost function Concerning(t: string, events: seq<Event>, id: EntityId, fs: seq<Finding>): seq<Finding> {
    if fs == [] then []
    else if Concerns(t, events, id, fs[0]) then [fs[0]] + Concerning(t, events, id, fs[1..])
    else Concerning(t, events, id, fs[1..])
  }

  lemma {:induction false} ConcerningMore(t: string, events: seq<Event>, id: EntityId, fs: seq<Finding>, f: Finding)
    ensures Concerning(t, events, id, fs + [f]) == Concerning(t, events, id, fs) + if Concerns(t, events, id, f) then [f] else []
  {
    if fs == [] {
      assert [f][1..] == [];
    } else {
      ConcerningMore(t, events, id, fs[1..], f);
      assert (fs + [f])[1..] == fs[1..] + [f];
    }
  }

  /** Hundredths of a point for a finding alone. */
  function Weight(f: Finding): nat {
    match f.severity
    case Critical => 4000
    case High => 2500
    case Medium => 1200
    case Low => 500
    case _ => 100
  }

  function Weights(fs: seq<Finding>): nat {
    if fs == [] then 0 else Weights(fs[..|fs|-1]) + Weight(fs[|fs|-1])
  }

  /** One component for each finding, and the ids in the same order. */
  ghost predicate Itemised(r: Risk, own: seq<Finding>) {
    && |r.findingIds| == |own| <= |r.components|
    && forall i :: 0 <= i < |own| ==>
         && r.findingIds[i] == own[i].id
         && r.components[i] == Component(own[i].id, if "intel." <= own[i].ruleId then Intel else Detection, Weight(own[i]))
  }

  /** The percentage by which criticality scales. */
  function Percent(c: Criticality): nat {
    match c
    case LowAsset => 80
    case HighAsset => 125
    case CrownJewel => 150
    case _ => 100
  }

  /** What criticality adds, or takes away, has a component of its own unless it changes nothing. */
  ghost predicate Scaled(r: Risk, own: seq<Finding>, c: Criticality)
    requires |own| <= |r.components|
  {
    match c
    case LowAsset => r.components[|own|..] == [Component("criticality:low", CriticalityKind, -20 * Weights(own) / 100)]
    case HighAsset => r.components[|own|..] == [Component("criticality:high", CriticalityKind, 25 * Weights(own) / 100)]
    case CrownJewel => r.components[|own|..] == [Component("criticality:crown_jewel", CriticalityKind, 50 * Weights(own) / 100)]
    case _ => |r.components| == |own|
  }

  /** The whole risk: findings, components and score are told from the findings that concern the entity. */
  ghost predicate Told(r: Risk, own: seq<Finding>, c: Criticality) {
    && Itemised(r, own) && Scaled(r, own, c)
    && r.score == if Weights(own) * Percent(c) >= 1_000_000 then 10_000 else Weights(own) * Percent(c) / 100
  }

  lemma WeightsMore(fs: seq<Finding>, f: Finding)
    ensures Weights(fs + [f]) == Weights(fs) + Weight(f)
  {
    assert (fs + [f])[..|fs|] == fs;
  }

  lemma WeightIs(f: Finding)
    ensures Weight(f) == SeverityPoints(f.severity) * 100 && ComponentOf(f).points == Weight(f)
  {
  }

  /** What is counted over `fs` is `own`, item by item. */
  ghost predicate CountsOut(id: EntityId, x: Entity, fs: seq<Finding>, own: seq<Finding>) {
    && |CountedIds(id, x, fs)| == |own| == |CountedComponents(id, x, fs)|
    && (forall i :: 0 <= i < |own| ==> CountedIds(id, x, fs)[i] == own[i].id && CountedComponents(id, x, fs)[i] == ComponentOf(own[i]))
    && Raw(id, x, fs) * 100 == Weights(own)
  }

  lemma CountsOneMore(id: EntityId, x: Entity, init: seq<Finding>, own: seq<Finding>, f: Finding)
    requires CountsOut(id, x, init, own)
    ensures if Counts(id, x, f) then CountsOut(id, x, init + [f], own + [f]) else CountsOut(id, x, init + [f], own)
  {
    assert (init + [f])[..|init|] == init;
    WeightIs(f);
    WeightsMore(own, f);
  }

  lemma {:induction false} CountedAreConcerning(h: Digest, t: string, events: seq<Event>, nodes: Nodes, k: string, fs: seq<Finding>)
    requires NodesObserved(h, t, events, nodes) && k in nodes
    ensures CountsOut(nodes[k].id, nodes[k].seen, fs, Concerning(t, events, nodes[k].id, fs))
  {
    if fs != [] {
      var init, f := fs[..|fs|-1], fs[|fs|-1];
      assert fs == init + [f];
      CountedAreConcerning(h, t, events, nodes, k, init);
      var own := Concerning(t, events, nodes[k].id, init);
      CountsOneMore(nodes[k].id, nodes[k].seen, init, own, f);
      ConcerningMore(t, events, nodes[k].id, init, f);
      CountsIffConcerns(h, t, events, nodes, k, f);
      assert own + [] == own;
    }
  }

  lemma ScaleIs(c: Criticality, raw: nat)
    ensures Factor(c) == Percent(c)
    ensures Factor(c) != 100 ==> CriticalityComponents(c, raw) == [Component("criticality:" + CriticalityName(c), CriticalityKind, raw * (Percent(c) - 100))]
    ensures Factor(c) == 100 ==> CriticalityComponents(c, raw) == []
  {
  }

  lemma ScaledByCriticality(r: Risk, own: seq<Finding>, c: Criticality, raw: nat)
    requires |own| <= |r.components| && r.components[|own|..] == CriticalityComponents(c, raw) && Weights(own) == raw * 100
    ensures Scaled(r, own, c)
  {
    ScaleIs(c, raw);
    SourceIs(c);
    match c {
      case LowAsset => assert raw * -20 == -20 * Weights(own) / 100;
      case HighAsset => assert raw * 25 == 25 * Weights(own) / 100;
      case CrownJewel => assert raw * 50 == 50 * Weights(own) / 100;
      case _ =>
    }
  }

  lemma SourceIs(c: Criticality)
    ensures c == LowAsset ==> "criticality:" + CriticalityName(c) == "criticality:low"
    ensures c == HighAsset ==> "criticality:" + CriticalityName(c) == "criticality:high"
    ensures c == CrownJewel ==> "criticality:" + CriticalityName(c) == "criticality:crown_jewel"
  {
  }

  lemma ScoreIs(raw: nat, percent: nat, weights: nat)
    requires weights == raw * 100
    ensures Min(CAP, raw * percent) == if weights * percent >= 1_000_000 then 10_000 else weights * percent / 100
  {
    assert weights * percent == (raw * percent) * 100;
  }

  lemma RiskIsTold(h: Digest, t: string, events: seq<Event>, nodes: Nodes, k: string, c: Criticality, fs: seq<Finding>)
    requires NodesObserved(h, t, events, nodes) && k in nodes
    ensures Told(RiskOf(nodes[k].id, nodes[k].seen, c, fs), Concerning(t, events, nodes[k].id, fs), c)
  {
    CountedAreConcerning(h, t, events, nodes, k, fs);
    var id, x, own := nodes[k].id, nodes[k].seen, Concerning(t, events, nodes[k].id, fs);
    var r, raw := RiskOf(id, x, c, fs), Raw(id, x, fs);
    assert r.components == CountedComponents(id, x, fs) + CriticalityComponents(c, raw);
    ScaledByCriticality(r, own, c, raw);
    ScaleIs(c, raw);
    ScoreIs(raw, Percent(c), Weights(own));
    ItemisedBy(r, own, CountedComponents(id, x, fs));
  }

  lemma ItemisedBy(r: Risk, own: seq<Finding>, cs: seq<Component>)
    requires |own| == |cs| == |r.findingIds| && cs <= r.components
    requires forall i :: 0 <= i < |own| ==> r.findingIds[i] == own[i].id && cs[i] == ComponentOf(own[i])
    ensures Itemised(r, own)
  {
    forall i | 0 <= i < |own|
      ensures r.components[i] == Component(own[i].id, if "intel." <= own[i].ruleId then Intel else Detection, Weight(own[i]))
    {
      assert r.components[i] == cs[i];
    }
  }

  // ---------- the graph ----------

  ghost predicate RiskTold(events: seq<Event>, fs: seq<Finding>, overrides: Criticalities, g: EntityGraph, k: string)
    requires k in g.nodes
  {
    k in g.risks && Told(g.risks[k], Concerning(g.tenantId, events, g.nodes[k].id, fs), if k in overrides then overrides[k] else UnknownAsset)
  }

  /** In every graph that is built, each entity has the risk told from the findings that concern it, at the criticality
      given for its id or else unknown. */
  lemma RisksAreTold(h: Digest, events: seq<Event>, fs: seq<Finding>, overrides: Criticalities, g: EntityGraph, k: string)
    requires events != [] && ObservedGraph(h, events, fs, overrides, g) && k in g.nodes
    ensures RiskTold(events, fs, overrides, g, k)
  {
    assert g.risks[k] == RiskFor(g.nodes, k, overrides, fs);
    RiskIsTold(h, g.tenantId, events, g.nodes, k, CriticalityOf(overrides, k), fs);
  }

  lemma {:induction false} ConcerningMembers(t: string, events: seq<Event>, id: EntityId, fs: seq<Finding>)
    ensures forall f :: f in Concerning(t, events, id, fs) <==> f in fs && Concerns(t, events, id, f)
  {
    if fs != [] {
      ConcerningMembers(t, events, id, fs[1..]);
      assert fs == [fs[0]] + fs[1..];
    }
  }

  /** A finding of the graph's tenant that cites an event counts for every entity the event names; one of another tenant,
      or one that neither cites such an event nor has the entity among its attributes, counts for none. */
  lemma CitedEntitiesAreConcerned(h: Digest, events: seq<Event>, fs: seq<Finding>, overrides: Criticalities, g: EntityGraph, k: string, f: Finding)
    requires events != [] && ObservedGraph(h, events, fs, overrides, g) && k in g.nodes && f in fs
    requires forall f' :: f' in fs && f'.id == f.id ==> f' == f
    ensures f.id in g.risks[k].findingIds <==>
      f.tenantId == g.tenantId && (Cites(events, g.nodes[k].id, f) || Attributes(g.nodes[k].id, f))
  {
    RisksAreTold(h, events, fs, overrides, g, k);
    var own := Concerning(g.tenantId, events, g.nodes[k].id, fs);
    ConcerningMembers(g.tenantId, events, g.nodes[k].id, fs);
    if f.id in g.risks[k].findingIds {
      var i :| 0 <= i < |own| && g.risks[k].findingIds[i] == f.id;
      assert own[i] in own;
    }
    if f in own {
      var i :| 0 <= i < |own| && own[i] == f;
      assert g.risks[k].findingIds[i] == f.id;
    }
  }

  /** Alone, at unknown criticality, a finding scores 40, 25, 12, 5 or 1 for every entity it concerns. */
  lemma OneFindingScores(h: Digest, events: seq<Event>, f: Finding, g: EntityGraph, k: string)
    requires events != [] && ObservedGraph(h, events, [f], map[], g) && k in g.nodes && Concerns(g.tenantId, events, g.nodes[k].id, f)
    ensures g.risks[k].findingIds == [f.id]
    ensures g.risks[k].score == match f.severity case Critical => 4000 case High => 2500 case Medium => 1200 case Low => 500 case _ => 100
  {
    RisksAreTold(h, events, [f], map[], g, k);
    assert [f][1..] == [] && [f][..0] == [];
    assert Concerning(g.tenantId, events, g.nodes[k].id, [f]) == [f];
    assert Weights([f]) == Weight(f);
  }
}
