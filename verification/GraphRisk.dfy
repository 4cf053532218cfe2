/** The risk score of an entity, in exact hundredths: what it is made of and what moves it. */
module GraphRisk {
  import opened Common
  import Grouping
  import opened Graph
  import opened GraphIds
  import opened GraphBuilding
  import opened GraphTheorems

  datatype Severity = Critical | High | Medium | Low | Informational | Unlisted
  datatype Criticality = UnknownAsset | LowAsset | MediumAsset | HighAsset | CrownJewel

  datatype Finding = Finding(
    id: string, tenantId: string, ruleId: string, severity: Severity,
    eventIds: seq<string>, attributes: map<string, string>)

  datatype Kind = Detection | Intel | CriticalityKind

  /** `points` in hundredths. */
  datatype Component = Component(source: string, kind: Kind, points: int)

  datatype Risk = Risk(findingIds: seq<string>, components: seq<Component>, score: int)

  function SeverityPoints(s: Severity): nat {
    match s
    case Critical => 40
    case High => 25
    case Medium => 12
    case Low => 5
    case Informational => 1
    case Unlisted => 1
  }

  /** Factor in hundredths. */
  function Factor(c: Criticality): nat {
    match c
    case UnknownAsset => 100
    case LowAsset => 80
    case MediumAsset => 100
    case HighAsset => 125
    case CrownJewel => 150
  }

  function CriticalityName(c: Criticality): string {
    match c
    case UnknownAsset => "unknown"
    case LowAsset => "low"
    case MediumAsset => "medium"
    case HighAsset => "high"
    case CrownJewel => "crown_jewel"
  }

  predicate OccursAt(s: string, sub: string, i: nat) {
    i + |sub| <= |s| && s[i..i+|sub|] == sub
  }

  predicate Contains(s: string, sub: string) {
    exists i :: 0 <= i <= |s| && OccursAt(s, sub, i)
  }

  function Attr(f: Finding, k: string): string {
    Lower(if k in f.attributes then f.attributes[k] else "")
  }

  predicate Touches(id: EntityId, x: Entity, f: Finding) {
    || (exists i :: i in x.eventIds && i in f.eventIds)
    || (id.kind == UserEntity && Attr(f, "user") == id.key)
    || (id.kind == HostEntity && Attr(f, "host") == id.key)
    || (id.kind == IpEntity && (Attr(f, "src_ip") == id.key || Attr(f, "dst_ip") == id.key))
    || (id.kind == ProcessEntity && Attr(f, "process") != "" && Contains(id.key, Attr(f, "process")))
  }

  predicate Counts(id: EntityId, x: Entity, f: Finding) {
    f.tenantId == id.tenantId && Touches(id, x, f)
  }

  function KindOf(f: Finding): Kind { if "intel." <= f.ruleId then Intel else Detection }

  function ComponentOf(f: Finding): Component { Component(f.id, KindOf(f), SeverityPoints(f.severity) * 100) }

  // ---------- the loop ----------

  function CountedComponents(id: EntityId, x: Entity, fs: seq<Finding>): seq<Component> {
    if fs == [] then []
    else CountedComponents(id, x, fs[..|fs|-1]) + if Counts(id, x, fs[|fs|-1]) then [ComponentOf(fs[|fs|-1])] else []
  }

  function CountedIds(id: EntityId, x: Entity, fs: seq<Finding>): seq<string> {
    if fs == [] then []
    else CountedIds(id, x, fs[..|fs|-1]) + if Counts(id, x, fs[|fs|-1]) then [fs[|fs|-1].id] else []
  }

  /** The sum of the severity points of the findings that count. */
  function Raw(id: EntityId, x: Entity, fs: seq<Finding>): nat {
    if fs == [] then 0
    else Raw(id, x, fs[..|fs|-1]) + if Counts(id, x, fs[|fs|-1]) then SeverityPoints(fs[|fs|-1].severity) else 0
  }

  const CAP := 10_000

  function CriticalityComponents(c: Criticality, raw: nat): seq<Component> {
    if Factor(c) != 100 then [Component("criticality:" + CriticalityName(c), CriticalityKind, raw * (Factor(c) - 100))] else []
  }

  function RiskOf(id: EntityId, x: Entity, c: Criticality, fs: seq<Finding>): Risk {
    var raw := Raw(id, x, fs);
    Risk(CountedIds(id, x, fs), CountedComponents(id, x, fs) + CriticalityComponents(c, raw), Min(CAP, raw * Factor(c)))
  }

  method ApplyRisk(id: EntityId, x: Entity, c: Criticality, fs: seq<Finding>) returns (r: Risk)
    ensures r == RiskOf(id, x, c, fs)
  {
    var components: seq<Component> := [];
    var findingIds: seq<string> := [];
    var raw: nat := 0;
    var i := 0;
    while i < |fs|
      invariant 0 <= i <= |fs|
      invariant components == CountedComponents(id, x, fs[..i])
      invariant findingIds == CountedIds(id, x, fs[..i])
      invariant raw == Raw(id, x, fs[..i])
    {
      var f := fs[i];
      assert fs[..i+1][..i] == fs[..i];
      i := i + 1;
      if f.tenantId != id.tenantId {
        continue;
      }
      if !Touches(id, x, f) {
        continue;
      }
      findingIds := findingIds + [f.id];
      raw := raw + SeverityPoints(f.severity);
      components := components + [Component(f.id, KindOf(f), SeverityPoints(f.severity) * 100)];
    }
    assert fs[..i] == fs;
    var factor: int := Factor(c);
    if factor != 100 {
      components := components + [Component("criticality:" + CriticalityName(c), CriticalityKind, raw * (factor - 100))];
    }
    r := Risk(findingIds, components, Min(CAP, raw * factor));
  }

  // ---------- the components add up ----------

  function Total(cs: seq<Component>): int {
    if cs == [] then 0 else Total(cs[..|cs|-1]) + cs[|cs|-1].points
  }

  lemma TotalAppend(cs: seq<Component>, c: Component)
    ensures Total(cs + [c]) == Total(cs) + c.points
  {
    assert (cs + [c])[..|cs|] == cs;
  }

  lemma {:induction false} CountedTotal(id: EntityId, x: Entity, fs: seq<Finding>)
    ensures Total(CountedComponents(id, x, fs)) == Raw(id, x, fs) * 100
  {
    if fs != [] {
      var init, f := fs[..|fs|-1], fs[|fs|-1];
      CountedTotal(id, x, init);
      var cs := CountedComponents(id, x, init);
      if Counts(id, x, f) {
        TotalAppend(cs, ComponentOf(f));
      } else {
        assert cs + [] == cs;
      }
    }
  }

  /** The components of a risk add up to raw points times factor, and the score is that sum capped at
      one hundred: nothing is lost to rounding. */
  lemma ComponentsAddUp(id: EntityId, x: Entity, c: Criticality, fs: seq<Finding>)
    ensures var r := RiskOf(id, x, c, fs);
      Total(r.components) == Raw(id, x, fs) * Factor(c) && r.score == Min(CAP, Total(r.components)) && 0 <= r.score <= CAP
  {
    var raw: nat, factor: int := Raw(id, x, fs), Factor(c);
    CountedTotal(id, x, fs);
    var cs := CountedComponents(id, x, fs);
    var all := cs + CriticalityComponents(c, raw);
    if factor != 100 {
      TotalAppend(cs, CriticalityComponents(c, raw)[0]);
      assert raw * 100 + raw * (factor - 100) == raw * factor;
    } else {
      assert all == cs;
    }
  }

  // ---------- what moves the score ----------

  lemma {:induction false} RawConcat(id: EntityId, x: Entity, a: seq<Finding>, b: seq<Finding>)
    ensures Raw(id, x, a + b) == Raw(id, x, a) + Raw(id, x, b)
  {
    if b == [] {
      assert a + b == a;
    } else {
      RawConcat(id, x, a, b[..|b|-1]);
      assert (a + b)[..|a+b|-1] == a + b[..|b|-1];
    }
  }

  lemma ScoreGrowsWithRaw(raw: nat, raw': nat, factor: nat, factor': nat)
    requires raw <= raw' && factor <= factor'
    ensures Min(CAP, raw * factor) <= Min(CAP, raw' * factor')
  {
    assert raw * factor <= raw' * factor by {
      assert (raw' - raw) * factor >= 0;
    }
    assert raw' * factor <= raw' * factor' by {
      assert raw' * (factor' - factor) >= 0;
    }
  }

  /** Adding a finding anywhere in the list never lowers the score. */
  lemma MoreFindingsNeverLower(id: EntityId, x: Entity, c: Criticality, a: seq<Finding>, f: Finding, b: seq<Finding>)
    ensures RiskOf(id, x, c, a + b).score <= RiskOf(id, x, c, a + [f] + b).score
  {
    RawConcat(id, x, a, b);
    RawConcat(id, x, a + [f], b);
    RawConcat(id, x, a, [f]);
    ScoreGrowsWithRaw(Raw(id, x, a + b), Raw(id, x, a + [f] + b), Factor(c), Factor(c));
  }

  function Rank(c: Criticality): nat {
    match c
    case LowAsset => 0
    case UnknownAsset => 1
    case MediumAsset => 1
    case HighAsset => 2
    case CrownJewel => 3
  }

  /** Raising the criticality of an asset never lowers its score. */
  lemma RaisingCriticalityNeverLowers(id: EntityId, x: Entity, c: Criticality, c': Criticality, fs: seq<Finding>)
    requires Rank(c) <= Rank(c')
    ensures RiskOf(id, x, c, fs).score <= RiskOf(id, x, c', fs).score
  {
    ScoreGrowsWithRaw(Raw(id, x, fs), Raw(id, x, fs), Factor(c), Factor(c'));
  }

  lemma {:induction false} RawPermutes(id: EntityId, x: Entity, fs: seq<Finding>, fs': seq<Finding>)
    requires multiset(fs) == multiset(fs')
    ensures Raw(id, x, fs) == Raw(id, x, fs')
    decreases |fs|
  {
    assert |multiset(fs)| == |fs| && |multiset(fs')| == |fs'|;
    if fs != [] {
      var init, f := fs[..|fs|-1], fs[|fs|-1];
      assert fs == init + [f];
      var l, r := Grouping.TakeOut(fs', f);
      RawPermutes(id, x, init, l + r);
      RawWithout(id, x, l, f, r);
    }
  }

  lemma RawWithout(id: EntityId, x: Entity, l: seq<Finding>, f: Finding, r: seq<Finding>)
    ensures Raw(id, x, l + [f] + r) == Raw(id, x, l + r) + if Counts(id, x, f) then SeverityPoints(f.severity) else 0
  {
    RawConcat(id, x, l + [f], r);
    RawConcat(id, x, l, r);
    assert (l + [f])[..|l|] == l;
  }

  lemma {:induction false} RawFollowsIds(id: EntityId, x: Entity, x': Entity, fs: seq<Finding>)
    requires forall i :: i in x.eventIds <==> i in x'.eventIds
    ensures Raw(id, x, fs) == Raw(id, x', fs)
  {
    if fs != [] { RawFollowsIds(id, x, x', fs[..|fs|-1]); }
  }

  // ---------- the whole graph ----------

  datatype EntityGraph = EntityGraph(tenantId: string, nodes: Nodes, risks: map<string, Risk>, edges: Edges)

  /** Overrides are by entity id. */
  type Criticalities = map<string, Criticality>

  function CriticalityOf(overrides: Criticalities, k: string): Criticality {
    if k in overrides then overrides[k] else UnknownAsset
  }

  function RiskFor(nodes: Nodes, k: string, overrides: Criticalities, fs: seq<Finding>): Risk
    requires k in nodes
  {
    RiskOf(nodes[k].id, nodes[k].seen, CriticalityOf(overrides, k), fs)
  }

  method RateAll(nodes: Nodes, overrides: Criticalities, fs: seq<Finding>) returns (risks: map<string, Risk>)
    ensures risks.Keys == nodes.Keys && forall k :: k in nodes ==> risks[k] == RiskFor(nodes, k, overrides, fs)
  {
    risks := map[];
    var left := nodes.Keys;
    while left != {}
      invariant left <= nodes.Keys
      invariant risks.Keys == nodes.Keys - left
      invariant forall k :: k in risks ==> risks[k] == RiskFor(nodes, k, overrides, fs)
      decreases left
    {
      var k :| k in left;
      var r := ApplyRisk(nodes[k].id, nodes[k].seen, CriticalityOf(overrides, k), fs);
      risks := risks[k := r];
      left := left - {k};
    }
  }
}
