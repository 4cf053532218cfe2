/** Declarative correlation: a story for each entity whose findings satisfy a rule. */
module Correlation {
  import opened Common
  import opened Sorting
  import opened Grouping

  /** `createdAt` is in microseconds. */
  datatype Finding = Finding(
    id: string, tenantId: string, ruleId: string, createdAt: int,
    eventIds: seq<string>, evidenceIds: seq<string>, attributes: map<string, string>)

  datatype Rule = Rule(
    ruleId: string, title: string, required: seq<string>, entityKey: string,
    windowSeconds: int, techniques: seq<string>, minFindings: int)

  datatype Stage = Stage(name: string, eventIds: seq<string>, timestamp: int)

  datatype Story = Story(
    ruleId: string, title: string, tenantId: string, entityKey: string, entity: string, stages: seq<Stage>,
    evidenceIds: seq<string>, eventIds: seq<string>, techniques: seq<string>, start: int, end: int)

  const MICROS := 1_000_000

  function Attr(f: Finding, k: string): string { if k in f.attributes then f.attributes[k] else "" }

  /** `attributes.get(entity_key) or attributes.get("src_ip") or ""`. */
  function EntityOf(rule: Rule, f: Finding): string {
    if Attr(f, rule.entityKey) != "" then Attr(f, rule.entityKey) else Attr(f, "src_ip")
  }

  function ByEntity(rule: Rule): Finding -> string { (f: Finding) => EntityOf(rule, f) }
  function ByCreation(): Finding -> int { (f: Finding) => f.createdAt }
  function Matching(rule: Rule): Finding -> bool { (f: Finding) => f.ruleId in rule.required }

  function Matched(rule: Rule, fs: seq<Finding>): seq<Finding> { Filter(fs, Matching(rule)) }

  function RuleIds(fs: seq<Finding>): set<string> { set f | f in fs :: f.ruleId }

  function Earliest(fs: seq<Finding>): int
    requires fs != []
  {
    if |fs| == 1 then fs[0].createdAt
    else
      var m := Earliest(fs[..|fs|-1]);
      if fs[|fs|-1].createdAt < m then fs[|fs|-1].createdAt else m
  }

  function Latest(fs: seq<Finding>): int
    requires fs != []
  {
    if |fs| == 1 then fs[0].createdAt
    else
      var m := Latest(fs[..|fs|-1]);
      if fs[|fs|-1].createdAt > m then fs[|fs|-1].createdAt else m
  }

  function StageOf(): Finding -> seq<Stage> { (f: Finding) => [Stage(f.ruleId, f.eventIds, f.createdAt)] }
  function EvidenceOf(): Finding -> seq<string> { (f: Finding) => f.evidenceIds }
  function EventIdsOf(): Finding -> seq<string> { (f: Finding) => f.eventIds }

  function MakeStory(rule: Rule, entity: string, group: seq<Finding>): Story
    requires group != []
  {
    Story(rule.ruleId, rule.title, group[0].tenantId, rule.entityKey, entity,
          FlatMap(SortBy(group, ByCreation()), StageOf()),
          FlatMap(group, EvidenceOf()), FlatMap(group, EventIdsOf()), rule.techniques, Earliest(group), Latest(group))
  }

  /** The three tests a group must pass. */
  predicate Passes(rule: Rule, group: seq<Finding>)
    requires group != []
  {
    && |RuleIds(group)| >= |rule.required|
    && |group| >= rule.minFindings
    && Latest(group) - Earliest(group) <= rule.windowSeconds * MICROS
  }

  function StoriesOf(rule: Rule, groups: seq<Group<Finding>>): seq<Story>
    requires forall i :: 0 <= i < |groups| ==> groups[i].items != []
  {
    if groups == [] then []
    else
      var g := groups[|groups|-1];
      StoriesOf(rule, groups[..|groups|-1]) + if Passes(rule, g.items) then [MakeStory(rule, g.key, g.items)] else []
  }

  function GroupsFor(rule: Rule, fs: seq<Finding>): (groups: seq<Group<Finding>>)
    ensures forall i :: 0 <= i < |groups| ==> groups[i].items != []
  {
    AllNotEmpty(Matched(rule, fs), ByEntity(rule));
    GroupBy(Matched(rule, fs), ByEntity(rule))
  }

  function StoriesFor(rule: Rule, fs: seq<Finding>): seq<Story> {
    if |RuleIds(Matched(rule, fs))| < |rule.required| then [] else StoriesOf(rule, GroupsFor(rule, fs))
  }

  function StoriesFrom(fs: seq<Finding>): Rule -> seq<Story> { (rule: Rule) => StoriesFor(rule, fs) }

  function Apply(rules: seq<Rule>, fs: seq<Finding>): seq<Story> { FlatMap(rules, StoriesFrom(fs)) }

  // ---------- the loops ----------

  method ApplyCorrelationRules(fs: seq<Finding>, rules: seq<Rule>) returns (stories: seq<Story>)
    ensures stories == Apply(rules, fs)
  {
    stories := [];
    var i := 0;
    while i < |rules|
      invariant 0 <= i <= |rules|
      invariant stories == Apply(rules[..i], fs)
    {
      assert rules[..i+1][..i] == rules[..i];
      var told := ApplyRule(rules[i], fs);
      stories := stories + told;
      i := i + 1;
    }
    assert rules[..i] == rules;
  }

  method ApplyRule(rule: Rule, fs: seq<Finding>) returns (stories: seq<Story>)
    ensures stories == StoriesFor(rule, fs)
  {
    var matched := Matched(rule, fs);
    if |RuleIds(matched)| < |rule.required| {
      return [];
    }
    var groups: seq<Group<Finding>> := [];
    var i := 0;
    while i < |matched|
      invariant 0 <= i <= |matched|
      invariant groups == GroupBy(matched[..i], ByEntity(rule))
    {
      assert matched[..i+1][..i] == matched[..i];
      groups := AddTo(groups, EntityOf(rule, matched[i]), matched[i]);
      i := i + 1;
    }
    assert matched[..i] == matched;
    AllNotEmpty(matched, ByEntity(rule));
    stories := TellStories(rule, groups);
  }

  method TellStories(rule: Rule, groups: seq<Group<Finding>>) returns (stories: seq<Story>)
    requires forall i :: 0 <= i < |groups| ==> groups[i].items != []
    ensures stories == StoriesOf(rule, groups)
  {
    stories := [];
    var i := 0;
    while i < |groups|
      invariant 0 <= i <= |groups|
      invariant stories == StoriesOf(rule, groups[..i])
    {
      var entity, group := groups[i].key, groups[i].items;
      assert groups[..i+1][..i] == groups[..i];
      i := i + 1;
      if |RuleIds(group)| < |rule.required| {
        continue;
      }
      if |group| < rule.minFindings {
        continue;
      }
      if Latest(group) - Earliest(group) > rule.windowSeconds * MICROS {
        continue;
      }
      stories := stories + [MakeStory(rule, entity, group)];
    }
    assert groups[..i] == groups;
  }

  // ---------- the early check ----------

  /** Skipping a rule whose matched findings do not cover it never changes the result. */
  lemma EarlyCheckChangesNothing(rule: Rule, fs: seq<Finding>)
    ensures StoriesFor(rule, fs) == StoriesOf(rule, GroupsFor(rule, fs))
  {
    var matched, groups := Matched(rule, fs), GroupsFor(rule, fs);
    if |RuleIds(matched)| < |rule.required| {
      GroupsPartition(matched, ByEntity(rule));
      forall i | 0 <= i < |groups| ensures !Passes(rule, groups[i].items) {
        FilterMembers(matched, Having(ByEntity(rule), groups[i].key));
        assert RuleIds(groups[i].items) <= RuleIds(matched);
        SubsetSize(RuleIds(groups[i].items), RuleIds(matched));
      }
      NoStories(rule, groups);
    }
  }

  lemma {:induction false} SubsetSize(a: set<string>, b: set<string>)
    requires a <= b
    ensures |a| <= |b|
    ensures |a| == |b| ==> a == b
  {
    if a != {} {
      var x :| x in a;
      SubsetSize(a - {x}, b - {x});
    } else if b != {} {
      var x :| x in b;
      assert |b - {x}| == |b| - 1;
    }
  }

  lemma {:induction false} NoStories(rule: Rule, groups: seq<Group<Finding>>)
    requires forall i :: 0 <= i < |groups| ==> groups[i].items != [] && !Passes(rule, groups[i].items)
    ensures StoriesOf(rule, groups) == []
  {
    if groups != [] { NoStories(rule, groups[..|groups|-1]); }
  }

  // ---------- when a story is told ----------

  /** The matched findings about one entity, in order. */
  function About(rule: Rule, fs: seq<Finding>, entity: string): seq<Finding> {
    Filter(Matched(rule, fs), Having(ByEntity(rule), entity))
  }

  ghost predicate NoRepeats(ids: seq<string>) {
    forall i, j :: 0 <= i < j < |ids| ==> ids[i] != ids[j]
  }

  /** Every rule id the rule requires is among the findings. */
  ghost predicate Covers(rule: Rule, fs: seq<Finding>) {
    forall r :: r in rule.required ==> exists f :: f in fs && f.ruleId == r
  }

  lemma NoRepeatsSnoc(init: seq<string>, last: string)
    ensures NoRepeats(init + [last]) <==> NoRepeats(init) && last !in init
  {
    var ids := init + [last];
    if last in init {
      var k :| 0 <= k < |init| && init[k] == last;
      assert ids[k] == ids[|init|];
    }
    assert forall k :: 0 <= k < |init| ==> ids[k] == init[k];
  }

  lemma {:induction false} SetOfSeq(ids: seq<string>)
    ensures |set x | x in ids| <= |ids|
    ensures |set x | x in ids| == |ids| <==> NoRepeats(ids)
  {
    if ids != [] {
      var init, last := ids[..|ids|-1], ids[|ids|-1];
      SetOfSeq(init);
      assert ids == init + [last];
      NoRepeatsSnoc(init, last);
      var s := set x | x in init;
      assert (set x | x in ids) == s + {last};
      if last in init { assert s + {last} == s; }
    }
  }

  /** Counting distinct rule ids says: the rule lists no id twice and each id it requires is there. */
  lemma CountingMeansCovering(rule: Rule, fs: seq<Finding>)
    requires forall f :: f in fs ==> f.ruleId in rule.required
    ensures |RuleIds(fs)| >= |rule.required| <==> NoRepeats(rule.required) && Covers(rule, fs)
  {
    var needed := set x | x in rule.required;
    SetOfSeq(rule.required);
    assert RuleIds(fs) <= needed;
    SubsetSize(RuleIds(fs), needed);
    if |RuleIds(fs)| >= |rule.required| {
      assert RuleIds(fs) == needed;
      forall r | r in rule.required ensures exists f :: f in fs && f.ruleId == r {
        assert r in RuleIds(fs);
      }
    }
    if NoRepeats(rule.required) && Covers(rule, fs) {
      forall r | r in needed ensures r in RuleIds(fs) {
        var f :| f in fs && f.ruleId == r;
      }
      SubsetSize(needed, RuleIds(fs));
    }
  }

  lemma {:induction false} StoriesAreOfPassingGroups(rule: Rule, groups: seq<Group<Finding>>, s: Story)
    requires forall i :: 0 <= i < |groups| ==> groups[i].items != []
    ensures s in StoriesOf(rule, groups) <==>
      exists i :: 0 <= i < |groups| && Passes(rule, groups[i].items) && s == MakeStory(rule, groups[i].key, groups[i].items)
  {
    if groups != [] {
      var init, g := groups[..|groups|-1], groups[|groups|-1];
      StoriesAreOfPassingGroups(rule, init, s);
      if i :| 0 <= i < |init| && Passes(rule, init[i].items) && s == MakeStory(rule, init[i].key, init[i].items) {
        assert groups[i] == init[i];
      }
      if i :| 0 <= i < |groups| && Passes(rule, groups[i].items) && s == MakeStory(rule, groups[i].key, groups[i].items) {
        if i < |init| { assert groups[i] == init[i]; }
      }
    }
  }

  /** A rule tells a story about an entity if and only if the entity has matched findings, they cover
      every required rule (the rule naming none twice), are at least as many as the rule asks, and span at
      most its window; and the story is the one made from exactly those findings. */
  lemma StoryIff(rule: Rule, fs: seq<Finding>, entity: string)
    ensures var own := About(rule, fs, entity);
      (exists s :: s in StoriesFor(rule, fs) && s.entity == entity) <==>
        && own != []
        && NoRepeats(rule.required) && Covers(rule, own)
        && |own| >= rule.minFindings
        && Latest(own) - Earliest(own) <= rule.windowSeconds * MICROS
    ensures forall s :: s in StoriesFor(rule, fs) && s.entity == entity ==>
      About(rule, fs, entity) != [] && s == MakeStory(rule, entity, About(rule, fs, entity))
  {
    var own, matched, groups := About(rule, fs, entity), Matched(rule, fs), GroupsFor(rule, fs);
    EarlyCheckChangesNothing(rule, fs);
    GroupsPartition(matched, ByEntity(rule));
    OwnFindings(rule, fs, entity);
    if own != [] { CountingMeansCovering(rule, own); }
    forall s | s in StoriesFor(rule, fs) && s.entity == entity
      ensures own != [] && Passes(rule, own) && s == MakeStory(rule, entity, own)
    {
      StoriesAreOfPassingGroups(rule, groups, s);
      var i :| 0 <= i < |groups| && Passes(rule, groups[i].items) && s == MakeStory(rule, groups[i].key, groups[i].items);
      assert groups[i].key == entity && groups[i].items == own;
    }
    if own != [] && Passes(rule, own) {
      var f := own[0];
      var k :| 0 <= k < |matched| && matched[k] == f;
      assert HasKey(groups, ByEntity(rule)(matched[k]));
      var i :| 0 <= i < |groups| && groups[i].key == entity;
      StoriesAreOfPassingGroups(rule, groups, MakeStory(rule, entity, own));
    }
  }

  lemma {:induction false} StoriesNameTheirGroups(rule: Rule, groups: seq<Group<Finding>>)
    requires DistinctKeys(groups) && forall i :: 0 <= i < |groups| ==> groups[i].items != []
    ensures OneEach(StoriesOf(rule, groups))
  {
    if groups != [] {
      var init, g := groups[..|groups|-1], groups[|groups|-1];
      StoriesNameTheirGroups(rule, init);
      var told := StoriesOf(rule, init);
      forall k | 0 <= k < |told| ensures told[k].entity != g.key {
        StoriesAreOfPassingGroups(rule, init, told[k]);
        var i :| 0 <= i < |init| && Passes(rule, init[i].items) && told[k] == MakeStory(rule, init[i].key, init[i].items);
        assert groups[i] == init[i];
      }
    }
  }

  ghost predicate OneEach(stories: seq<Story>) {
    forall i, j :: 0 <= i < j < |stories| ==> stories[i].entity != stories[j].entity
  }

  /** A rule tells at most one story about an entity. */
  lemma OneStoryPerEntity(rule: Rule, fs: seq<Finding>)
    ensures OneEach(StoriesFor(rule, fs))
  {
    GroupsPartition(Matched(rule, fs), ByEntity(rule));
    StoriesNameTheirGroups(rule, GroupsFor(rule, fs));
  }

  lemma OwnFindings(rule: Rule, fs: seq<Finding>, entity: string)
    ensures forall f :: f in About(rule, fs, entity) <==> f in fs && f.ruleId in rule.required && EntityOf(rule, f) == entity
    ensures forall f :: f in About(rule, fs, entity) ==> f in Matched(rule, fs)
  {
    FilterMembers(fs, Matching(rule));
    FilterMembers(Matched(rule, fs), Having(ByEntity(rule), entity));
  }

  // ---------- what a story says ----------

  lemma {:induction false} EarliestLatest(fs: seq<Finding>)
    requires fs != []
    ensures forall f :: f in fs ==> Earliest(fs) <= f.createdAt <= Latest(fs)
    ensures exists f :: f in fs && f.createdAt == Earliest(fs)
    ensures exists f :: f in fs && f.createdAt == Latest(fs)
  {
    if |fs| == 1 {
      assert fs[0] in fs;
    } else {
      var init, f := fs[..|fs|-1], fs[|fs|-1];
      EarliestLatest(init);
      assert fs == init + [f];
      assert f in fs;
    }
  }

  lemma {:induction false} StagesAligned(fs: seq<Finding>)
    ensures var st := FlatMap(fs, StageOf());
      |st| == |fs| && forall i :: 0 <= i < |fs| ==> st[i] == Stage(fs[i].ruleId, fs[i].eventIds, fs[i].createdAt)
  {
    if fs != [] { StagesAligned(fs[..|fs|-1]); }
  }

  lemma SortedEnds(group: seq<Finding>)
    requires group != []
    ensures var ordered := SortBy(group, ByCreation());
      ordered != [] && ordered[0].createdAt == Earliest(group) && ordered[|ordered|-1].createdAt == Latest(group)
  {
    var ordered := SortBy(group, ByCreation());
    SortEnds(group, ByCreation());
    EarliestLatest(group);
    assert ByCreation()(ordered[0]) == ordered[0].createdAt && ByCreation()(ordered[|ordered|-1]) == ordered[|ordered|-1].createdAt;
    var a :| a in group && a.createdAt == Earliest(group);
    var b :| b in group && b.createdAt == Latest(group);
    assert ByCreation()(a) == a.createdAt && ByCreation()(b) == b.createdAt;
  }

  function CreatedAt(v: int): Finding -> bool { (f: Finding) => f.createdAt == v }

  /** The stages of a story are its findings, each once, in time order, and where times are equal in the
      order of the findings; it starts at the least and ends at the greatest of their times. */
  lemma StoryIsOrdered(rule: Rule, entity: string, group: seq<Finding>)
    requires group != []
    ensures var s, ordered := MakeStory(rule, entity, group), SortBy(group, ByCreation());
      && multiset(ordered) == multiset(group) && |ordered| == |group|
      && |s.stages| == |group|
      && (forall i :: 0 <= i < |group| ==> s.stages[i] == Stage(ordered[i].ruleId, ordered[i].eventIds, ordered[i].createdAt))
      && (forall i, j :: 0 <= i < j < |s.stages| ==> s.stages[i].timestamp <= s.stages[j].timestamp)
      && s.start == s.stages[0].timestamp && s.end == s.stages[|group|-1].timestamp
      && forall v :: Filter(ordered, CreatedAt(v)) == Filter(group, CreatedAt(v))
  {
    var ordered := SortBy(group, ByCreation());
    SortSpec(group, ByCreation());
    StagesAligned(ordered);
    SortedEnds(group);
    var st := FlatMap(ordered, StageOf());
    forall v ensures Filter(ordered, CreatedAt(v)) == Filter(group, CreatedAt(v)) {
      SortStable(group, ByCreation(), CreatedAt(v), v);
    }
    forall i, j | 0 <= i < j < |st| ensures st[i].timestamp <= st[j].timestamp {
      assert ByCreation()(ordered[i]) <= ByCreation()(ordered[j]);
    }
  }
}
