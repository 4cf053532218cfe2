/** What a story says, told from the rule and the findings, and which stories there are, in order. */
module StoryContents {
  import opened Common
  import opened Sorting
  import opened Grouping
  import opened Correlation

  /** What the rule takes the finding to be about: its attribute under the rule's key, or else its source address. */
  function Subject(rule: Rule, f: Finding): string {
    if rule.entityKey in f.attributes && |f.attributes[rule.entityKey]| > 0 then f.attributes[rule.entityKey]
    else if "src_ip" in f.attributes then f.attributes["src_ip"]
    else ""
  }

  /** The findings by required rules that are about the entity, in order. */
  function Own(rule: Rule, fs: seq<Finding>, entity: string): seq<Finding> {
    if fs == [] then []
    else (if fs[0].ruleId in rule.required && Subject(rule, fs[0]) == entity then [fs[0]] else []) + Own(rule, fs[1..], entity)
  }

  lemma {:induction false} OwnIsAbout(rule: Rule, fs: seq<Finding>, entity: string)
    ensures Own(rule, fs, entity) == About(rule, fs, entity)
  {
    if fs != [] {
      OwnIsAbout(rule, fs[1..], entity);
      var matched := Matched(rule, fs[1..]);
      assert ([fs[0]] + matched)[1..] == matched;
    }
  }

  function AllEvidence(fs: seq<Finding>): seq<string> { if fs == [] then [] else fs[0].evidenceIds + AllEvidence(fs[1..]) }

  function AllEvents(fs: seq<Finding>): seq<string> { if fs == [] then [] else fs[0].eventIds + AllEvents(fs[1..]) }

  lemma {:induction false} AllMore(fs: seq<Finding>, f: Finding)
    ensures AllEvidence(fs + [f]) == AllEvidence(fs) + f.evidenceIds && AllEvents(fs + [f]) == AllEvents(fs) + f.eventIds
  {
    if fs == [] {
      assert [f][1..] == [];
    } else {
      AllMore(fs[1..], f);
      assert (fs + [f])[1..] == fs[1..] + [f];
    }
  }

  lemma {:induction false} AllAreListed(fs: seq<Finding>)
    ensures FlatMap(fs, EvidenceOf()) == AllEvidence(fs) && FlatMap(fs, EventIdsOf()) == AllEvents(fs)
  {
    if fs != [] {
      var init, f := fs[..|fs|-1], fs[|fs|-1];
      AllAreListed(init);
      AllMore(init, f);
      assert fs == init + [f];
    }
  }

  /** The same findings in time order, those of equal times as they were. */
  ghost predicate InTimeOrder(ordered: seq<Finding>, group: seq<Finding>) {
    && multiset(ordered) == multiset(group) && |ordered| == |group|
    && (forall i, j :: 0 <= i < j < |ordered| ==> ordered[i].createdAt <= ordered[j].createdAt)
    && forall v :: Filter(ordered, CreatedAt(v)) == Filter(group, CreatedAt(v))
  }

  /** The story the rule tells of the findings of one entity. */
  ghost predicate Tells(s: Story, rule: Rule, entity: string, own: seq<Finding>) {
    && own != []
    && s.ruleId == rule.ruleId && s.title == rule.title && s.techniques == rule.techniques
    && s.entityKey == rule.entityKey && s.entity == entity && s.tenantId == own[0].tenantId
    && s.evidenceIds == AllEvidence(own) && s.eventIds == AllEvents(own)
    && (forall f :: f in own ==> s.start <= f.createdAt <= s.end)
    && (exists f :: f in own && f.createdAt == s.start) && (exists f :: f in own && f.createdAt == s.end)
    && exists ordered :: InTimeOrder(ordered, own) && StagedAs(s.stages, ordered)
  }

  ghost predicate StagedAs(stages: seq<Stage>, ordered: seq<Finding>) {
    |stages| == |ordered| && forall i :: 0 <= i < |ordered| ==>
      stages[i].name == ordered[i].ruleId && stages[i].eventIds == ordered[i].eventIds && stages[i].timestamp == ordered[i].createdAt
  }

  /** Any two of the findings are at most the rule's window apart. */
  ghost predicate Close(rule: Rule, own: seq<Finding>) {
    forall f, g :: f in own && g in own ==> g.createdAt - f.createdAt <= rule.windowSeconds * 1_000_000
  }

  lemma SpanIffClose(rule: Rule, own: seq<Finding>)
    requires own != []
    ensures Latest(own) - Earliest(own) <= rule.windowSeconds * MICROS <==> Close(rule, own)
  {
    EarliestLatest(own);
    var a :| a in own && a.createdAt == Earliest(own);
    var b :| b in own && b.createdAt == Latest(own);
  }

  lemma MadeStoryTells(rule: Rule, entity: string, own: seq<Finding>)
    requires own != []
    ensures Tells(MakeStory(rule, entity, own), rule, entity, own)
  {
    var s, ordered := MakeStory(rule, entity, own), SortBy(own, ByCreation());
    StoryIsOrdered(rule, entity, own);
    AllAreListed(own);
    EarliestLatest(own);
    forall i, j | 0 <= i < j < |ordered| ensures ordered[i].createdAt <= ordered[j].createdAt {
      assert s.stages[i].timestamp <= s.stages[j].timestamp;
    }
    assert InTimeOrder(ordered, own) && StagedAs(s.stages, ordered);
  }

  /** A story about an entity is told exactly if there are findings about it that cover what the rule requires, are enough
      and lie close together; and it says what these findings say. */
  lemma StoryTellsItsFindings(rule: Rule, fs: seq<Finding>, entity: string)
    ensures var own := Own(rule, fs, entity);
      (exists s :: s in StoriesFor(rule, fs) && s.entity == entity) <==>
        own != [] && NoRepeats(rule.required) && Covers(rule, own) && |own| >= rule.minFindings && Close(rule, own)
    ensures forall s :: s in StoriesFor(rule, fs) && s.entity == entity ==> Tells(s, rule, entity, Own(rule, fs, entity))
  {
    OwnIsAbout(rule, fs, entity);
    var own := Own(rule, fs, entity);
    StoryIff(rule, fs, entity);
    if own != [] {
      SpanIffClose(rule, own);
      MadeStoryTells(rule, entity, own);
    }
  }

  // ---------- the order of stories ----------

  lemma {:induction false} StoriesFollowGroups(rule: Rule, groups: seq<Group<Finding>>) returns (ats: seq<nat>)
    requires forall i :: 0 <= i < |groups| ==> groups[i].items != []
    ensures Ascends(ats) && |ats| == |StoriesOf(rule, groups)|
    ensures forall i :: 0 <= i < |ats| ==> ats[i] < |groups| && groups[ats[i]].key == StoriesOf(rule, groups)[i].entity
  {
    ats := [];
    if groups != [] {
      var init, g := groups[..|groups|-1], groups[|groups|-1];
      ats := StoriesFollowGroups(rule, init);
      if Passes(rule, g.items) { ats := ats + [|init|]; }
    }
  }

  /** The stories of a rule come in the order in which their entities first have a finding by a required rule. */
  lemma StoriesInOrder(rule: Rule, fs: seq<Finding>) returns (ps: seq<nat>)
    ensures var stories, matched := StoriesFor(rule, fs), Matched(rule, fs);
      && Ascends(ps) && |ps| == |stories|
      && forall i :: 0 <= i < |ps| ==> FirstAt(matched, ByEntity(rule), stories[i].entity, ps[i])
  {
    EarlyCheckChangesNothing(rule, fs);
    var groups := GroupsFor(rule, fs);
    var ats := StoriesFollowGroups(rule, groups);
    var firsts := GroupsInFirstSeenOrder(Matched(rule, fs), ByEntity(rule));
    ps := seq(|ats|, i requires 0 <= i < |ats| => firsts[ats[i]]);
  }

  /** The stories of the rules, rule after rule. */
  function StoriesOfRules(rules: seq<Rule>, fs: seq<Finding>): seq<Story> {
    if rules == [] then [] else StoriesFor(rules[0], fs) + StoriesOfRules(rules[1..], fs)
  }

  lemma {:induction false} StoriesOfOneMore(rules: seq<Rule>, r: Rule, fs: seq<Finding>)
    ensures StoriesOfRules(rules + [r], fs) == StoriesOfRules(rules, fs) + StoriesFor(r, fs)
  {
    if rules == [] {
      assert [r][1..] == [];
    } else {
      var rest := rules[1..];
      StoriesOfOneMore(rest, r, fs);
      assert (rules + [r])[1..] == rest + [r];
      ConcatAssoc(StoriesFor(rules[0], fs), StoriesOfRules(rest, fs), StoriesFor(r, fs));
    }
  }

  /** Rules are applied in the order given. */
  lemma {:induction false} RulesAreAppliedInOrder(rules: seq<Rule>, fs: seq<Finding>)
    ensures Apply(rules, fs) == StoriesOfRules(rules, fs)
  {
    if rules != [] {
      var init, r := rules[..|rules|-1], rules[|rules|-1];
      RulesAreAppliedInOrder(init, fs);
      StoriesOfOneMore(init, r, fs);
      assert rules == init + [r];
    }
  }
}
