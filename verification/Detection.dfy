/**
 Detection: the event window and its queries, rules and the registry, and the Blue Range batch
 run over a whole scenario.  Times are in microseconds.
 */
module Detection {
  import opened Common
  import opened Sorting

  datatype Event = Event(
    id: string, tenantId: string, time: int, eventType: string, category: string,
    outcome: Option<string>, action: Option<string>, srcIp: Option<string>, userName: Option<string>,
    idempotencyKey: Option<string>)

  datatype Filters = Filters(
    eventType: Option<string>, category: Option<string>, outcome: Option<string>,
    srcIp: Option<string>, userName: Option<string>, action: Option<string>)

  const MICROS := 1_000_000

  /** A filter that is absent or empty does not restrict. */
  predicate Allows(filter: Option<string>, value: Option<string>) {
    filter.None? || filter.value == "" || filter == value
  }

  predicate Selected(e: Event, tenantId: string, since: int, until: Option<int>, f: Filters) {
    && e.tenantId == tenantId
    && e.time >= since
    && (until.Some? ==> e.time <= until.value)
    && Allows(f.eventType, Some(e.eventType)) && Allows(f.category, Some(e.category))
    && Allows(f.outcome, e.outcome) && Allows(f.srcIp, e.srcIp)
    && Allows(f.userName, e.userName) && Allows(f.action, e.action)
  }

  function Selecting(tenantId: string, since: int, until: Option<int>, f: Filters): Event -> bool {
    (e: Event) => Selected(e, tenantId, since, until, f)
  }

  function Query(window: seq<Event>, tenantId: string, since: int, until: Option<int>, f: Filters): seq<Event> {
    Filter(window, Selecting(tenantId, since, until, f))
  }

  method QueryWindow(window: seq<Event>, tenantId: string, since: int, until: Option<int>, f: Filters) returns (matched: seq<Event>)
    ensures matched == Query(window, tenantId, since, until, f)
  {
    matched := [];
    var i := 0;
    assert window[0..] == window;
    while i < |window|
      invariant 0 <= i <= |window|
      invariant matched + Query(window[i..], tenantId, since, until, f) == Query(window, tenantId, since, until, f)
    {
      var event := window[i];
      assert window[i..][0] == event && window[i..][1..] == window[i+1..];
      i := i + 1;
      if Selected(event, tenantId, since, until, f) {
        matched := matched + [event];
      }
    }
  }

  predicate Restricts(filter: Option<string>, value: Option<string>) {
    match filter
    case None => true
    case Some(wanted) => wanted == "" || (value.Some? && value.value == wanted)
  }

  /** A query keeps, in order, the tenant's events from `since` to `until`, both included, that have what each filter
      asks for; a filter that is not given, or blank, asks for nothing. */
  lemma QueryKeeps(window: seq<Event>, tenantId: string, since: int, until: Option<int>, f: Filters)
    ensures Query(window, tenantId, since, until, f) == Filter(window, (e: Event) =>
      && e.tenantId == tenantId && since <= e.time && (until.None? || e.time <= until.value)
      && (f.eventType.None? || f.eventType.value == "" || f.eventType.value == e.eventType)
      && (f.category.None? || f.category.value == "" || f.category.value == e.category)
      && Restricts(f.outcome, e.outcome) && Restricts(f.srcIp, e.srcIp)
      && Restricts(f.userName, e.userName) && Restricts(f.action, e.action))
  {
    FilterAlike(window, Selecting(tenantId, since, until, f), (e: Event) =>
      && e.tenantId == tenantId && since <= e.time && (until.None? || e.time <= until.value)
      && (f.eventType.None? || f.eventType.value == "" || f.eventType.value == e.eventType)
      && (f.category.None? || f.category.value == "" || f.category.value == e.category)
      && Restricts(f.outcome, e.outcome) && Restricts(f.srcIp, e.srcIp)
      && Restricts(f.userName, e.userName) && Restricts(f.action, e.action));
  }

  /** The last `seconds` up to and including the event, in the event's tenant. */
  function EventsInWindow(window: seq<Event>, e: Event, seconds: int, f: Filters): seq<Event> {
    Query(window, e.tenantId, e.time - seconds * MICROS, Some(e.time), f)
  }

  // ---------- rules ----------

  datatype Finding = Finding(
    ruleId: string, tenantId: string, fingerprint: string, eventIds: seq<string>, attributes: map<string, string>)

  datatype Context = Context(window: seq<Event>, open: set<string>, scheduled: bool)

  /** `Always` is any execution mode the registry does not know by name. */
  datatype Execution = Realtime | Scheduled | Always

  datatype Rule = Rule(ruleId: string, execution: Execution, evaluate: (Event, Context) -> seq<Finding>)

  predicate Runs(r: Rule, scheduled: bool) {
    match r.execution
    case Scheduled => scheduled
    case Realtime => !scheduled
    case Always => true
  }

  function EvaluateOne(e: Event, c: Context): Rule -> seq<Finding> {
    (r: Rule) => if Runs(r, c.scheduled) then r.evaluate(e, c) else []
  }

  function EvaluateAll(rules: seq<Rule>, e: Event, c: Context): seq<Finding> {
    FlatMap(rules, EvaluateOne(e, c))
  }

  /** Registering under a known rule id replaces the rule and keeps its place. */
  function Put(rules: seq<Rule>, r: Rule): seq<Rule> {
    if rules == [] then [r]
    else if rules[0].ruleId == r.ruleId then [r] + rules[1..]
    else [rules[0]] + Put(rules[1..], r)
  }

  class DetectionRegistry {
    var rules: seq<Rule>

    constructor ()
      ensures rules == []
    {
      rules := [];
    }

    method Register(rule: Rule)
      modifies this
      ensures rules == Put(old(rules), rule)
    {
      rules := Put(rules, rule);
    }

    method Evaluate(event: Event, context: Context) returns (findings: seq<Finding>)
      ensures findings == EvaluateAll(rules, event, context)
    {
      findings := [];
      var i := 0;
      while i < |rules|
        invariant 0 <= i <= |rules|
        invariant findings == EvaluateAll(rules[..i], event, context)
      {
        var rule := rules[i];
        assert rules[..i+1][..i] == rules[..i];
        i := i + 1;
        assert EvaluateAll(rules[..i], event, context) == findings + EvaluateOne(event, context)(rule);
        assert EvaluateOne(event, context)(rule) == if Runs(rule, context.scheduled) then rule.evaluate(event, context) else [];
        assert findings + [] == findings;
        if rule.execution == Scheduled && !context.scheduled {
          continue;
        }
        if rule.execution == Realtime && context.scheduled {
          continue;
        }
        findings := findings + rule.evaluate(event, context);
      }
      assert rules[..i] == rules;
    }
  }

  function Get(rules: seq<Rule>, id: string): Option<Rule> {
    if rules == [] then None
    else if rules[0].ruleId == id then Some(rules[0])
    else Get(rules[1..], id)
  }

  /** After registering, the id leads to the new rule, every other id to what it led to before, and the
      registry has grown by one rule only if the id was new. */
  lemma {:induction false} RegisterReplaces(rules: seq<Rule>, r: Rule, id: string)
    ensures Get(Put(rules, r), id) == if id == r.ruleId then Some(r) else Get(rules, id)
    ensures |Put(rules, r)| == |rules| + if Get(rules, r.ruleId).None? then 1 else 0
  {
    if rules != [] && rules[0].ruleId != r.ruleId {
      RegisterReplaces(rules[1..], r, id);
      assert Put(rules, r)[1..] == Put(rules[1..], r);
    } else if rules != [] {
      assert Put(rules, r)[1..] == rules[1..];
    }
  }

  /** Every rule keeps its place: under distinct ids, the one with the new rule's id is replaced where it is, all others
      stay, and only a new id is added at the end. */
  lemma {:induction false} RegisterKeepsPlaces(rules: seq<Rule>, r: Rule)
    requires forall i, j :: 0 <= i < j < |rules| ==> rules[i].ruleId != rules[j].ruleId
    ensures var after := Put(rules, r);
      && (forall i :: 0 <= i < |rules| ==> i < |after| && after[i] == if rules[i].ruleId == r.ruleId then r else rules[i])
      && if exists i :: 0 <= i < |rules| && rules[i].ruleId == r.ruleId then |after| == |rules|
         else |after| == |rules| + 1 && after[|rules|] == r
  {
    if rules != [] && rules[0].ruleId != r.ruleId {
      RegisterKeepsPlaces(rules[1..], r);
      assert Put(rules, r)[1..] == Put(rules[1..], r);
      if i :| 0 <= i < |rules| && rules[i].ruleId == r.ruleId { assert rules[1..][i-1].ruleId == r.ruleId; }
    } else if rules != [] {
      assert Put(rules, r)[1..] == rules[1..];
    }
  }

  function Fingerprints(fs: seq<Finding>): set<string> {
    set f | f in fs :: f.fingerprint
  }

  lemma FingerprintsMembers(fs: seq<Finding>, x: string)
    ensures x in Fingerprints(fs) <==> exists i :: 0 <= i < |fs| && fs[i].fingerprint == x
  {
    if x in Fingerprints(fs) {
      var f :| f in fs && f.fingerprint == x;
      var i :| 0 <= i < |fs| && fs[i] == f;
    }
    if i :| 0 <= i < |fs| && fs[i].fingerprint == x { assert fs[i] in fs; }
  }

  lemma FingerprintsAppend(a: seq<Finding>, b: seq<Finding>)
    ensures Fingerprints(a + b) == Fingerprints(a) + Fingerprints(b)
  {
    forall f ensures f in a + b <==> f in a || f in b {}
  }

  // ---------- the batch run ----------

  /** The findings of `run_scenario` after the first `n` events: every event sees the whole window, and
      what was found before is open. */
  function BatchAfter(rules: seq<Rule>, events: seq<Event>, n: nat): seq<Finding>
    requires n <= |events|
  {
    if n == 0 then [] else BatchOn(rules, BatchAfter(rules, events, n - 1), events, events[n-1])
  }

  /** One more event. */
  function BatchOn(rules: seq<Rule>, found: seq<Finding>, window: seq<Event>, e: Event): seq<Finding> {
    found + EvaluateAll(rules, e, Context(window, Fingerprints(found), false))
  }

  function BatchRun(rules: seq<Rule>, events: seq<Event>): seq<Finding> {
    BatchAfter(rules, events, |events|)
  }

  method RunScenario(registry: DetectionRegistry, events: seq<Event>) returns (findings: seq<Finding>)
    ensures findings == BatchRun(registry.rules, events)
  {
    findings := [];
    var open: set<string> := {};
    var i := 0;
    while i < |events|
      invariant 0 <= i <= |events|
      invariant findings == BatchAfter(registry.rules, events, i) && open == Fingerprints(findings)
    {
      var produced := registry.Evaluate(events[i], Context(events, open, false));
      open := OpenAll(open, produced);
      FingerprintsAppend(findings, produced);
      findings := findings + produced;
      i := i + 1;
    }
  }

  method OpenAll(before: set<string>, produced: seq<Finding>) returns (open: set<string>)
    ensures open == before + Fingerprints(produced)
  {
    open := before;
    var i := 0;
    while i < |produced|
      invariant 0 <= i <= |produced|
      invariant open == before + Fingerprints(produced[..i])
    {
      assert produced[..i+1] == produced[..i] + [produced[i]];
      FingerprintsAppend(produced[..i], [produced[i]]);
      assert Fingerprints([produced[i]]) == {produced[i].fingerprint} by { assert [produced[i]][0] == produced[i]; }
      open := open + {produced[i].fingerprint};
      i := i + 1;
    }
    assert produced[..i] == produced;
  }

  // ---------- what rules may do ----------

  /** Two windows look the same from an event if every query of the kind rules make agrees. */
  ghost predicate LookAlike(w: seq<Event>, w': seq<Event>, e: Event) {
    forall seconds, f :: EventsInWindow(w, e, seconds, f) == EventsInWindow(w', e, seconds, f)
  }

  /** The rule reads the window only through such queries. */
  ghost predicate ReadsThroughQueries(r: Rule) {
    forall e, w, w', open, scheduled {:trigger r.evaluate(e, Context(w, open, scheduled)), r.evaluate(e, Context(w', open, scheduled))} ::
      LookAlike(w, w', e) ==> r.evaluate(e, Context(w, open, scheduled)) == r.evaluate(e, Context(w', open, scheduled))
  }

  ghost predicate CitedFrom(id: string, e: Event, c: Context) {
    id == e.id || exists w :: w in c.window && w.id == id
  }

  /** Every event a finding of the rule cites is the event at hand or one of the window. */
  ghost predicate CitesWhatItSaw(r: Rule) {
    forall e, c, f {:trigger f in r.evaluate(e, c)} ::
      f in r.evaluate(e, c) ==> forall id :: id in f.eventIds ==> CitedFrom(id, e, c)
  }

  /** At most one finding per event, and none whose fingerprint is open. */
  ghost predicate ReportsOnce(r: Rule) {
    forall e, c {:trigger r.evaluate(e, c)} ::
      |r.evaluate(e, c)| <= 1 && forall f :: f in r.evaluate(e, c) ==> f.fingerprint !in c.open
  }

  /** Findings of rules with different ids never share a fingerprint. */
  ghost predicate FingerprintsTellRules(rules: seq<Rule>) {
    forall i, j, e, c, e', c', f, f' {:trigger f in rules[i].evaluate(e, c), f' in rules[j].evaluate(e', c')} ::
      0 <= i < j < |rules| && f in rules[i].evaluate(e, c) && f' in rules[j].evaluate(e', c') ==> f.fingerprint != f'.fingerprint
  }

  // ---------- a concrete rule: password spraying ----------

  predicate IsAuthFailure(e: Event) {
    e.category == "authentication" && e.eventType in {"login", "authentication", "logon"} && e.outcome == Some("failure")
  }

  const DISTINCT_USERS := 5
  const SPRAY_SECONDS := 600
  const SPRAY_ID := "identity.password_spray"

  function SprayFilters(e: Event): Filters {
    Filters(None, Some("authentication"), Some("failure"), e.srcIp, None, None)
  }

  function Users(es: seq<Event>): set<string> {
    set e | e in es && e.userName.Some? && e.userName.value != "" :: e.userName.value
  }

  function Ids(es: seq<Event>): seq<string> {
    if es == [] then [] else [es[0].id] + Ids(es[1..])
  }

  /** The related events, with the trigger put in front unless it is among them. */
  function CitedIds(trigger: Event, related: seq<Event>): seq<string> {
    if trigger.id in Ids(related) then Ids(related) else [trigger.id] + Ids(related)
  }

  /** Rule, tenant, address and minute.  The minute stands for its ISO text. */
  function SprayFingerprint(e: Event): string {
    SPRAY_ID + ":" + e.tenantId + ":" + (if e.srcIp.Some? then e.srcIp.value else "") + ":" + Number(e.time / (60 * MICROS))
  }

  function SprayRelated(e: Event, c: Context): seq<Event> {
    EventsInWindow(c.window, e, SPRAY_SECONDS, SprayFilters(e))
  }

  function EvaluateSpray(e: Event, c: Context): seq<Finding> {
    if !IsAuthFailure(e) || e.srcIp.None? || e.srcIp.value == "" then []
    else
      var related := SprayRelated(e, c);
      if |Users(related)| < DISTINCT_USERS then []
      else if SprayFingerprint(e) in c.open then []
      else [Finding(SPRAY_ID, e.tenantId, SprayFingerprint(e), CitedIds(e, related),
                    map["src_ip" := e.srcIp.value, "user" := if e.userName.Some? then e.userName.value else ""])]
  }

  const PASSWORD_SPRAY := Rule(SPRAY_ID, Realtime, EvaluateSpray)

  lemma {:induction false} IdsOf(es: seq<Event>, id: string)
    ensures id in Ids(es) <==> exists e :: e in es && e.id == id
  {
    if es != [] {
      IdsOf(es[1..], id);
      assert es == [es[0]] + es[1..];
    }
  }

  /** The password-spray rule keeps the discipline asked of rules: it reads the window only through
      queries, cites only what it saw, and reports an open fingerprint never. */
  lemma SprayIsDisciplined()
    ensures ReadsThroughQueries(PASSWORD_SPRAY) && CitesWhatItSaw(PASSWORD_SPRAY) && ReportsOnce(PASSWORD_SPRAY)
  {
    forall e, w, w', open, scheduled | LookAlike(w, w', e)
      ensures PASSWORD_SPRAY.evaluate(e, Context(w, open, scheduled)) == PASSWORD_SPRAY.evaluate(e, Context(w', open, scheduled))
    {
      assert EventsInWindow(w, e, SPRAY_SECONDS, SprayFilters(e)) == EventsInWindow(w', e, SPRAY_SECONDS, SprayFilters(e));
    }
    forall e, c, f, id | f in PASSWORD_SPRAY.evaluate(e, c) && id in f.eventIds ensures CitedFrom(id, e, c) {
      var related := SprayRelated(e, c);
      assert f.eventIds == CitedIds(e, related);
      IdsOf(related, id);
      FilterMembers(c.window, Selecting(e.tenantId, e.time - SPRAY_SECONDS * MICROS, Some(e.time), SprayFilters(e)));
    }
  }

  /** It fires exactly on a failed login with a source address when, in the ten minutes up to it, at
      least five named accounts of the tenant failed to authenticate from that address, unless the
      fingerprint of that minute is open. */
  lemma SprayFiresIff(e: Event, c: Context)
    ensures var attackers := set w | w in c.window && w.tenantId == e.tenantId && e.time - 600_000_000 <= w.time <= e.time
                                && w.category == "authentication" && w.outcome == Some("failure") && w.srcIp == e.srcIp
                                && w.userName.Some? && w.userName.value != "" :: w.userName.value;
      EvaluateSpray(e, c) != [] <==>
        && e.category == "authentication" && (e.eventType == "login" || e.eventType == "authentication" || e.eventType == "logon")
        && e.outcome == Some("failure") && e.srcIp.Some? && e.srcIp.value != "" && |attackers| >= 5 && SprayFingerprint(e) !in c.open
  {
    var attackers := set w | w in c.window && w.tenantId == e.tenantId && e.time - 600_000_000 <= w.time <= e.time
                        && w.category == "authentication" && w.outcome == Some("failure") && w.srcIp == e.srcIp
                        && w.userName.Some? && w.userName.value != "" :: w.userName.value;
    if e.srcIp.Some? && e.srcIp.value != "" {
      FilterMembers(c.window, Selecting(e.tenantId, e.time - SPRAY_SECONDS * MICROS, Some(e.time), SprayFilters(e)));
      assert Users(SprayRelated(e, c)) == attackers;
    }
  }

  /** The failures from the address of the event in the ten minutes up to it, in the order of the window. */
  function FailuresAround(e: Event, window: seq<Event>): seq<Event> {
    if window == [] then []
    else
      var w := window[0];
      (if w.tenantId == e.tenantId && e.time - 600_000_000 <= w.time <= e.time && w.category == "authentication"
          && w.outcome == Some("failure") && w.srcIp == e.srcIp then [w] else [])
      + FailuresAround(e, window[1..])
  }

  lemma {:induction false} RelatedAreFailures(e: Event, c: Context)
    requires e.srcIp.Some? && e.srcIp.value != ""
    ensures SprayRelated(e, c) == FailuresAround(e, c.window)
    decreases |c.window|
  {
    if c.window != [] { RelatedAreFailures(e, c.(window := c.window[1..])); }
  }

  ghost predicate Lists(ids: seq<string>, es: seq<Event>) { |ids| == |es| && forall i :: 0 <= i < |es| ==> ids[i] == es[i].id }

  lemma {:induction false} IdsList(es: seq<Event>)
    ensures Lists(Ids(es), es)
  {
    if es != [] { IdsList(es[1..]); }
  }

  /** What fires is a login, authentication or logon that failed.  It reports once: for the tenant, under the rule, tenant,
      address and minute, citing the failures around it in order, itself in front if it is not one of them, and
      naming its own address and account. */
  lemma SprayReports(e: Event, c: Context)
    requires EvaluateSpray(e, c) != []
    ensures var fs, around := EvaluateSpray(e, c), FailuresAround(e, c.window);
      && (e.eventType == "login" || e.eventType == "authentication" || e.eventType == "logon")
      && e.category == "authentication" && e.outcome == Some("failure") && e.srcIp.Some?
      && |fs| == 1 && fs[0].ruleId == "identity.password_spray" && fs[0].tenantId == e.tenantId
      && fs[0].fingerprint == "identity.password_spray" + ":" + e.tenantId + ":" + e.srcIp.value + ":" + Number(e.time / 60_000_000)
      && fs[0].attributes == map["src_ip" := e.srcIp.value, "user" := match e.userName case None => "" case Some(name) => name]
      && if exists f :: f in around && f.id == e.id then Lists(fs[0].eventIds, around)
         else fs[0].eventIds != [] && fs[0].eventIds[0] == e.id && Lists(fs[0].eventIds[1..], around)
  {
    RelatedAreFailures(e, c);
    IdsOf(SprayRelated(e, c), e.id);
    IdsList(SprayRelated(e, c));
  }
}
