/**
 The leaves of BlueQL predicates: what a field of an event is worth and how it compares with a
 literal.  `repr` is the text of a floating-point literal.
 */
module BlueQLValues {
  import opened Common
  import opened BlueQL
  import opened BlueQLSearch

  datatype Value = Missing | Flag(flag: bool) | Count(count: int) | Word(word: string)

  type Repr = real -> string

  /** Fields the event stores as they are; an absent key is a missing value. */
  const STORED: set<string> := {
    "process.name", "parent.name", "user.name", "src_ip", "dst_ip", "category", "event_type", "outcome", "action"
  }

  function Stored(e: Event, field: string): Value {
    if field in e.fields then Word(e.fields[field]) else Missing
  }

  predicate Is(e: Event, field: string, word: string) { field in e.fields && e.fields[field] == word }

  predicate External(e: Event) {
    && "dst_ip" in e.fields && e.fields["dst_ip"] != ""
    && !("10." <= e.fields["dst_ip"]) && !("192.168." <= e.fields["dst_ip"]) && !("172." <= e.fields["dst_ip"])
  }

  predicate PrivilegeChange(e: Event) {
    "action" in e.fields && e.fields["action"] in {"add_to_group", "grant_role", "add_member", "elevate"}
  }

  /** None for an unknown field, which raises. */
  function FieldValue(e: Event, field: string): Option<Value> {
    if field in STORED then Some(Stored(e, field))
    else if field == "network.external" then Some(Flag(External(e)))
    else if field == "auth.failures" then Some(Count(if Is(e, "category", "authentication") && Is(e, "outcome", "failure") then 1 else 0))
    else if field == "auth.success" then Some(Flag(Is(e, "category", "authentication") && Is(e, "outcome", "success")))
    else if field == "privilege.change" then Some(Flag(PrivilegeChange(e)))
    else None
  }

  // ---------- comparing ----------

  function FlagText(b: bool): string { if b then "True" else "False" }

  function ValueText(v: Value): string {
    match v
    case Missing => "None"
    case Flag(b) => FlagText(b)
    case Count(n) => Number(n)
    case Word(w) => w
  }

  function LiteralText(repr: Repr, l: Literal): string {
    match l
    case Text(t) => t
    case Truth(b) => FlagText(b)
    case Integer(n) => Number(n)
    case Decimal(d) => repr(d)
  }

  /** The literals that are `in {True, "true"}`: one and 1.0 equal True. */
  predicate MeansTrue(l: Literal) {
    l == Truth(true) || l == Text("true") || l == Integer(1) || l == Decimal(1.0)
  }

  predicate Equal(repr: Repr, v: Value, l: Literal) {
    match v
    case Flag(b) => if MeansTrue(l) then b else !b
    case _ => Lower(ValueText(v)) == Lower(LiteralText(repr, l))
  }

  /** Text is ordered character by character. */
  predicate Before(a: string, b: string) {
    b != "" && (a == "" || a[0] < b[0] || (a[0] == b[0] && Before(a[1..], b[1..])))
  }

  function AsNumber(l: Literal): Option<real> {
    match l
    case Text(_) => None
    case Truth(b) => Some(if b then 1.0 else 0.0)
    case Integer(n) => Some(n as real)
    case Decimal(d) => Some(d)
  }

  function ValueNumber(v: Value): Option<real> {
    match v
    case Flag(b) => Some(if b then 1.0 else 0.0)
    case Count(n) => Some(n as real)
    case _ => None
  }

  function OfBool(b: bool): Verdict { if b then Holds else Fails }

  /** Text orders with text and numbers with numbers; anything else raises. */
  function Order(v: Value, op: Comparator, l: Literal): Verdict {
    if v.Word? && l.Text? then
      var a, b := v.word, l.text;
      match op
      case Gt => OfBool(Before(b, a))
      case Ge => OfBool(a == b || Before(b, a))
      case Lt => OfBool(Before(a, b))
      case Le => OfBool(a == b || Before(a, b))
      case _ => Fails
    else if ValueNumber(v).Some? && AsNumber(l).Some? then
      var a, b := ValueNumber(v).value, AsNumber(l).value;
      match op
      case Gt => OfBool(a > b)
      case Ge => OfBool(a >= b)
      case Lt => OfBool(a < b)
      case Le => OfBool(a <= b)
      case _ => Fails
    else Raises
  }

  function Compare(repr: Repr, v: Value, op: Comparator, l: Literal): Verdict {
    if op == Eq then OfBool(Equal(repr, v, l))
    else if op == Ne then OfBool(!Equal(repr, v, l))
    else if v.Missing? then Fails
    else Order(v, op, l)
  }

  predicate AnyEqual(repr: Repr, v: Value, ls: seq<Literal>) {
    exists i :: 0 <= i < |ls| && Equal(repr, v, ls[i])
  }

  function EvalLeaf(repr: Repr, p: Pred, e: Event): Verdict {
    match p
    case In(field, values) =>
      var v := FieldValue(e, field);
      if v.None? then Raises else OfBool(AnyEqual(repr, v.value, values))
    case Cmp(field, op, l) =>
      var v := FieldValue(e, field);
      if v.None? then Raises else Compare(repr, v.value, op, l)
    case _ => Raises
  }

  function LeafOf(repr: Repr): Leaf { (p: Pred, e: Event) => EvalLeaf(repr, p, e) }

  // ---------- laws ----------

  /** `field = v1 OR field = v2 OR ...` */
  function Disjunction(field: string, values: seq<Literal>): Pred
    requires values != []
  {
    var last := Cmp(field, Eq, values[|values|-1]);
    if |values| == 1 then last else Or(Disjunction(field, values[..|values|-1]), last)
  }

  /** An IN list means the disjunction of its equalities, errors included. */
  lemma {:induction false} InIsDisjunction(repr: Repr, field: string, values: seq<Literal>, e: Event)
    requires values != []
    ensures Eval(LeafOf(repr), In(field, values), e) == Eval(LeafOf(repr), Disjunction(field, values), e)
  {
    var init, last := values[..|values|-1], values[|values|-1];
    var v := FieldValue(e, field);
    if |values| > 1 { InIsDisjunction(repr, field, init, e); }
    if v.Some? { AnyEqualSnoc(repr, v.value, values); }
  }

  lemma AnyEqualSnoc(repr: Repr, v: Value, values: seq<Literal>)
    requires values != []
    ensures AnyEqual(repr, v, values) <==> AnyEqual(repr, v, values[..|values|-1]) || Equal(repr, v, values[|values|-1])
  {
    var init := values[..|values|-1];
    if i :| 0 <= i < |init| && Equal(repr, v, init[i]) { assert values[i] == init[i]; }
    if i :| 0 <= i < |values| && Equal(repr, v, values[i]) {
      if i < |init| { assert init[i] == values[i]; }
    }
  }

  lemma {:induction false} SameRows(leaf: Leaf, p: Pred, q: Pred, events: seq<Event>)
    requires forall i :: 0 <= i < |events| ==> Eval(leaf, p, events[i]) == Eval(leaf, q, events[i])
    ensures FilterRows(leaf, p, events) == FilterRows(leaf, q, events)
  {
    if events != [] {
      var rest := events[1..];
      assert forall i :: 0 <= i < |rest| ==> rest[i] == events[i+1];
      SameRows(leaf, p, q, rest);
    }
  }

  /** So rewriting one to the other changes no answer. */
  lemma InSelectsAsDisjunction(repr: Repr, field: string, values: seq<Literal>, events: seq<Event>)
    requires values != []
    ensures FilterRows(LeafOf(repr), In(field, values), events) == FilterRows(LeafOf(repr), Disjunction(field, values), events)
  {
    forall i | 0 <= i < |events|
      ensures Eval(LeafOf(repr), In(field, values), events[i]) == Eval(LeafOf(repr), Disjunction(field, values), events[i])
    {
      InIsDisjunction(repr, field, values, events[i]);
    }
    SameRows(LeafOf(repr), In(field, values), Disjunction(field, values), events);
  }

  lemma {:induction false} Trichotomy(a: string, b: string)
    ensures a == b <==> !Before(a, b) && !Before(b, a)
    ensures !(Before(a, b) && Before(b, a))
  {
    if a != "" && b != "" {
      Trichotomy(a[1..], b[1..]);
      assert a == [a[0]] + a[1..] && b == [b[0]] + b[1..];
    }
  }

  function Opposite(op: Comparator): Comparator {
    match op
    case Eq => Ne case Ne => Eq case Lt => Ge case Ge => Lt case Gt => Le case Le => Gt
  }

  /** Negating a comparison is the opposite comparison, errors included, except exactly for an ordering
      of a missing value: that fails either way. */
  lemma NegationIff(repr: Repr, field: string, op: Comparator, l: Literal, e: Event)
    ensures Eval(LeafOf(repr), Not(Cmp(field, op, l)), e) == Eval(LeafOf(repr), Cmp(field, Opposite(op), l), e)
            <==> op in {Eq, Ne} || FieldValue(e, field) != Some(Missing)
  {
    var v := FieldValue(e, field);
    if v.Some? && v.value.Word? && l.Text? { Trichotomy(v.value.word, l.text); }
  }

  /** A missing value compares equal to the text `none`, in any case, and to no other text. */
  lemma MissingEqualsNone(repr: Repr, field: string, t: string, e: Event)
    requires FieldValue(e, field) == Some(Missing)
    ensures Eval(LeafOf(repr), Cmp(field, Eq, Text(t)), e) == Holds <==> Lower(t) == "none"
  {
    assert Lower("None") == "none" by {
      assert "None"[1..] == "one" && "one"[1..] == "ne" && "ne"[1..] == "e" && "e"[1..] == "";
    }
  }

  lemma FlagOff(repr: Repr, l: Literal, e: Event)
    requires FieldValue(e, "auth.success") == Some(Flag(false))
    ensures FilterRows(LeafOf(repr), Cmp("auth.success", Eq, l), [e]) == Rows(if MeansTrue(l) then [] else [e])
  {
    assert Eval(LeafOf(repr), Cmp("auth.success", Eq, l), e) == if MeansTrue(l) then Fails else Holds;
    assert [e][1..] == [];
    assert FilterRows(LeafOf(repr), Cmp("auth.success", Eq, l), []) == Rows([]);
  }

  const FLAGS: set<string> := {"network.external", "auth.success", "privilege.change"}

  ghost predicate SelectAlike(repr: Repr, l: Literal, l': Literal, field: string, events: seq<Event>) {
    FilterRows(LeafOf(repr), Cmp(field, Eq, l), events) == FilterRows(LeafOf(repr), Cmp(field, Eq, l'), events)
  }

  /** Two literals select the same events by every boolean field if and only if both or neither mean true:
      TRUE, "true", 1 and 1.0 are one class, and all other literals, "True" and "yes" among them, the other. */
  lemma LiteralsSelectAlikeIff(repr: Repr, l: Literal, l': Literal)
    ensures (forall field, events {:trigger SelectAlike(repr, l, l', field, events)} :: field in FLAGS ==> SelectAlike(repr, l, l', field, events))
            <==> (MeansTrue(l) <==> MeansTrue(l'))
  {
    if MeansTrue(l) <==> MeansTrue(l') {
      forall field, events | field in FLAGS ensures SelectAlike(repr, l, l', field, events) {
        forall e ensures Eval(LeafOf(repr), Cmp(field, Eq, l), e) == Eval(LeafOf(repr), Cmp(field, Eq, l'), e) {
          assert FieldValue(e, field).Some? && FieldValue(e, field).value.Flag?;
        }
        SameRows(LeafOf(repr), Cmp(field, Eq, l), Cmp(field, Eq, l'), events);
      }
    } else {
      var e := Event("", 0, map[]);
      assert FieldValue(e, "auth.success") == Some(Flag(false));
      FlagOff(repr, l, e);
      FlagOff(repr, l', e);
      assert !SelectAlike(repr, l, l', "auth.success", [e]);
    }
  }
}
