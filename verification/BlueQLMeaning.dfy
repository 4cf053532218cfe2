/**
 What a BlueQL comparison selects, told from the event: readings of the computed fields in arithmetic, stored
 text in code-point order, equality without regard to case, and the connectives in logic.
 */
module BlueQLMeaning {
  import opened Common
  import opened Sorting
  import opened BlueQL
  import opened BlueQLSearch
  import opened BlueQLValues

  // ---------- fields ----------

  predicate Says(e: Event, field: string, word: string) { field in e.fields.Keys && e.fields[field] == word }

  predicate IsStored(field: string) {
    || field == "process.name" || field == "parent.name" || field == "user.name" || field == "src_ip" || field == "dst_ip"
    || field == "category" || field == "event_type" || field == "outcome" || field == "action"
  }

  predicate IsFlag(field: string) { field == "network.external" || field == "auth.success" || field == "privilege.change" }

  /** Whether the flag is set: a login that succeeded, a change of privileges, or a destination outside the
      private address ranges. */
  predicate FlagSet(e: Event, field: string)
    requires IsFlag(field)
  {
    match field
    case "auth.success" => Says(e, "category", "authentication") && Says(e, "outcome", "success")
    case "privilege.change" =>
      Says(e, "action", "add_to_group") || Says(e, "action", "grant_role") || Says(e, "action", "add_member") || Says(e, "action", "elevate")
    case _ =>
      "dst_ip" in e.fields &&
      var ip := e.fields["dst_ip"];
      ip != "" && !("10." <= ip || "192.168." <= ip || "172." <= ip)
  }

  predicate FailedLogin(e: Event) { Says(e, "category", "authentication") && Says(e, "outcome", "failure") }

  predicate IsComputed(field: string) { field == "auth.failures" || IsFlag(field) }

  /** The number a computed field is in a comparison; a flag counts as one or zero. */
  function Reading(e: Event, field: string): real
    requires IsComputed(field)
  {
    if (if field == "auth.failures" then FailedLogin(e) else FlagSet(e, field)) then 1.0 else 0.0
  }

  lemma FlagIsSet(e: Event, field: string)
    requires IsFlag(field)
    ensures FieldValue(e, field) == Some(Flag(FlagSet(e, field)))
  {
  }

  lemma FailuresAreCounted(e: Event)
    ensures FieldValue(e, "auth.failures") == Some(Count(if FailedLogin(e) then 1 else 0))
  {
  }

  lemma StoredIsText(e: Event, field: string)
    requires IsStored(field)
    ensures FieldValue(e, field) == Some(if field in e.fields then Word(e.fields[field]) else Missing)
  {
  }

  // ---------- orderings ----------

  predicate IsOrdering(op: Comparator) { op != Eq && op != Ne }

  predicate InOrder(a: real, op: Comparator, b: real)
    requires IsOrdering(op)
  {
    match op
    case Gt => a > b
    case Ge => a >= b
    case Lt => a < b
    case _ => a <= b
  }

  function NumberMeant(l: Literal): real
    requires !l.Text?
  {
    match l
    case Integer(n) => n as real
    case Decimal(d) => d
    case Truth(b) => if b then 1.0 else 0.0
  }

  ghost predicate TextInOrder(a: string, op: Comparator, b: string)
    requires IsOrdering(op)
  {
    match op
    case Gt => Precedes(b, a)
    case Ge => Precedes(b, a) || a == b
    case Lt => Precedes(a, b)
    case _ => Precedes(a, b) || a == b
  }

  lemma {:induction false} BeforeIsOrder(a: string, b: string)
    ensures Before(a, b) <==> Precedes(a, b)
  {
    if a == "" {
      if b != "" { assert DiffersAt(a, b, 0); }
    } else if b != "" {
      if a[0] == b[0] {
        BeforeIsOrder(a[1..], b[1..]);
        PrecedesTail(a, b);
      } else {
        PrecedesHead(a, b);
      }
    }
  }

  lemma Selects(leaf: Leaf, p: Pred, events: seq<Event>, keep: Event -> bool)
    requires forall e :: e in events ==> Eval(leaf, p, e) == if keep(e) then Holds else Fails
    ensures FilterRows(leaf, p, events) == Rows(Filter(events, keep))
  {
    FilterRowsSpec(leaf, p, events);
    FilterAlike(events, e => Eval(leaf, p, e) == Holds, keep);
  }

  /** An ordering of a computed field selects the events whose reading is so ordered to the literal, in arithmetic. */
  lemma NumbersAreOrdered(repr: Repr, field: string, op: Comparator, l: Literal, events: seq<Event>)
    requires IsComputed(field) && IsOrdering(op) && !l.Text?
    ensures FilterRows(LeafOf(repr), Cmp(field, op, l), events) == Rows(Filter(events, (e: Event) => InOrder(Reading(e, field), op, NumberMeant(l))))
  {
    forall e ensures Eval(LeafOf(repr), Cmp(field, op, l), e) == if InOrder(Reading(e, field), op, NumberMeant(l)) then Holds else Fails {
      if field == "auth.failures" { FailuresAreCounted(e); } else { FlagIsSet(e, field); }
    }
    Selects(LeafOf(repr), Cmp(field, op, l), events, (e: Event) => InOrder(Reading(e, field), op, NumberMeant(l)));
  }

  /** An ordering of a stored field with a text: an event without the field is left out, and of the others those are
      kept whose text is so ordered to it, by code points. */
  lemma TextsAreOrdered(repr: Repr, field: string, op: Comparator, t: string, e: Event)
    requires IsStored(field) && IsOrdering(op)
    ensures Eval(LeafOf(repr), Cmp(field, op, Text(t)), e)
            == if field in e.fields && TextInOrder(e.fields[field], op, t) then Holds else Fails
  {
    StoredIsText(e, field);
    if field in e.fields {
      BeforeIsOrder(e.fields[field], t);
      BeforeIsOrder(t, e.fields[field]);
    }
  }

  lemma StoredRaisesIff(repr: Repr, field: string, op: Comparator, l: Literal, e: Event)
    requires IsStored(field)
    ensures Eval(LeafOf(repr), Cmp(field, op, l), e) == Raises <==> IsOrdering(op) && field in e.fields && !l.Text?
  {
    StoredIsText(e, field);
  }

  lemma ComputedRaisesIff(repr: Repr, field: string, op: Comparator, l: Literal, e: Event)
    requires IsComputed(field)
    ensures Eval(LeafOf(repr), Cmp(field, op, l), e) == Raises <==> IsOrdering(op) && l.Text?
  {
    if field == "auth.failures" { FailuresAreCounted(e); } else { FlagIsSet(e, field); }
  }

  /** A comparison raises on an event exactly if its field is unknown, or it orders a text with a number or flag. */
  lemma ComparisonRaisesIff(repr: Repr, field: string, op: Comparator, l: Literal, e: Event)
    ensures Eval(LeafOf(repr), Cmp(field, op, l), e) == Raises <==>
            || (!IsStored(field) && !IsComputed(field))
            || (IsOrdering(op) && IsStored(field) && field in e.fields && !l.Text?)
            || (IsOrdering(op) && IsComputed(field) && l.Text?)
  {
    if IsStored(field) { StoredRaisesIff(repr, field, op, l, e); }
    else if IsComputed(field) { ComputedRaisesIff(repr, field, op, l, e); }
  }

  // ---------- equality ----------

  /** The texts are the same but for the case of letters. */
  predicate SameButCase(a: string, b: string) {
    |a| == |b| && forall i :: 0 <= i < |a| ==>
      || a[i] == b[i]
      || ('A' <= a[i] <= 'Z' && b[i] as int == a[i] as int + 32)
      || ('A' <= b[i] <= 'Z' && a[i] as int == b[i] as int + 32)
  }

  lemma {:induction false} LowerIff(a: string, b: string)
    ensures Lower(a) == Lower(b) <==> SameButCase(a, b)
  {
    if a != "" && b != "" {
      LowerIff(a[1..], b[1..]);
      assert Lower(a) == [LowerChar(a[0])] + Lower(a[1..]) && Lower(b) == [LowerChar(b[0])] + Lower(b[1..]);
      if Lower(a) == Lower(b) {
        assert Lower(a)[0] == LowerChar(a[0]) && Lower(a)[1..] == Lower(a[1..]) && Lower(b)[1..] == Lower(b[1..]);
      }
      assert SameButCase(a, b) ==> SameButCase(a[1..], b[1..]);
    }
  }

  function Meant(repr: Repr, l: Literal): string {
    match l
    case Text(t) => t
    case Truth(b) => if b then "true" else "false"
    case Integer(n) => Number(n)
    case Decimal(d) => repr(d)
  }

  lemma MeantIsWritten(repr: Repr, l: Literal)
    ensures Lower(LiteralText(repr, l)) == Lower(Meant(repr, l))
  {
    if l.Truth? {
      assert SameButCase("True", "true") && SameButCase("False", "false");
      LowerIff("True", "true");
      LowerIff("False", "false");
    }
  }

  /** Equality of a stored field looks at the word, whatever its case, and the literal's; an event without the field
      has the word None. */
  lemma TextEquals(repr: Repr, field: string, l: Literal, e: Event)
    requires IsStored(field)
    ensures var word := if field in e.fields then e.fields[field] else "None";
      Eval(LeafOf(repr), Cmp(field, Eq, l), e) == if SameButCase(word, Meant(repr, l)) then Holds else Fails
  {
    StoredIsText(e, field);
    LowerIff(if field in e.fields then e.fields[field] else "None", Meant(repr, l));
    MeantIsWritten(repr, l);
  }

  /** Equality of a flag: TRUE, "true", 1 and 1.0 ask for it set, anything else for it not set. */
  lemma FlagEquals(repr: Repr, field: string, l: Literal, e: Event)
    requires IsFlag(field)
    ensures Eval(LeafOf(repr), Cmp(field, Eq, l), e)
            == if FlagSet(e, field) == (l in {Truth(true), Text("true"), Integer(1), Decimal(1.0)}) then Holds else Fails
  {
    FlagIsSet(e, field);
  }

  /** `auth.failures = n` selects by the count itself. */
  lemma FailuresEqual(repr: Repr, n: int, e: Event)
    ensures Eval(LeafOf(repr), Cmp("auth.failures", Eq, Integer(n)), e) == if n == (if FailedLogin(e) then 1 else 0) then Holds else Fails
  {
    FailuresAreCounted(e);
    NumberTells(n, 0);
    NumberTells(n, 1);
    NumberHasNoCase(n);
    NumberHasNoCase(0);
    NumberHasNoCase(1);
  }

  lemma NumberHasNoCase(n: int)
    ensures Lower(Number(n)) == Number(n)
  {
    NumberDenotes(n);
    LowerStays(Number(n));
  }

  lemma {:induction false} LowerStays(s: string)
    requires forall i :: 0 <= i < |s| ==> !('A' <= s[i] <= 'Z')
    ensures Lower(s) == s
  {
    if s != "" {
      LowerStays(s[1..]);
      assert s == [s[0]] + s[1..];
    }
  }

  /** Inequality is the complement of equality. */
  lemma UnequalIsNotEqual(repr: Repr, field: string, l: Literal, e: Event)
    ensures var equal := Eval(LeafOf(repr), Cmp(field, Eq, l), e);
      Eval(LeafOf(repr), Cmp(field, Ne, l), e) == match equal case Holds => Fails case Fails => Holds case Raises => Raises
  {
  }

  // ---------- connectives ----------

  /** The predicate is true of the event, its parts being looked at from the left only as far as needed. */
  ghost predicate True(leaf: Leaf, p: Pred, e: Event) {
    match p
    case And(l, r) => True(leaf, l, e) && True(leaf, r, e)
    case Or(l, r) => True(leaf, l, e) || (False(leaf, l, e) && True(leaf, r, e))
    case Not(i) => False(leaf, i, e)
    case _ => leaf(p, e) == Holds
  }

  ghost predicate False(leaf: Leaf, p: Pred, e: Event) {
    match p
    case And(l, r) => False(leaf, l, e) || (True(leaf, l, e) && False(leaf, r, e))
    case Or(l, r) => False(leaf, l, e) && False(leaf, r, e)
    case Not(i) => True(leaf, i, e)
    case _ => leaf(p, e) == Fails
  }

  /** Evaluation finds out which, and raises if neither. */
  lemma {:induction false} EvalDecides(leaf: Leaf, p: Pred, e: Event)
    ensures Eval(leaf, p, e) == Holds <==> True(leaf, p, e)
    ensures Eval(leaf, p, e) == Fails <==> False(leaf, p, e)
  {
    match p {
      case And(l, r) =>
        EvalDecides(leaf, l, e);
        EvalDecides(leaf, r, e);
      case Or(l, r) =>
        EvalDecides(leaf, l, e);
        EvalDecides(leaf, r, e);
      case Not(i) => EvalDecides(leaf, i, e);
      case _ =>
    }
  }
}
