/** Which queries never raise, told from the query alone. */
module BlueQLSafety {
  import opened Common
  import opened Sorting
  import opened BlueQL
  import opened BlueQLSearch
  import opened BlueQLRaising
  import opened BlueQLValues

  const COMPUTED: set<string> := {"network.external", "auth.failures", "auth.success", "privilege.change"}

  predicate KnownField(field: string) { field in STORED || field in COMPUTED }

  /** Text is stored, numbers and flags are computed. */
  predicate LikeWithLike(field: string, l: Literal) { if field in STORED then l.Text? else !l.Text? }

  predicate IsLeaf(p: Pred) { p.In? || p.Cmp? }

  predicate SafeLeaf(p: Pred)
    requires IsLeaf(p)
  {
    match p
    case In(field, _) => KnownField(field)
    case Cmp(field, op, l) => KnownField(field) && (op in {Eq, Ne} || LikeWithLike(field, l))
  }

  ghost predicate NeverRaises(repr: Repr, p: Pred) { forall e :: Eval(LeafOf(repr), p, e) != Raises }

  lemma FieldValueKind(e: Event, field: string)
    ensures FieldValue(e, field).Some? <==> KnownField(field)
    ensures field in STORED ==> FieldValue(e, field).value == Missing || FieldValue(e, field).value.Word?
    ensures field in COMPUTED ==> ValueNumber(FieldValue(e, field).value).Some?
  {
  }

  /** A comparison or membership raises on no event exactly if its field is known and, where it is an
      ordering, it compares like with like. */
  lemma LeafNeverRaisesIff(repr: Repr, p: Pred)
    requires IsLeaf(p)
    ensures NeverRaises(repr, p) <==> SafeLeaf(p)
  {
    if SafeLeaf(p) {
      forall e ensures Eval(LeafOf(repr), p, e) != Raises { FieldValueKind(e, p.field); }
    } else {
      var e := Event("", 0, map[p.field := ""]);
      FieldValueKind(e, p.field);
      assert Eval(LeafOf(repr), p, e) == Raises;
    }
  }

  /** All leaves are safe. */
  predicate Safe(p: Pred) {
    match p
    case Or(l, r) => Safe(l) && Safe(r)
    case And(l, r) => Safe(l) && Safe(r)
    case Not(i) => Safe(i)
    case _ => SafeLeaf(p)
  }

  /** Neither the predicate nor any part of it raises on any event. */
  ghost predicate NoPartRaises(repr: Repr, p: Pred) {
    NeverRaises(repr, p) &&
    match p
    case Or(l, r) => NoPartRaises(repr, l) && NoPartRaises(repr, r)
    case And(l, r) => NoPartRaises(repr, l) && NoPartRaises(repr, r)
    case Not(i) => NoPartRaises(repr, i)
    case _ => true
  }

  lemma WholeNeverRaises(repr: Repr, p: Pred)
    ensures (p.Or? || p.And?) && NeverRaises(repr, p.left) && NeverRaises(repr, p.right) ==> NeverRaises(repr, p)
    ensures p.Not? && NeverRaises(repr, p.inner) ==> NeverRaises(repr, p)
  {
  }

  /** A predicate none of whose parts raises on any event is one whose leaves are all safe. */
  lemma {:induction false} SafeIff(repr: Repr, p: Pred)
    ensures NoPartRaises(repr, p) <==> Safe(p)
  {
    match p {
      case Or(l, r) =>
        SafeIff(repr, l);
        SafeIff(repr, r);
        WholeNeverRaises(repr, p);
      case And(l, r) =>
        SafeIff(repr, l);
        SafeIff(repr, r);
        WholeNeverRaises(repr, p);
      case Not(i) =>
        SafeIff(repr, i);
        WholeNeverRaises(repr, p);
      case _ => LeafNeverRaisesIff(repr, p);
    }
  }

  /** As a whole, a predicate can be kept from raising by a short circuit that hides an unsafe leaf. */
  lemma ShortCircuitHidesALeaf(repr: Repr)
    ensures var never := And(Cmp("auth.success", Eq, Truth(true)), Cmp("auth.success", Ne, Truth(true)));
      var p := And(never, Cmp("src_ip", Gt, Integer(5)));
      NeverRaises(repr, p) && !Safe(p)
  {
    var yes, no := Cmp("auth.success", Eq, Truth(true)), Cmp("auth.success", Ne, Truth(true));
    var p := And(And(yes, no), Cmp("src_ip", Gt, Integer(5)));
    forall e ensures Eval(LeafOf(repr), p, e) != Raises {
      FieldValueKind(e, "auth.success");
      assert Eval(LeafOf(repr), And(yes, no), e) == Fails;
    }
  }

  /** A sequence query with safe steps comes back with rows whatever the events and the window, and
      widening the window loses none of them. */
  lemma SafeQueriesKeepRows(repr: Repr, steps: seq<Pred>, within: Option<nat>, wider: Option<nat>, events: seq<Event>)
    requires steps != [] && Window(within) <= Window(wider)
    requires forall k :: 0 <= k < |steps| ==> Safe(steps[k])
    ensures var r, r' := ExecuteSequence(LeafOf(repr), steps, within, events), ExecuteSequence(LeafOf(repr), steps, wider, events);
      r.Rows? && Keeps(r, r')
  {
    forall p, e | p in steps && e in SortBy(events, ByTime()) ensures Eval(LeafOf(repr), p, e) != Raises {
      var k :| 0 <= k < |steps| && steps[k] == p;
      SafeIff(repr, steps[k]);
    }
    WideningKeepsRows(LeafOf(repr), steps, within, wider, events);
  }
}
