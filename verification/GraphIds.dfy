/**
 The ids under which the graph files entities and relations: a digest of their fields joined with
 bars.  Within a tenant an id tells its entity; between tenants it need not.
 */
module GraphIds {
  import opened Common
  import opened Joining
  import opened Graph

  type Digest = string -> string

  /** Different texts have different digests, which contain no bar. */
  ghost predicate GoodDigest(h: Digest) {
    && (forall a, b {:trigger Tells(h, a, b)} :: Tells(h, a, b))
    && (forall a {:trigger BarFree(h, a)} :: BarFree(h, a))
  }

  ghost predicate Tells(h: Digest, a: string, b: string) { h(a) == h(b) ==> a == b }

  ghost predicate BarFree(h: Digest, a: string) { Free(h(a), '|') }

  /** Text that lower-casing leaves alone. */
  predicate LowCase(s: string) { forall i :: 0 <= i < |s| ==> LowerChar(s[i]) == s[i] }

  lemma {:induction false} LowerIsLow(s: string)
    ensures |Lower(s)| == |s| && LowCase(Lower(s))
  {
    if s != "" { LowerIsLow(s[1..]); }
  }

  function KindName(k: EntityType): (s: string)
    ensures Free(s, '|') && LowCase(s)
  {
    match k
    case UserEntity => "user"
    case HostEntity => "host"
    case IpEntity => "ip"
    case DomainEntity => "domain"
    case ProcessEntity => "process"
    case CloudEntity => "cloud_resource"
  }

  function RelationName(r: Relation): (s: string)
    ensures Free(s, '|')
  {
    match r
    case UsedFrom => "used_from"
    case OnHost => "on_host"
    case Ran => "ran"
    case ChildOf => "child_of"
    case ConnectedTo => "connected_to"
    case Queried => "queried"
  }

  function IdText(id: EntityId): string { id.tenantId + "|" + KindName(id.kind) + "|" + id.key }

  function EntityKey(h: Digest, id: EntityId): string { "ent_" + h(IdText(id)) }

  function RelationText(h: Digest, r: RelationId): string {
    r.tenantId + "|" + EntityKey(h, r.src) + "|" + RelationName(r.relation) + "|" + EntityKey(h, r.dst)
  }

  function RelationKey(h: Digest, r: RelationId): string { "rel_" + h(RelationText(h, r)) }

  // ---------- within a tenant ----------

  lemma KindsTell(k: EntityType, k': EntityType)
    requires KindName(k) == KindName(k')
    ensures k == k'
  {
    assert "user"[0] == 'u' && "host"[0] == 'h' && "ip"[0] == 'i' && "domain"[0] == 'd' && "process"[0] == 'p' && "cloud_resource"[0] == 'c';
  }

  lemma RelationsTell(r: Relation, r': Relation)
    requires RelationName(r) == RelationName(r')
    ensures r == r'
  {
    assert "child_of"[1] == 'h' && "connected_to"[1] == 'o';
    assert "used_from"[0] == 'u' && "on_host"[0] == 'o' && "ran"[0] == 'r' && "child_of"[0] == 'c' && "connected_to"[0] == 'c' && "queried"[0] == 'q';
  }

  lemma TextTellsEntity(id: EntityId, id': EntityId)
    requires id.tenantId == id'.tenantId && IdText(id) == IdText(id')
    ensures id == id'
  {
    MiddleField(id.tenantId, KindName(id.kind), id.key, KindName(id'.kind), id'.key, '|');
    KindsTell(id.kind, id'.kind);
  }

  /** Within a tenant, an id belongs to one kind and key only. */
  lemma KeyTellsEntity(h: Digest, id: EntityId, id': EntityId)
    requires GoodDigest(h) && EntityKey(h, id) == EntityKey(h, id')
    ensures IdText(id) == IdText(id')
    ensures id.tenantId == id'.tenantId ==> id == id'
  {
    SameRest("ent_", h(IdText(id)), h(IdText(id')));
    assert Tells(h, IdText(id), IdText(id'));
    if id.tenantId == id'.tenantId { TextTellsEntity(id, id'); }
  }

  lemma KeyIsFree(h: Digest, id: EntityId)
    requires GoodDigest(h)
    ensures Free(EntityKey(h, id), '|')
  {
    assert BarFree(h, IdText(id));
  }

  ghost predicate OfOneTenant(r: RelationId) { r.src.tenantId == r.tenantId && r.dst.tenantId == r.tenantId }

  /** Within a tenant, a relation id belongs to one relation between two entities only. */
  lemma KeyTellsRelation(h: Digest, r: RelationId, r': RelationId)
    requires GoodDigest(h) && r.tenantId == r'.tenantId && OfOneTenant(r) && OfOneTenant(r')
    requires RelationKey(h, r) == RelationKey(h, r')
    ensures r == r'
  {
    SameRest("rel_", h(RelationText(h, r)), h(RelationText(h, r')));
    assert Tells(h, RelationText(h, r), RelationText(h, r'));
    RelationPieces(h, r);
    RelationPieces(h, r');
    var t, n := Pieces(r.tenantId, '|'), |Pieces(r.tenantId, '|')|;
    var ps := t + [EntityKey(h, r.src), RelationName(r.relation), EntityKey(h, r.dst)];
    assert ps == t + [EntityKey(h, r'.src), RelationName(r'.relation), EntityKey(h, r'.dst)];
    assert ps[n] == EntityKey(h, r'.src) && ps[n+1] == RelationName(r'.relation) && ps[n+2] == EntityKey(h, r'.dst);
    RelationsTell(r.relation, r'.relation);
    KeyTellsEntity(h, r.src, r'.src);
    KeyTellsEntity(h, r.dst, r'.dst);
  }

  // ---------- between tenants ----------

  /** `t'` is `t` followed by a bar and the name of a kind, and then by nothing or by a bar and lower-case text. */
  ghost predicate Extends(t: string, t': string) {
    exists k, r {:trigger Extended(t, k, r)} :: t' == Extended(t, k, r) && (r == "" || r[0] == '|') && LowCase(r)
  }

  function Extended(t: string, k: EntityType, r: string): string { t + "|" + KindName(k) + r }

  /** The graph's keys are in lower case. */
  predicate LowKey(id: EntityId) { LowCase(id.key) }

  lemma SameTextExtends(id: EntityId, id': EntityId)
    requires IdText(id) == IdText(id') && id.tenantId + "|" <= id'.tenantId && LowKey(id)
    ensures Extends(id.tenantId, id'.tenantId)
  {
    TextParts(id');
    var r := Extension(id.tenantId, KindName(id.kind), id.key, id'.tenantId, KindName(id'.kind) + "|" + id'.key, '|');
    forall i | 0 <= i < |r| ensures LowerChar(r[i]) == r[i] {
      if i > 0 { assert r[i] == r[1..][i-1] == id.key[i-1]; }
    }
    assert id'.tenantId == Extended(id.tenantId, id.kind, r);
  }

  lemma ExtensionSharesText(t: string, t': string) returns (id: EntityId, id': EntityId)
    requires Extends(t, t')
    ensures id.tenantId == t && id'.tenantId == t' && LowKey(id) && LowKey(id') && IdText(id) == IdText(id')
  {
    var k, r :| t' == Extended(t, k, r) && (r == "" || r[0] == '|') && LowCase(r);
    var tail := "|user|x";
    id, id' := EntityId(t, k, (r + tail)[1..]), EntityId(t', UserEntity, "x");
    UserText(t');
    LowTail(r, tail);
    Reassoc(t + "|" + KindName(k), r, tail, id.key, '|');
  }

  lemma UserText(t: string)
    ensures IdText(EntityId(t, UserEntity, "x")) == t + "|user|x"
  {
    assert "|" + "user" + "|" + "x" == "|user|x";
  }

  lemma LowTail(r: string, tail: string)
    requires LowCase(r) && (r == "" || r[0] == '|') && tail == "|user|x"
    ensures r + tail == ['|'] + (r + tail)[1..] && LowCase((r + tail)[1..])
  {
    assert LowCase(tail);
    assert LowCase(r + tail);
    var s := (r + tail)[1..];
    assert forall i :: 0 <= i < |s| ==> s[i] == (r + tail)[i+1];
  }

  /** Entities of two tenants can have one id exactly if one tenant's name extends the other's with the
      name of a kind. */
  lemma IdsCollideIff(t: string, t': string)
    requires t != t'
    ensures (exists id: EntityId, id': EntityId {:trigger IdText(id), IdText(id')} ::
              id.tenantId == t && id'.tenantId == t' && LowKey(id) && LowKey(id') && IdText(id) == IdText(id'))
            <==> Extends(t, t') || Extends(t', t)
  {
    if id: EntityId, id': EntityId :| id.tenantId == t && id'.tenantId == t' && LowKey(id) && LowKey(id') && IdText(id) == IdText(id') {
      JoinedSplit(t, KindName(id.kind) + "|" + id.key, t', KindName(id'.kind) + "|" + id'.key, '|') by { TextParts(id); TextParts(id'); }
      if t + "|" <= t' { SameTextExtends(id, id'); } else { SameTextExtends(id', id); }
    }
    if Extends(t, t') { var id, id' := ExtensionSharesText(t, t'); }
    if Extends(t', t) { var id', id := ExtensionSharesText(t', t); }
  }

  lemma TextParts(id: EntityId)
    ensures IdText(id) == id.tenantId + ['|'] + (KindName(id.kind) + "|" + id.key)
  {
  }

  /** Relations of two tenants never have one id. */
  lemma RelationKeysNeverCollide(h: Digest, r: RelationId, r': RelationId)
    requires GoodDigest(h) && RelationKey(h, r) == RelationKey(h, r')
    ensures r.tenantId == r'.tenantId
  {
    SameRest("rel_", h(RelationText(h, r)), h(RelationText(h, r')));
    assert Tells(h, RelationText(h, r), RelationText(h, r'));
    RelationPieces(h, r);
    RelationPieces(h, r');
    var n, n' := |Pieces(r.tenantId, '|')|, |Pieces(r'.tenantId, '|')|;
    assert n == n';
    assert Pieces(r.tenantId, '|') == Pieces(RelationText(h, r), '|')[..n];
    assert Pieces(r'.tenantId, '|') == Pieces(RelationText(h, r'), '|')[..n];
    SamePieces(r.tenantId, r'.tenantId, '|');
  }

  lemma RelationPieces(h: Digest, r: RelationId)
    requires GoodDigest(h)
    ensures Pieces(RelationText(h, r), '|') == Pieces(r.tenantId, '|') + [EntityKey(h, r.src), RelationName(r.relation), EntityKey(h, r.dst)]
  {
    var t, a, n, b := r.tenantId, EntityKey(h, r.src), RelationName(r.relation), EntityKey(h, r.dst);
    KeyIsFree(h, r.src);
    KeyIsFree(h, r.dst);
    FreePieces(a, '|');
    FreePieces(n, '|');
    FreePieces(b, '|');
    PiecesJoin(t, a, '|');
    PiecesJoin(t + "|" + a, n, '|');
    PiecesJoin(t + "|" + a + "|" + n, b, '|');
  }
}
