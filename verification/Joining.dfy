/** Texts joined with a separator, and what can be told from them. */
module Joining {
  predicate Free(s: string, c: char) { c !in s }

  /** The fields between the separators; one more than there are separators. */
  function Pieces(s: string, c: char): (ps: seq<string>)
    ensures ps != []
  {
    if s == "" then [""]
    else
      Prepend(s[0], Pieces(s[1..], c), c)
  }

  function Unpieces(ps: seq<string>, c: char): string
    requires ps != []
  {
    if |ps| == 1 then ps[0] else ps[0] + [c] + Unpieces(ps[1..], c)
  }

  lemma {:induction false} PiecesGiveBack(s: string, c: char)
    ensures Unpieces(Pieces(s, c), c) == s
  {
    if s != "" {
      PiecesGiveBack(s[1..], c);
      var rest, ps := Pieces(s[1..], c), Pieces(s, c);
      assert s == [s[0]] + s[1..];
      if s[0] == c {
        assert ps[1..] == rest;
      } else {
        assert ps[1..] == rest[1..];
        assert |rest| > 1 ==> [s[0]] + rest[0] + [c] + Unpieces(rest[1..], c) == [s[0]] + (rest[0] + [c] + Unpieces(rest[1..], c));
      }
    }
  }

  lemma SamePieces(a: string, b: string, c: char)
    requires Pieces(a, c) == Pieces(b, c)
    ensures a == b
  {
    PiecesGiveBack(a, c);
    PiecesGiveBack(b, c);
  }

  lemma {:induction false} PiecesJoin(a: string, b: string, c: char)
    ensures Pieces(a + [c] + b, c) == Pieces(a, c) + Pieces(b, c)
  {
    var s := a + [c] + b;
    if a == "" {
      assert s[1..] == b;
    } else {
      PiecesJoin(a[1..], b, c);
      assert s[0] == a[0] && s[1..] == a[1..] + [c] + b;
      Prepended(a[0], Pieces(a[1..], c), Pieces(b, c), c);
    }
  }

  function Prepend(x: char, ps: seq<string>, c: char): seq<string>
    requires ps != []
  {
    if x == c then [""] + ps else [[x] + ps[0]] + ps[1..]
  }

  lemma Prepended(x: char, ps: seq<string>, qs: seq<string>, c: char)
    requires ps != []
    ensures Prepend(x, ps + qs, c) == Prepend(x, ps, c) + qs
  {
    assert (ps + qs)[1..] == ps[1..] + qs;
  }

  lemma {:induction false} FreePieces(s: string, c: char)
    ensures Free(s, c) ==> Pieces(s, c) == [s]
    ensures |Pieces(s, c)| == 1 ==> Free(s, c)
  {
    if s != "" {
      FreePieces(s[1..], c);
      assert s == [s[0]] + s[1..];
    }
  }

  /** A first field without the separator can be told from what follows it. */
  lemma FirstField(a: string, x: string, b: string, y: string, c: char)
    requires Free(a, c) && Free(b, c) && a + [c] + x == b + [c] + y
    ensures a == b && x == y
  {
    JoinedSplit(a, x, b, y, c);
    if a + [c] <= b { ExtensionIsNotFree(a, b, c); }
    if b + [c] <= a { ExtensionIsNotFree(b, a, c); }
  }

  lemma ExtensionIsNotFree(a: string, b: string, c: char)
    requires a + [c] <= b
    ensures !Free(b, c)
  {
    assert b[|a|] == c;
  }

  /** One text joined in two ways: they are the same way, or one first field extends the other. */
  lemma JoinedSplit(a: string, x: string, b: string, y: string, c: char)
    requires a + [c] + x == b + [c] + y
    ensures (a == b && x == y) || a + [c] <= b || b + [c] <= a
  {
    var s := a + [c] + x;
    assert s[..|a|] == a && s[|a|] == c && s[|a|+1..] == x;
    assert s[..|b|] == b && s[|b|] == c && s[|b|+1..] == y;
    if |a| < |b| {
      assert b[..|a|+1] == s[..|a|+1] == a + [c];
    } else if |b| < |a| {
      assert a[..|b|+1] == s[..|b|+1] == b + [c];
    }
  }

  /** Everything before and after the first separator. */
  lemma {:induction false} SplitAtFirst(s: string, c: char) returns (a: string, b: string)
    requires !Free(s, c)
    ensures s == a + [c] + b && Free(a, c)
  {
    if s[0] == c {
      a, b := "", s[1..];
    } else {
      a, b := SplitAtFirst(s[1..], c);
      a := [s[0]] + a;
      assert s == [s[0]] + s[1..];
    }
  }

  lemma SameRest(t: string, x: string, y: string)
    requires t + x == t + y
    ensures x == y
  {
    assert (t + x)[|t|..] == x && (t + y)[|t|..] == y;
  }

  /** Three fields, the middle one without the separator: what follows the first tells both others. */
  lemma MiddleField(t: string, k: string, x: string, k': string, x': string, c: char)
    requires Free(k, c) && Free(k', c) && t + [c] + k + [c] + x == t + [c] + k' + [c] + x'
    ensures k == k' && x == x'
  {
    Regroup(t + [c], k, [c], x);
    Regroup(t + [c], k', [c], x');
    SameRest(t + [c], k + [c] + x, k' + [c] + x');
    FirstField(k, x, k', x', c);
  }

  lemma Regroup(a: string, b: string, c: string, d: string)
    ensures a + b + c + d == a + (b + c + d)
  {
  }

  lemma Reassoc(p: string, r: string, tail: string, key: string, c: char)
    requires r + tail == [c] + key
    ensures p + r + tail == p + [c] + key
  {
    assert p + r + tail == p + (r + tail) && p + [c] + key == p + ([c] + key);
  }

  /** If the first field of the one way extends that of the other, it does so by the other's middle field and
      what comes after it. */
  lemma Extension(t: string, k: string, x: string, t': string, y: string, c: char) returns (r: string)
    requires Free(k, c) && t + [c] <= t' && t + [c] + k + [c] + x == t' + [c] + y
    ensures t' == t + [c] + k + r
    ensures r == "" || (r[0] == c && r[1..] <= x)
  {
    var z := t'[|t|+1..];
    assert t' == t + [c] + z;
    Regroup(t + [c], k, [c], x);
    Regroup(t + [c], z, [c], y);
    SameRest(t + [c], k + [c] + x, z + [c] + y);
    if Free(z, c) {
      FirstField(k, x, z, y, c);
      r := "";
      assert t + [c] + k + r == t';
    } else {
      var a, b := SplitAtFirst(z, c);
      Regroup(a, [c], b, [c] + y);
      assert z + [c] + y == a + [c] + (b + ([c] + y));
      FirstField(k, x, a, b + ([c] + y), c);
      r := [c] + b;
      assert r[1..] == b;
      assert t + [c] + k + r == t + [c] + z;
    }
  }
}
