/** Small vocabulary shared by the models: options, text of numbers, and order-preserving filters. */
module Common {
  datatype Option<+T> = None | Some(value: T)

  function Digits(n: nat): string {
    if n < 10 then [('0' as int + n) as char] else Digits(n / 10) + [('0' as int + n % 10) as char]
  }

  function Number(n: int): string { if n < 0 then "-" + Digits(-n) else Digits(n) }

  function LowerChar(c: char): char {
    if 'A' <= c <= 'Z' then c - 'A' + 'a' else c
  }

  function Lower(s: string): string {
    if s == "" then "" else [LowerChar(s[0])] + Lower(s[1..])
  }

  /** The elements of `s` that satisfy `keep`, in order. */
  function Filter<T>(s: seq<T>, keep: T -> bool): seq<T> {
    if s == [] then []
    else if keep(s[0]) then [s[0]] + Filter(s[1..], keep)
    else Filter(s[1..], keep)
  }

  lemma ConcatAssoc<T>(a: seq<T>, b: seq<T>, c: seq<T>)
    ensures a + b + c == a + (b + c)
  {
  }

  /** The results of `f` over the elements of `xs`, one after the other. */
  function FlatMap<A, B>(xs: seq<A>, f: A -> seq<B>): seq<B> {
    if xs == [] then [] else FlatMap(xs[..|xs|-1], f) + f(xs[|xs|-1])
  }

  lemma {:induction false} FlatMapMembers<A, B>(xs: seq<A>, f: A -> seq<B>, y: B)
    ensures y in FlatMap(xs, f) <==> exists i :: 0 <= i < |xs| && y in f(xs[i])
  {
    if xs != [] {
      var init, x := xs[..|xs|-1], xs[|xs|-1];
      FlatMapMembers(init, f, y);
      if i :| 0 <= i < |init| && y in f(init[i]) {
        assert xs[i] == init[i];
      }
      if i :| 0 <= i < |xs| && y in f(xs[i]) {
        if i < |init| { assert xs[i] == init[i]; }
      }
    }
  }

  /** The index of the first element that satisfies `p`. */
  function Find<T>(s: seq<T>, p: T -> bool): (r: Option<nat>)
    ensures r.Some? ==> r.value < |s| && p(s[r.value]) && forall i :: 0 <= i < r.value ==> !p(s[i])
    ensures r.None? ==> forall i :: 0 <= i < |s| ==> !p(s[i])
  {
    if s == [] then None
    else if p(s[0]) then Some(0)
    else
      var rest := Find(s[1..], p);
      if rest.Some? then Some(rest.value + 1)
      else
        assert forall i :: 1 <= i < |s| ==> s[i] == s[1..][i-1];
        None
  }

  /** Up to position `k` the texts agree, and there `a` ends or has the smaller character. */
  predicate DiffersAt(a: string, b: string, k: nat) {
    k <= |a| && k < |b| && a[..k] == b[..k] && (k == |a| || a[k] < b[k])
  }

  /** Code-point order of texts, as comparing and sorting them uses it. */
  ghost predicate Precedes(a: string, b: string) { exists k {:trigger DiffersAt(a, b, k)} :: DiffersAt(a, b, k) }

  lemma PrecedesTail(a: string, b: string)
    requires a != "" && b != "" && a[0] == b[0]
    ensures Precedes(a, b) <==> Precedes(a[1..], b[1..])
  {
    if k: nat :| DiffersAt(a, b, k) {
      assert a[1..][..k-1] == a[..k][1..] && b[1..][..k-1] == b[..k][1..];
      assert DiffersAt(a[1..], b[1..], k - 1);
    }
    if k: nat :| DiffersAt(a[1..], b[1..], k) {
      assert a[..k+1] == [a[0]] + a[1..][..k] && b[..k+1] == [b[0]] + b[1..][..k];
      assert DiffersAt(a, b, k + 1);
    }
  }

  lemma DiffersLater(a: string, b: string, k: nat)
    requires DiffersAt(a, b, k) && k > 0
    ensures a != "" && a[0] == b[0]
  {
    assert a[..k][0] == a[0] && b[..k][0] == b[0];
  }

  lemma PrecedesHead(a: string, b: string)
    requires a != "" && b != "" && a[0] != b[0]
    ensures Precedes(a, b) <==> a[0] < b[0]
  {
    if k: nat :| DiffersAt(a, b, k) {
      if k > 0 { DiffersLater(a, b, k); }
    }
    if a[0] < b[0] { assert DiffersAt(a, b, 0); }
  }

  // ---------- numerals ----------

  /** What a text of decimal digits denotes. */
  function Denoted(s: string): int {
    if s == "" then 0 else Denoted(s[..|s|-1]) * 10 + (s[|s|-1] as int - '0' as int)
  }

  predicate IsNumeral(s: string) {
    s != "" && (forall i :: 0 <= i < |s| ==> '0' <= s[i] <= '9') && (s[0] == '0' ==> |s| == 1)
  }

  lemma {:induction false} DigitsDenote(n: nat)
    ensures IsNumeral(Digits(n)) && Denoted(Digits(n)) == n
    ensures n > 0 ==> Digits(n)[0] != '0'
  {
    var s := Digits(n);
    if n < 10 {
      assert s[..|s|-1] == "";
    } else {
      DigitsDenote(n / 10);
      assert s[..|s|-1] == Digits(n / 10) && s[0] == Digits(n / 10)[0];
    }
  }

  /** The text of a number is its decimal numeral, with a minus sign if it is negative. */
  lemma NumberDenotes(n: int)
    ensures var s := Number(n); if n >= 0 then IsNumeral(s) && Denoted(s) == n else s != "" && s[0] == '-' && IsNumeral(s[1..]) && Denoted(s[1..]) == -n
    ensures forall i :: 0 <= i < |Number(n)| ==> Number(n)[i] == '-' || '0' <= Number(n)[i] <= '9'
  {
    if n >= 0 { DigitsDenote(n); }
    else {
      DigitsDenote(-n);
      assert Number(n)[1..] == Digits(-n);
    }
  }

  lemma NumberTells(m: int, n: int)
    ensures Number(m) == Number(n) ==> m == n
  {
    NumberDenotes(m);
    NumberDenotes(n);
  }

  // ---------- case ----------

  /** Capital letters are replaced by the small ones, all else is kept. */
  predicate IsInSmall(small: string, s: string) {
    |small| == |s| && forall i :: 0 <= i < |s| ==> small[i] as int == if 'A' <= s[i] <= 'Z' then s[i] as int + 32 else s[i] as int
  }

  lemma {:induction false} LowerIsInSmall(s: string)
    ensures IsInSmall(Lower(s), s)
  {
    if s != "" { LowerIsInSmall(s[1..]); }
  }

  lemma OneInSmall(small: string, s: string)
    ensures IsInSmall(small, s) <==> small == Lower(s)
  {
    LowerIsInSmall(s);
    if IsInSmall(small, s) {
      forall i | 0 <= i < |s| ensures small[i] == Lower(s)[i] { assert small[i] as int == Lower(s)[i] as int; }
    }
  }
}
