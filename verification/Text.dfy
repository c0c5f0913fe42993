// Code-point order on text, decimal numerals and prefix-free quoting: the three
// text mechanics the rest of the project builds identities and orderings from.

module Prelude {
  datatype Option<+T> = None | Some(value: T)

  function Min(a: int, b: int): int { if a < b then a else b }
  function Max(a: int, b: int): int { if a > b then a else b }

  predicate Distinct<X(==)>(s: seq<X>) { forall i, j :: 0 <= i < j < |s| ==> s[i] != s[j] }

  lemma SubsetSize<X>(a: set<X>, b: set<X>)
    requires a <= b
    ensures |a| <= |b|
  {
    assert b == a + (b - a);
  }

  lemma ProperSubset<X>(a: set<X>, b: set<X>)
    requires a < b
    ensures |a| < |b|
  {
    assert b == a + (b - a) && b - a != {};
  }

  lemma ConcatDistinct<X>(a: seq<X>, b: seq<X>)
    requires Distinct(a) && Distinct(b) && forall x :: x in a ==> x !in b
    ensures Distinct(a + b)
  {
    forall i, j | 0 <= i < j < |a + b| ensures (a + b)[i] != (a + b)[j] {
      if i < |a| <= j { assert a[i] in a && b[j - |a|] in b; }
    }
  }
}

module Text {

  // ---- code-point order: what COLLATE "C" and Python's str comparison both compute ----

  predicate Before(a: string, b: string) {
    if b == [] then false
    else if a == [] then true
    else if a[0] != b[0] then a[0] < b[0]
    else Before(a[1..], b[1..])
  }

  lemma {:induction false} Trichotomy(a: string, b: string)
    ensures a == b || Before(a, b) || Before(b, a)
    ensures !(Before(a, b) && Before(b, a))
    ensures !Before(a, a)
  {
    if a != [] && b != [] && a[0] == b[0] {
      Trichotomy(a[1..], b[1..]);
      assert a == [a[0]] + a[1..] && b == [b[0]] + b[1..];
    }
    if a != [] {
      Trichotomy(a[1..], a[1..]);
    }
  }

  lemma {:induction false} Transitive(a: string, b: string, c: string)
    requires Before(a, b) && Before(b, c)
    ensures Before(a, c)
  {
    if a != [] && a[0] == b[0] && b[0] == c[0] {
      Transitive(a[1..], b[1..], c[1..]);
    }
  }

  // a is a proper prefix of b, or carries the smaller character where they first differ.
  lemma {:induction false} BeforeMeans(a: string, b: string)
    ensures Before(a, b) <==>
      || (|a| < |b| && a == b[..|a|])
      || exists i :: 0 <= i < |a| && i < |b| && a[..i] == b[..i] && a[i] < b[i]
  {
    if a != [] && b != [] {
      if a[0] == b[0] {
        BeforeMeans(a[1..], b[1..]);
        assert a == [a[0]] + a[1..] && b == [b[0]] + b[1..];
        if |a| < |b| { assert b[..|a|] == [b[0]] + b[1..][..|a| - 1]; }
        if i :| 0 <= i < |a[1..]| && i < |b[1..]| && a[1..][..i] == b[1..][..i] && a[1..][i] < b[1..][i] {
          assert a[..i + 1] == [a[0]] + a[1..][..i] && b[..i + 1] == [b[0]] + b[1..][..i];
        }
        if i :| 0 <= i < |a| && i < |b| && a[..i] == b[..i] && a[i] < b[i] {
          assert a[1..][..i - 1] == a[..i][1..] && b[1..][..i - 1] == b[..i][1..];
        }
      } else if a[0] < b[0] {
        assert a[..0] == b[..0];
      } else {
        assert forall i :: 0 < i <= |a| && i <= |b| ==> a[..i][0] != b[..i][0];
      }
    }
  }

  // ---- decimal numerals ----

  predicate IsDigit(c: char) { '0' <= c <= '9' }

  predicate AllDigits(s: string) { forall i :: 0 <= i < |s| ==> IsDigit(s[i]) }

  function Digit(n: nat): char
    requires n < 10
  {
    (n as char) + '0'
  }

  function Decimal(n: nat): (s: string)
    ensures s != [] && AllDigits(s)
  {
    if n < 10 then [Digit(n)] else Decimal(n / 10) + [Digit(n % 10)]
  }

  function Value(s: string): nat
    requires AllDigits(s)
  {
    if s == [] then 0
    else 10 * Value(s[..|s| - 1]) + (s[|s| - 1] as int - '0' as int)
  }

  lemma {:induction false} DecimalRoundTrip(n: nat)
    ensures Value(Decimal(n)) == n
  {
    if n >= 10 {
      DecimalRoundTrip(n / 10);
      assert Decimal(n)[..|Decimal(n)| - 1] == Decimal(n / 10);
    } else {
      assert [Digit(n)][..0] == [];
      assert Value([]) == 0;
    }
  }

  // ---- quoting: a self-delimiting rendering of any text ----

  function Quote(s: string): string {
    if s == [] then "." else ['x', s[0]] + Quote(s[1..])
  }

  // No quoted text is a proper prefix of another, so a concatenation of quoted
  // texts can be read back in only one way.
  lemma {:induction false} QuotePrefixFree(a: string, b: string, x: string, y: string)
    requires Quote(a) + x == Quote(b) + y
    ensures a == b && x == y
  {
    var l, r := Quote(a) + x, Quote(b) + y;
    assert l[0] == (if a == [] then '.' else 'x');
    assert r[0] == (if b == [] then '.' else 'x');
    if a == [] {
      assert x == l[1..] == r[1..] == y;
    } else {
      assert l[1] == a[0] && r[1] == b[0];
      assert l[2..] == Quote(a[1..]) + x && r[2..] == Quote(b[1..]) + y;
      QuotePrefixFree(a[1..], b[1..], x, y);
      assert a == [a[0]] + a[1..] && b == [b[0]] + b[1..];
    }
  }
}

// Content addressing (ids.canonical_json and ids.digest). The digest is modelled by an
// explicit injective rendering of the canonical document, so collision freedom is a
// theorem here and never an assumption.
module Canonical {
  import opened Text
  import opened Prelude

  // A canonical document: scalars, and lists as cells.
  datatype Json = Null | Number(n: int) | Str(s: string) | Nil | Cons(head: Json, tail: Json)

  function Numeral(n: int): string {
    if n < 0 then "-" + Decimal(-n) else Decimal(n)
  }

  function Render(j: Json): string {
    match j
    case Null => "n"
    case Nil => "e"
    case Number(n) => "i" + Quote(Numeral(n))
    case Str(s) => "s" + Quote(s)
    case Cons(head, tail) => "(" + Render(head) + Render(tail)
  }

  lemma NumeralInjective(m: int, n: int)
    requires Numeral(m) == Numeral(n)
    ensures m == n
  {
    DecimalRoundTrip(if m < 0 then -m else m);
    DecimalRoundTrip(if n < 0 then -n else n);
    assert m < 0 <==> Numeral(m)[0] == '-';
    assert n < 0 <==> Numeral(n)[0] == '-';
    if m < 0 {
      assert Numeral(m)[1..] == Decimal(-m) && Numeral(n)[1..] == Decimal(-n);
    }
  }

  lemma RenderHead(j: Json, x: string)
    ensures |Render(j)| >= 1
    ensures (Render(j) + x)[0] ==
            match j { case Null => 'n' case Nil => 'e' case Number(_) => 'i' case Str(_) => 's' case Cons(_, _) => '(' }
  {
  }

  lemma RenderTail(j: Json, x: string)
    ensures |Render(j)| >= 1 && (Render(j) + x)[1..] == Render(j)[1..] + x
  {
  }

  lemma RenderCons(a: Json, b: Json, x: string)
    ensures (Render(Cons(a, b)) + x)[1..] == Render(a) + (Render(b) + x)
  {
    Shift("(", Render(a), Render(b), x);
  }

  lemma Shift(h: string, a: string, b: string, x: string)
    requires |h| == 1
    ensures (h + a + b + x)[1..] == a + (b + x)
  {
  }

  // No document is a proper prefix of another, so the rendering can be read back in only
  // one way.
  lemma {:induction false} RenderPrefixFree(a: Json, b: Json, x: string, y: string)
    requires Render(a) + x == Render(b) + y
    ensures a == b && x == y
  {
    RenderHead(a, x);
    RenderHead(b, y);
    RenderTail(a, x);
    RenderTail(b, y);
    match a {
      case Null =>
      case Nil =>
      case Number(m) =>
        QuotePrefixFree(Numeral(m), Numeral(b.n), x, y);
        NumeralInjective(m, b.n);
      case Str(s) =>
        QuotePrefixFree(s, b.s, x, y);
      case Cons(head, tail) =>
        RenderCons(head, tail, x);
        RenderCons(b.head, b.tail, y);
        RenderPrefixFree(head, b.head, Render(tail) + x, Render(b.tail) + y);
        RenderPrefixFree(tail, b.tail, x, y);
    }
  }

  function Digest(j: Json): string { "sha256:" + Render(j) }

  lemma DigestInjective(a: Json, b: Json)
    requires Digest(a) == Digest(b)
    ensures a == b
  {
    assert Digest(a)[7..] == Render(a) && Digest(b)[7..] == Render(b);
    assert Render(a) + [] == Render(a) && Render(b) + [] == Render(b);
    RenderPrefixFree(a, b, [], []);
  }

  function OptionJson(o: Option<string>): Json {
    match o case None => Null case Some(s) => Str(s)
  }
}
