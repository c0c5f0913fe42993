// Lock 2 (kawa/retrieval.py): supports and contradicts share one budget, so a cut falls
// evenly on both sides; in the evidence class and in the expansion order alike.

module Fairness {
  import opened Prelude
  import opened Vocabulary
  import N = Neighborhood

  function Interleave<X>(a: seq<X>, b: seq<X>): (r: seq<X>)
    ensures |r| == |a| + |b|
  {
    if a == [] then b
    else if b == [] then a
    else [a[0], b[0]] + Interleave(a[1..], b[1..])
  }

  // The next turn of the alternation: one from each side that still has one.
  function Turn<X>(a: seq<X>, b: seq<X>, i: nat): seq<X> {
    (if i < |a| then [a[i]] else []) + if i < |b| then [b[i]] else []
  }

  method Alternate<X>(a: seq<X>, b: seq<X>) returns (r: seq<X>)
    ensures r == Interleave(a, b)
  {
    r := [];
    var n := if |a| > |b| then |a| else |b|;
    Started(a, b);
    for i := 0 to n
      invariant Partway(a, b, i, r)
    {
      ghost var before := r;
      if i < |a| {
        r := r + [a[i]];
      }
      if i < |b| {
        r := r + [b[i]];
      }
      TurnPushed(a, b, i, before, r);
    }
    Ended(a, b, n, r);
  }

  // After i turns, what is left of the two sides completes the alternation.
  ghost predicate Partway<X>(a: seq<X>, b: seq<X>, i: nat, r: seq<X>) {
    r + Interleave(Rest(a, i), Rest(b, i)) == Interleave(a, b)
  }

  lemma Started<X>(a: seq<X>, b: seq<X>)
    ensures Partway(a, b, 0, [])
  {
  }

  lemma Ended<X>(a: seq<X>, b: seq<X>, n: nat, r: seq<X>)
    requires |a| <= n && |b| <= n && Partway(a, b, n, r)
    ensures r == Interleave(a, b)
  {
    assert Interleave(Rest(a, n), Rest(b, n)) == [];
  }

  lemma TurnPushed<X>(a: seq<X>, b: seq<X>, i: nat, before: seq<X>, r: seq<X>)
    requires Partway(a, b, i, before)
    requires var half := if i < |a| then before + [a[i]] else before; r == if i < |b| then half + [b[i]] else half
    ensures Partway(a, b, i + 1, r)
  {
    assert r == before + Turn(a, b, i);
    TurnTaken(a, b, i);
    Associate(before, Turn(a, b, i), Interleave(Rest(a, i + 1), Rest(b, i + 1)));
  }

  lemma Associate<X>(a: seq<X>, b: seq<X>, c: seq<X>)
    ensures (a + b) + c == a + (b + c)
  {
  }

  lemma TurnTaken<X>(a: seq<X>, b: seq<X>, i: nat)
    ensures Interleave(Rest(a, i), Rest(b, i)) == Turn(a, b, i) + Interleave(Rest(a, i + 1), Rest(b, i + 1))
  {
    InterleaveStep(Rest(a, i), Rest(b, i));
    assert Rest(Rest(a, i), 1) == Rest(a, i + 1) && Rest(Rest(b, i), 1) == Rest(b, i + 1);
  }

  function Rest<X>(s: seq<X>, i: nat): seq<X> { if i <= |s| then s[i..] else [] }

  lemma InterleaveStep<X>(a: seq<X>, b: seq<X>)
    ensures Interleave(a, b) ==
            (if a != [] then [a[0]] else []) + (if b != [] then [b[0]] else []) + Interleave(Rest(a, 1), Rest(b, 1))
  {
    if a == [] || b == [] {
      assert a != [] ==> a == [a[0]] + a[1..];
      assert b != [] ==> b == [b[0]] + b[1..];
      if a == [] && b != [] { assert Interleave([], b[1..]) == b[1..]; }
      if b == [] && a != [] { assert Interleave(a[1..], []) == a[1..]; }
    }
  }

  // ---- the evidence class ----

  datatype Hit = Hit(relation: Relation, ref: string)

  function Tagged(r: Relation, refs: seq<string>): (t: seq<Hit>)
    ensures |t| == |refs| && forall i :: 0 <= i < |t| ==> t[i] == Hit(r, refs[i])
  {
    seq(|refs|, i requires 0 <= i < |refs| => Hit(r, refs[i]))
  }

  // The refs of one relation among the hits, in order.
  function Side(hits: seq<Hit>, r: Relation): seq<string> {
    if hits == [] then []
    else if hits[0].relation == r then [hits[0].ref] + Side(hits[1..], r)
    else Side(hits[1..], r)
  }

  function Limit<X>(s: seq<X>, n: nat): seq<X> { if n < |s| then s[..n] else s }

  function Evidence(sup: seq<string>, con: seq<string>, budget: nat): seq<Hit> {
    Limit(Interleave(Tagged(Supports, Limit(sup, budget)), Tagged(Contradicts, Limit(con, budget))), budget)
  }

  method ExecEvidence(sup: seq<string>, con: seq<string>, budget: nat) returns (out: seq<Hit>)
    ensures out == Evidence(sup, con, budget)
  {
    var both := Alternate(Tagged(Supports, Limit(sup, budget)), Tagged(Contradicts, Limit(con, budget)));
    out := Limit(both, budget);
  }

  // How many supports a budget of k leaves: half rounded up, or whatever contradiction
  // leaves unused; contradictions get the other half likewise.
  function SupportShare(s: nat, c: nat, k: nat): nat { Min(s, Max((k + 1) / 2, k - c)) }
  function ContradictShare(s: nat, c: nat, k: nat): nat { Min(c, Max(k / 2, k - s)) }

  lemma {:induction false} SideOfTagged(r: Relation, q: Relation, refs: seq<string>)
    ensures Side(Tagged(r, refs), q) == if r == q then refs else []
  {
    if refs != [] {
      assert Tagged(r, refs)[1..] == Tagged(r, refs[1..]);
      SideOfTagged(r, q, refs[1..]);
    }
  }

  lemma LimitTagged(r: Relation, refs: seq<string>, k: nat)
    ensures Limit(Tagged(r, refs), k) == Tagged(r, Limit(refs, k))
  {
  }

  ghost predicate Shares(sup: seq<string>, con: seq<string>, k: nat) {
    var cut := Limit(Interleave(Tagged(Supports, sup), Tagged(Contradicts, con)), k);
    && Side(cut, Supports) == sup[..SupportShare(|sup|, |con|, k)]
    && Side(cut, Contradicts) == con[..ContradictShare(|sup|, |con|, k)]
  }

  lemma OneSided(sup: seq<string>, con: seq<string>, k: nat)
    requires sup == [] || con == []
    ensures Shares(sup, con, k)
  {
    var refs, r := if sup == [] then con else sup, if sup == [] then Contradicts else Supports;
    assert Interleave(Tagged(Supports, sup), Tagged(Contradicts, con)) == Tagged(r, refs);
    LimitTagged(r, refs, k);
    SideOfTagged(r, Supports, Limit(refs, k));
    SideOfTagged(r, Contradicts, Limit(refs, k));
  }

  lemma SideOfPair(x: string, y: string, tail: seq<Hit>)
    ensures Side([Hit(Supports, x), Hit(Contradicts, y)] + tail, Supports) == [x] + Side(tail, Supports)
    ensures Side([Hit(Supports, x), Hit(Contradicts, y)] + tail, Contradicts) == [y] + Side(tail, Contradicts)
  {
    var all := [Hit(Supports, x), Hit(Contradicts, y)] + tail;
    assert all[1..] == [Hit(Contradicts, y)] + tail && all[1..][1..] == tail;
  }

  lemma BothSidedCut(sup: seq<string>, con: seq<string>, k: nat)
    requires sup != [] && con != [] && k >= 2
    ensures Limit(Interleave(Tagged(Supports, sup), Tagged(Contradicts, con)), k) ==
            [Hit(Supports, sup[0]), Hit(Contradicts, con[0])] +
            Limit(Interleave(Tagged(Supports, sup[1..]), Tagged(Contradicts, con[1..])), k - 2)
  {
    assert Tagged(Supports, sup)[1..] == Tagged(Supports, sup[1..]);
    assert Tagged(Contradicts, con)[1..] == Tagged(Contradicts, con[1..]);
  }

  lemma HeadedPrefix(s: seq<string>, n: nat)
    requires s != [] && 1 <= n <= |s|
    ensures s[..n] == [s[0]] + s[1..][..n - 1]
  {
  }

  lemma BothSided(sup: seq<string>, con: seq<string>, k: nat)
    requires sup != [] && con != [] && k >= 2 && Shares(sup[1..], con[1..], k - 2)
    ensures Shares(sup, con, k)
  {
    BothSidedCut(sup, con, k);
    SideOfPair(sup[0], con[0], Limit(Interleave(Tagged(Supports, sup[1..]), Tagged(Contradicts, con[1..])), k - 2));
    SharesStep(|sup|, |con|, k);
    HeadedPrefix(sup, SupportShare(|sup|, |con|, k));
    HeadedPrefix(con, ContradictShare(|sup|, |con|, k));
  }

  lemma {:induction false} CutShares(sup: seq<string>, con: seq<string>, k: nat)
    ensures Shares(sup, con, k)
  {
    var a, b := Tagged(Supports, sup), Tagged(Contradicts, con);
    if k == 0 {
      assert Limit(Interleave(a, b), k) == [];
    } else if sup == [] || con == [] {
      OneSided(sup, con, k);
    } else if k == 1 {
      var cut := Limit(Interleave(a, b), k);
      assert cut == [a[0]] && cut[1..] == [];
    } else {
      CutShares(sup[1..], con[1..], k - 2);
      BothSided(sup, con, k);
    }
  }

  lemma SharesStep(s: nat, c: nat, k: nat)
    requires s > 0 && c > 0 && k >= 2
    ensures SupportShare(s, c, k) == SupportShare(s - 1, c - 1, k - 2) + 1
    ensures ContradictShare(s, c, k) == ContradictShare(s - 1, c - 1, k - 2) + 1
  {
  }

  // With at most b of each side the shares fill the cut.
  lemma SharesAddUp(s: nat, c: nat, b: nat)
    requires s <= b && c <= b
    ensures var ns, nc := SupportShare(s, c, b), ContradictShare(s, c, b);
      && ns + nc == Min(b, s + c) && s >= ns >= Min(s, (b + 1) / 2) && c >= nc >= Min(c, b / 2)
  {
    HalvesAddUp(s, c, b, b / 2, (b + 1) / 2);
  }

  lemma HalvesAddUp(s: nat, c: nat, b: nat, low: nat, high: nat)
    requires s <= b && c <= b && low + high == b && low <= high
    ensures var ns, nc := Min(s, Max(high, b - c)), Min(c, Max(low, b - s));
      && ns + nc == Min(b, s + c) && s >= ns >= Min(s, high) && c >= nc >= Min(c, low)
  {
  }

  lemma WindowSizes(s: nat, c: nat, b: nat)
    ensures var s', c' := Min(s, b), Min(c, b); Min(b, s' + c') == Min(b, s + c)
    ensures Min(Min(s, b), (b + 1) / 2) == Min(s, (b + 1) / 2) && Min(Min(c, b), b / 2) == Min(c, b / 2)
  {
    assert b / 2 <= b && (b + 1) / 2 <= b;
  }

  // A budget b returns exactly min(b, S + C) records: the first supports and the first
  // contradictions of each side, neither below its half while it has edges to fill it.
  lemma EvidenceIsBalanced(sup: seq<string>, con: seq<string>, b: nat)
    ensures var out := Evidence(sup, con, b); var s, c := |Side(out, Supports)|, |Side(out, Contradicts)|;
      && |out| == Min(b, |sup| + |con|) == s + c
      && s >= Min(|sup|, (b + 1) / 2) && c >= Min(|con|, b / 2)
      && s <= |sup| && Side(out, Supports) == sup[..s] && c <= |con| && Side(out, Contradicts) == con[..c]
  {
    var ns, nc := EvidenceSides(sup, con, b);
    SharesAddUp(Min(|sup|, b), Min(|con|, b), b);
    WindowSizes(|sup|, |con|, b);
  }

  // The two sides of the cut are prefixes of the given lengths.
  lemma EvidenceSides(sup: seq<string>, con: seq<string>, b: nat) returns (ns: nat, nc: nat)
    ensures ns == SupportShare(Min(|sup|, b), Min(|con|, b), b) <= |sup|
    ensures nc == ContradictShare(Min(|sup|, b), Min(|con|, b), b) <= |con|
    ensures var out := Evidence(sup, con, b);
      && |out| == Min(b, Min(|sup|, b) + Min(|con|, b))
      && Side(out, Supports) == sup[..ns] && Side(out, Contradicts) == con[..nc]
  {
    var s', c' := Limit(sup, b), Limit(con, b);
    CutShares(s', c', b);
    ns, nc := SupportShare(|s'|, |c'|, b), ContradictShare(|s'|, |c'|, b);
    assert s'[..ns] == sup[..ns] && c'[..nc] == con[..nc];
  }

  // ---- the expansion order at one node ----

  function Group(r: Relation): nat {
    match r
    case Supersedes => 0
    case Supports => 1
    case Contradicts => 1
    case ReasonFor => 2
    case BasedOn => 3
    case _ => 4
  }

  // The list an edge is filtered into: the leading group, supports, contradicts, the rest.
  function Band(r: Relation): nat {
    if Group(r) < 1 then 0 else if r == Supports then 1 else if r == Contradicts then 2 else 3
  }

  function Part(edges: seq<N.Edge>, band: nat): seq<N.Edge> {
    if edges == [] then []
    else
      Part(edges[..|edges| - 1], band) + if Band(edges[|edges| - 1].relation) == band then [edges[|edges| - 1]] else []
  }

  // From the sorted candidates: the leading group, the fair-share pair alternating, the rest.
  function Arrange(edges: seq<N.Edge>): seq<N.Edge> {
    Part(edges, 0) + Interleave(Part(edges, 1), Part(edges, 2)) + Part(edges, 3)
  }

  lemma CountHead<X>(s: seq<X>, x: X)
    requires s != []
    ensures multiset(s)[x] == (if s[0] == x then 1 else 0) + multiset(s[1..])[x]
  {
    assert s == [s[0]] + s[1..];
  }

  lemma {:induction false} InterleaveCounts<X>(a: seq<X>, b: seq<X>, x: X)
    ensures multiset(Interleave(a, b))[x] == multiset(a)[x] + multiset(b)[x]
  {
    if a != [] && b != [] {
      var r := Interleave(a, b);
      InterleaveCounts(a[1..], b[1..], x);
      assert r[1..][1..] == Interleave(a[1..], b[1..]);
      CountHead(r, x);
      CountHead(r[1..], x);
      CountHead(a, x);
      CountHead(b, x);
    }
  }

  lemma {:induction false} PartCounts(edges: seq<N.Edge>, e: N.Edge, band: nat)
    ensures multiset(Part(edges, band))[e] == if Band(e.relation) == band then multiset(edges)[e] else 0
  {
    if edges != [] {
      PartCounts(edges[..|edges| - 1], e, band);
      assert edges == edges[..|edges| - 1] + [edges[|edges| - 1]];
    }
  }

  // Arranging drops no candidate and repeats none: every relation is in some group.
  lemma ArrangeKeeps(edges: seq<N.Edge>)
    ensures multiset(Arrange(edges)) == multiset(edges)
  {
    forall e ensures multiset(Arrange(edges))[e] == multiset(edges)[e] {
      InterleaveCounts(Part(edges, 1), Part(edges, 2), e);
      PartCounts(edges, e, 0);
      PartCounts(edges, e, 1);
      PartCounts(edges, e, 2);
      PartCounts(edges, e, 3);
    }
  }

  // Where the alternation puts each: turn about while both last, then the rest of the longer.
  lemma {:induction false} InterleavePlaces<X>(a: seq<X>, b: seq<X>, i: nat)
    ensures i < |a| && i < |b| ==> Interleave(a, b)[2 * i] == a[i] && Interleave(a, b)[2 * i + 1] == b[i]
    ensures |b| <= i < |a| ==> Interleave(a, b)[|b| + i] == a[i]
    ensures |a| <= i < |b| ==> Interleave(a, b)[|a| + i] == b[i]
  {
    if i > 0 && a != [] && b != [] {
      InterleavePlaces(a[1..], b[1..], i - 1);
      var r, t := Interleave(a, b), Interleave(a[1..], b[1..]);
      assert forall k :: 2 <= k < |r| ==> r[k] == t[k - 2];
    }
  }

  // The edges of these relations, in their order.
  function Keep(edges: seq<N.Edge>, wanted: set<Relation>): seq<N.Edge> {
    if edges == [] then []
    else
      Keep(edges[..|edges| - 1], wanted)
      + if edges[|edges| - 1].relation in wanted then [edges[|edges| - 1]] else []
  }

  lemma {:induction false} PartKeeps(edges: seq<N.Edge>, band: nat, wanted: set<Relation>)
    requires forall r: Relation :: Band(r) == band <==> r in wanted
    ensures Part(edges, band) == Keep(edges, wanted)
  {
    if edges != [] { PartKeeps(edges[..|edges| - 1], band, wanted); }
  }

  const ORDINARY: set<Relation> :=
    {BasedOn, ReasonFor, Addresses, Reviews, Corrects, Resolves, CausedBy, Satisfies}

  // Supersessions come first, then supports and contradictions turn about with supports
  // leading, then all the rest, each in the order it came.
  lemma ArrangeOrders(edges: seq<N.Edge>)
    ensures Arrange(edges) ==
            Keep(edges, {Supersedes}) + Interleave(Keep(edges, {Supports}), Keep(edges, {Contradicts}))
            + Keep(edges, ORDINARY)
  {
    PartKeeps(edges, 0, {Supersedes});
    PartKeeps(edges, 1, {Supports});
    PartKeeps(edges, 2, {Contradicts});
    PartKeeps(edges, 3, ORDINARY);
  }
}
