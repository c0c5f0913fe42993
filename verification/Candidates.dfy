// Bounded candidate expansion at one node (kawa/retrieval.py): which scope pairs are
// consulted, one bounded window per pair and direction, and the fair-share top-up.

module Candidates {
  import opened Prelude
  import opened Text
  import opened Vocabulary
  import opened Fairness
  import N = Neighborhood

  const MAX_VIEWER_SCOPES: nat := 8
  const LEAF_BUDGET: nat := 128
  const PUBLIC_SCOPE := "$public"

  // ---- scope pairs ----

  datatype Pair = Pair(endpoint: string, asserter: string)

  predicate Ascending(s: seq<string>) { forall i, j :: 0 <= i < j < |s| ==> Before(s[i], s[j]) }

  function SamePairs(s: seq<string>): (r: seq<Pair>)
    ensures |r| == |s| && forall i :: 0 <= i < |r| ==> r[i] == Pair(s[i], s[i])
  {
    seq(|s|, i requires 0 <= i < |s| => Pair(s[i], s[i]))
  }

  function CrossRow(a: string, s: seq<string>): seq<Pair> {
    if s == [] then [] else CrossRow(a, s[..|s| - 1]) + if a != s[|s| - 1] then [Pair(a, s[|s| - 1])] else []
  }

  function CrossRows(rows: seq<string>, s: seq<string>): seq<Pair> {
    if rows == [] then [] else CrossRows(rows[..|rows| - 1], s) + CrossRow(rows[|rows| - 1], s)
  }

  function PairsOf(s: seq<string>): seq<Pair> { SamePairs(s) + CrossRows(s, s) }

  // A viewer's scopes in ascending order: every viewer holds the public sentinel.
  predicate Viewer(every: seq<string>) { Ascending(every) && PUBLIC_SCOPE in every }

  function ScopePairs(every: seq<string>): (seq<Pair>, int) {
    var consulted := Limit(every, MAX_VIEWER_SCOPES);
    var kept := Limit(PairsOf(consulted), LEAF_BUDGET / 2);
    (kept, |PairsOf(every)| - |kept|)
  }

  lemma BeforeIrreflexive(s: seq<string>, i: nat, j: nat)
    requires Ascending(s) && i < |s| && j < |s| && i != j
    ensures s[i] != s[j]
  {
    Trichotomy(s[i], s[j]);
  }

  lemma AscendingDistinct(s: seq<string>)
    requires Ascending(s)
    ensures Distinct(s)
  {
    forall i, j | 0 <= i < j < |s| ensures s[i] != s[j] { BeforeIrreflexive(s, i, j); }
  }

  lemma {:induction false} CrossRowMeans(a: string, s: seq<string>)
    requires Distinct(s)
    ensures Distinct(CrossRow(a, s)) && forall p :: p in CrossRow(a, s) <==>
            p.endpoint == a && p.asserter in s && p.asserter != a
    ensures |CrossRow(a, s)| == |s| - if a in s then 1 else 0
  {
    if s != [] {
      var init, x := s[..|s| - 1], s[|s| - 1];
      assert s == init + [x] && x !in init;
      CrossRowMeans(a, init);
      ConcatDistinct(CrossRow(a, init), if a != x then [Pair(a, x)] else []);
    }
  }

  lemma {:induction false} CrossRowsSize(rows: seq<string>, s: seq<string>)
    requires Distinct(s) && forall x :: x in rows ==> x in s
    ensures |CrossRows(rows, s)| == |rows| * (|s| - 1)
  {
    if rows != [] {
      var init, a := rows[..|rows| - 1], rows[|rows| - 1];
      assert a in rows && forall x :: x in init ==> x in rows;
      CrossRowsSize(init, s);
      CrossRowMeans(a, s);
      assert |CrossRows(rows, s)| == |CrossRows(init, s)| + (|s| - 1);
      OneMoreTimes(|init|, |s| - 1);
      assert |rows| == |init| + 1;
    }
  }

  lemma OneMoreTimes(n: nat, m: int)
    ensures (n + 1) * m == n * m + m
  {
  }

  lemma {:induction false} CrossRowsMean(rows: seq<string>, s: seq<string>)
    requires Distinct(rows) && Distinct(s)
    ensures Distinct(CrossRows(rows, s))
    ensures forall p :: p in CrossRows(rows, s) <==> p.endpoint in rows && p.asserter in s && p.asserter != p.endpoint
  {
    if rows != [] {
      var init, a := rows[..|rows| - 1], rows[|rows| - 1];
      assert rows == init + [a] && a !in init;
      CrossRowsMean(init, s);
      CrossRowMeans(a, s);
      ConcatDistinct(CrossRows(init, s), CrossRow(a, s));
    }
  }

  lemma PairsMean(s: seq<string>)
    requires Ascending(s)
    ensures Distinct(PairsOf(s)) && |PairsOf(s)| == |s| * |s|
    ensures forall p :: p in PairsOf(s) <==> p.endpoint in s && p.asserter in s
  {
    AscendingDistinct(s);
    CrossRowsMean(s, s);
    CrossRowsSize(s, s);
    var same := SamePairs(s);
    forall p ensures p in same <==> p.endpoint in s && p.asserter == p.endpoint {
      if p.endpoint in s && p.asserter == p.endpoint {
        var i :| 0 <= i < |s| && s[i] == p.endpoint;
        assert same[i] == p;
      }
    }
    ConcatDistinct(same, CrossRows(s, s));
    assert |s| + |s| * (|s| - 1) == |s| * |s|;
  }

  lemma SquareBound(n: nat)
    requires n <= 8
    ensures n * n <= 64
  {
    assert n * n <= 8 * n;
  }

  // Every ordered pair of the consulted scopes is consulted once, same-scope pairs first,
  // and the leaf budget never binds: what is dropped is what the unconsulted scopes imply.
  lemma ScopePairsMean(every: seq<string>)
    requires Viewer(every)
    ensures var consulted, kept, dropped := Limit(every, MAX_VIEWER_SCOPES), ScopePairs(every).0, ScopePairs(every).1;
      && Distinct(kept) && (forall p :: p in kept <==> p.endpoint in consulted && p.asserter in consulted)
      && (forall i :: 0 <= i < |kept| ==> (kept[i].endpoint == kept[i].asserter <==> i < |consulted|))
      && 2 * |kept| <= LEAF_BUDGET
      && dropped == |every| * |every| - |consulted| * |consulted|
  {
    var consulted := Limit(every, MAX_VIEWER_SCOPES);
    assert Ascending(consulted);
    PairsMean(consulted);
    PairsMean(every);
    SquareBound(|consulted|);
    AscendingDistinct(consulted);
    CrossRowsMean(consulted, consulted);
    var kept := ScopePairs(every).0;
    assert kept == PairsOf(consulted);
    forall i | 0 <= i < |kept| ensures kept[i].endpoint == kept[i].asserter <==> i < |consulted| {
      if i >= |consulted| { assert kept[i] == CrossRows(consulted, consulted)[i - |consulted|]; }
    }
  }

  function SortingBefore(every: seq<string>, y: string): set<string> { set x | x in every && Before(x, y) }

  // Unscoped events stay visible to a wide viewer exactly when fewer than the consulted
  // number of its scopes sort before the sentinel.
  lemma PublicIsConsulted(every: seq<string>)
    requires Viewer(every)
    ensures PUBLIC_SCOPE in Limit(every, MAX_VIEWER_SCOPES) <==>
            |SortingBefore(every, PUBLIC_SCOPE)| < MAX_VIEWER_SCOPES
  {
    var i :| 0 <= i < |every| && every[i] == PUBLIC_SCOPE;
    var earlier := every[..i];
    AscendingDistinct(every);
    SizeDistinct(earlier);
    forall x ensures x in earlier <==> x in every && Before(x, PUBLIC_SCOPE) {
      if x in every && Before(x, PUBLIC_SCOPE) {
        var j :| 0 <= j < |every| && every[j] == x;
        Trichotomy(x, PUBLIC_SCOPE);
        assert j < i && earlier[j] == x;
      }
    }
    assert (set x | x in earlier) == SortingBefore(every, PUBLIC_SCOPE);
    var consulted := Limit(every, MAX_VIEWER_SCOPES);
    if i < MAX_VIEWER_SCOPES {
      assert consulted[i] == PUBLIC_SCOPE;
    } else {
      forall j | 0 <= j < |consulted| ensures consulted[j] != PUBLIC_SCOPE { BeforeIrreflexive(every, j, i); }
    }
  }

  function Crowd(): (s: seq<string>)
    ensures |s| == 8 && forall i :: 0 <= i < 8 ==> s[i] == ['!', 'a' + i as char]
  {
    seq(8, i requires 0 <= i < 8 => ['!', 'a' + i as char])
  }

  // Eight scopes that begin with '!' crowd it out.
  lemma PublicCanBeLeftOut()
    ensures Viewer(Crowd() + [PUBLIC_SCOPE]) && PUBLIC_SCOPE !in Limit(Crowd() + [PUBLIC_SCOPE], MAX_VIEWER_SCOPES)
  {
    var every := Crowd() + [PUBLIC_SCOPE];
    forall i, j | 0 <= i < j < |every| ensures Before(every[i], every[j]) {
      if j < 8 { assert every[i][1..][0] < every[j][1..][0]; }
    }
    assert every[8] == PUBLIC_SCOPE;
    assert forall i :: 0 <= i < 8 ==> every[i][0] == '!';
  }

  // ---- leaves ----

  datatype Link = Link(relation: Relation, other: string, direction: N.Direction, endpoint: string, asserter: string,
                       physical: nat, logical: nat, origin: string)
  datatype Leaf = Leaf(direction: N.Direction, pair: Pair)

  function LeavesFor(d: N.Direction, pairs: seq<Pair>): (r: seq<Leaf>)
    ensures |r| == |pairs| && forall i :: 0 <= i < |r| ==> r[i] == Leaf(d, pairs[i])
  {
    seq(|pairs|, i requires 0 <= i < |pairs| => Leaf(d, pairs[i]))
  }

  // Directions outermost, pairs innermost.
  function LeafPlan(pairs: seq<Pair>): seq<Leaf> { LeavesFor(N.Outgoing, pairs) + LeavesFor(N.Incoming, pairs) }

  predicate In(x: Link, leaf: Leaf) { x.direction == leaf.direction && Pair(x.endpoint, x.asserter) == leaf.pair }

  lemma LeafExists(pairs: seq<Pair>, x: Link)
    ensures (exists l :: 0 <= l < |LeafPlan(pairs)| && In(x, LeafPlan(pairs)[l])) <==>
            Pair(x.endpoint, x.asserter) in pairs
  {
    var plan, p := LeafPlan(pairs), Pair(x.endpoint, x.asserter);
    if p in pairs {
      var i :| 0 <= i < |pairs| && pairs[i] == p;
      assert plan[i] == Leaf(N.Outgoing, p) && plan[|pairs| + i] == Leaf(N.Incoming, p);
      assert In(x, plan[if x.direction == N.Outgoing then i else |pairs| + i]);
    }
    if l :| 0 <= l < |plan| && In(x, plan[l]) {
      assert plan[l].pair == pairs[if l < |pairs| then l else l - |pairs|];
    }
  }

  lemma LeafUnique(pairs: seq<Pair>, x: Link, l: nat, m: nat)
    requires Distinct(pairs) && l < |LeafPlan(pairs)| && m < |LeafPlan(pairs)|
    requires In(x, LeafPlan(pairs)[l]) && In(x, LeafPlan(pairs)[m])
    ensures l == m
  {
    var n := |pairs|;
    assert pairs[if l < n then l else l - n] == pairs[if m < n then m else m - n];
  }

  // The leaves partition exactly what the viewer may see: a link whose two scopes are both
  // consulted lies in one leaf, any other link in none.
  lemma LeavesPartition(every: seq<string>, x: Link)
    requires Viewer(every)
    ensures var plan, consulted := LeafPlan(ScopePairs(every).0), Limit(every, MAX_VIEWER_SCOPES);
      && ((exists l :: 0 <= l < |plan| && In(x, plan[l])) <==> x.endpoint in consulted && x.asserter in consulted)
      && forall l, m :: 0 <= l < |plan| && 0 <= m < |plan| && In(x, plan[l]) && In(x, plan[m]) ==> l == m
  {
    ScopePairsMean(every);
    var pairs := ScopePairs(every).0;
    var plan := LeafPlan(pairs);
    LeafExists(pairs, x);
    forall l, m | 0 <= l < |plan| && 0 <= m < |plan| && In(x, plan[l]) && In(x, plan[m]) ensures l == m {
      LeafUnique(pairs, x, l, m);
    }
  }

  // What a leaf holds, best first: relation priority, then newest, then the tie-breaks.
  function Rank(r: Relation): nat {
    match r
    case Supersedes => 0 case Contradicts => 1 case Supports => 2 case ReasonFor => 3 case BasedOn => 4
    case Addresses => 5 case CausedBy => 6 case Corrects => 7 case Resolves => 8 case Reviews => 9 case Satisfies => 10
  }

  predicate Ahead(a: Link, b: Link) {
    if Rank(a.relation) != Rank(b.relation) then Rank(a.relation) < Rank(b.relation)
    else if a.physical != b.physical then a.physical > b.physical
    else if a.logical != b.logical then a.logical > b.logical
    else if a.origin != b.origin then Before(b.origin, a.origin)
    else Before(b.other, a.other)
  }

  predicate Holds(s: seq<Link>) { forall i, j :: 0 <= i < j < |s| ==> Ahead(s[i], s[j]) }

  lemma AheadDiffers(a: Link, b: Link)
    requires Ahead(a, b)
    ensures a != b
  {
    Trichotomy(a.other, b.other);
  }

  // ---- the windows hold every global winner ----

  ghost predicate Consulted(leaves: seq<seq<Link>>, x: Link) { exists l :: 0 <= l < |leaves| && x in leaves[l] }

  ghost predicate Agrees(ahead: (Link, Link) -> bool, leaves: seq<seq<Link>>) {
    forall l, i, j :: 0 <= l < |leaves| && 0 <= i < j < |leaves[l]| ==> ahead(leaves[l][i], leaves[l][j])
  }

  lemma {:induction false} SizeDistinct<X>(s: seq<X>)
    requires Distinct(s)
    ensures |set x | x in s| == |s|
  {
    if s != [] {
      var init, x := s[..|s| - 1], s[|s| - 1];
      SizeDistinct(init);
      assert s == init + [x] && x !in init;
      assert (set y | y in s) == (set y | y in init) + {x};
    }
  }

  lemma DistinctSize(s: seq<Link>)
    requires Holds(s)
    ensures |set x | x in s| == |s|
  {
    forall i, j | 0 <= i < j < |s| ensures s[i] != s[j] { AheadDiffers(s[i], s[j]); }
    SizeDistinct(s);
  }

  // Under any ranking that agrees with the order inside each leaf, a link with fewer than K
  // consulted links ahead of it is in its leaf's window of K.
  lemma WinnersAreInWindows(leaves: seq<seq<Link>>, ahead: (Link, Link) -> bool, better: set<Link>, l: nat, x: Link,
                            k: nat)
    requires Agrees(ahead, leaves) && l < |leaves| && Holds(leaves[l]) && x in leaves[l]
    requires forall y :: y in better <==> Consulted(leaves, y) && ahead(y, x)
    requires |better| < k
    ensures x in Limit(leaves[l], k) && x in CandidateRows(leaves, k)
  {
    var leaf := leaves[l];
    var i :| 0 <= i < |leaf| && leaf[i] == x;
    if i >= k {
      var window := leaf[..k];
      DistinctSize(window);
      forall y | y in window ensures y in better {
        var j :| 0 <= j < k && leaf[j] == y;
        assert ahead(leaves[l][j], leaves[l][i]);
      }
      var seen := set y | y in window;
      SubsetSize(seen, better);
    }
    LeafGivesRow(leaves, k, x, l);
  }

  // ---- the fair-share top-up ----

  function Of(leaf: seq<Link>, r: Relation): seq<Link> {
    if leaf == [] then [] else Of(leaf[..|leaf| - 1], r) + if leaf[|leaf| - 1].relation == r then [leaf[|leaf| - 1]]
      else []
  }

  predicate Has(s: seq<Link>, r: Relation) { exists i :: 0 <= i < |s| && s[i].relation == r }

  lemma {:induction false} OfMeans(leaf: seq<Link>, r: Relation)
    ensures forall x :: x in Of(leaf, r) <==> x in leaf && x.relation == r
  {
    if leaf != [] {
      OfMeans(leaf[..|leaf| - 1], r);
      assert leaf == leaf[..|leaf| - 1] + [leaf[|leaf| - 1]];
    }
  }

  predicate Starved(leaf: seq<Link>, k: nat, r: Relation) { |Limit(leaf, k)| >= k && !Has(Limit(leaf, k), r) }

  // What one leaf contributes for one fair-share relation beyond its window.
  function TopUp(leaf: seq<Link>, k: nat, r: Relation): seq<Link> {
    if Starved(leaf, k, r) then Limit(Of(leaf, r), k) else []
  }

  function Windows(leaves: seq<seq<Link>>, k: nat): seq<Link> {
    if leaves == [] then [] else Windows(leaves[..|leaves| - 1], k) + Limit(leaves[|leaves| - 1], k)
  }

  function TopUps(leaves: seq<seq<Link>>, k: nat, r: Relation): seq<Link> {
    if leaves == [] then [] else TopUps(leaves[..|leaves| - 1], k, r) + TopUp(leaves[|leaves| - 1], k, r)
  }

  function CandidateRows(leaves: seq<seq<Link>>, k: nat): seq<Link> {
    Windows(leaves, k) + TopUps(leaves, k, Contradicts) + TopUps(leaves, k, Supports)
  }

  function Contribution(leaf: seq<Link>, k: nat): seq<Link> {
    Limit(leaf, k) + TopUp(leaf, k, Contradicts) + TopUp(leaf, k, Supports)
  }

  // Each leaf holding a supports or contradicts link contributes one of that relation, and
  // contributes nothing it does not hold.
  lemma FairShare(leaf: seq<Link>, k: nat, r: Relation)
    requires k >= 1 && (r == Supports || r == Contradicts)
    ensures Has(Contribution(leaf, k), r) <==> Has(leaf, r)
    ensures forall x :: x in Contribution(leaf, k) ==> x in leaf
  {
    OfMeans(leaf, Contradicts);
    OfMeans(leaf, Supports);
    var c := Contribution(leaf, k);
    assert forall x :: x in c ==> x in leaf;
    if i :| 0 <= i < |c| && c[i].relation == r {
      assert c[i] in leaf;
    }
    if i :| 0 <= i < |leaf| && leaf[i].relation == r {
      StillShares(leaf, k, r);
    }
  }

  lemma {:induction false} OfConcat(a: seq<Link>, b: seq<Link>, r: Relation)
    ensures Of(a + b, r) == Of(a, r) + Of(b, r)
  {
    if b == [] {
      assert a + b == a;
    } else {
      var init := b[..|b| - 1];
      assert (a + b)[..|a + b| - 1] == a + init;
      OfConcat(a, init, r);
    }
  }

  lemma {:induction false} OfUniform(s: seq<Link>, own: Relation, r: Relation)
    requires forall i :: 0 <= i < |s| ==> s[i].relation == own
    ensures Of(s, r) == if own == r then s else []
  {
    if s != [] { OfUniform(s[..|s| - 1], own, r); }
  }

  lemma TopUpOf(leaf: seq<Link>, k: nat, own: Relation, r: Relation)
    ensures Of(TopUp(leaf, k, own), r) == if own == r then TopUp(leaf, k, own) else []
  {
    var t := TopUp(leaf, k, own);
    OfMeans(leaf, own);
    forall i | 0 <= i < |t| ensures t[i].relation == own { assert t[i] in Of(leaf, own); }
    OfUniform(t, own, r);
  }

  lemma {:induction false} NoneOf(s: seq<Link>, r: Relation)
    requires !Has(s, r)
    ensures Of(s, r) == []
  {
    if s != [] {
      var init := s[..|s| - 1];
      forall i | 0 <= i < |init| ensures init[i].relation != r { assert s[i] == init[i]; }
      assert s[|s| - 1].relation != r;
      NoneOf(init, r);
    }
  }

  // Which links of a fair-share relation come out of a leaf, and so how many: the first k of
  // the relation where a full window holds none of it, and otherwise what the window holds,
  // be it a single one among k.
  lemma FairShareExactly(leaf: seq<Link>, k: nat, r: Relation)
    requires r == Supports || r == Contradicts
    ensures Of(Contribution(leaf, k), r) == if Starved(leaf, k, r) then Limit(Of(leaf, r), k) else Of(Limit(leaf, k), r)
  {
    OfThree(Limit(leaf, k), TopUp(leaf, k, Contradicts), TopUp(leaf, k, Supports), r);
    TopUpOf(leaf, k, Contradicts, r);
    TopUpOf(leaf, k, Supports, r);
    OneTopUp(Of(Limit(leaf, k), r), TopUp(leaf, k, Contradicts), TopUp(leaf, k, Supports), r);
    if Starved(leaf, k, r) { NoneOf(Limit(leaf, k), r); }
    WindowOrTopUp(leaf, k, r);
  }

  lemma OneTopUp(w: seq<Link>, c: seq<Link>, u: seq<Link>, r: Relation)
    ensures r == Contradicts ==> w + (if Contradicts == r then c else []) + (if Supports == r then u else []) == w + c
    ensures r == Supports ==> w + (if Contradicts == r then c else []) + (if Supports == r then u else []) == w + u
  {
  }

  lemma WindowOrTopUp(leaf: seq<Link>, k: nat, r: Relation)
    requires Starved(leaf, k, r) ==> Of(Limit(leaf, k), r) == []
    ensures Of(Limit(leaf, k), r) + TopUp(leaf, k, r) ==
            if Starved(leaf, k, r) then Limit(Of(leaf, r), k) else Of(Limit(leaf, k), r)
  {
  }

  lemma OfThree(a: seq<Link>, b: seq<Link>, c: seq<Link>, r: Relation)
    ensures Of(a + b + c, r) == Of(a, r) + Of(b, r) + Of(c, r)
  {
    OfConcat(a + b, c, r);
    OfConcat(a, b, r);
  }

  lemma StillShares(leaf: seq<Link>, k: nat, r: Relation)
    requires k >= 1 && (r == Supports || r == Contradicts) && Has(leaf, r)
    ensures Has(Contribution(leaf, k), r)
  {
    var w, c := Limit(leaf, k), Contribution(leaf, k);
    if Has(w, r) {
      var i :| 0 <= i < |w| && w[i].relation == r;
      assert c[i] == w[i];
    } else {
      var i :| 0 <= i < |leaf| && leaf[i].relation == r;
      OfMeans(leaf, r);
      assert leaf[i] in Of(leaf, r);
      var x := TopUp(leaf, k, r)[0];
      assert x in Of(leaf, r) && x.relation == r;
      var at := if r == Contradicts then |w| else |w| + |TopUp(leaf, k, Contradicts)|;
      assert c[at] == x;
    }
  }

  lemma RowsNext(leaves: seq<seq<Link>>, k: nat, x: Link)
    requires leaves != []
    ensures x in CandidateRows(leaves, k) <==>
            x in CandidateRows(leaves[..|leaves| - 1], k) || x in Contribution(leaves[|leaves| - 1], k)
  {
  }

  // The rows of a node are exactly what its leaves contribute.
  lemma {:induction false} RowHasLeaf(leaves: seq<seq<Link>>, k: nat, x: Link) returns (l: nat)
    requires x in CandidateRows(leaves, k)
    ensures l < |leaves| && x in Contribution(leaves[l], k)
  {
    assert leaves != [];
    RowsNext(leaves, k, x);
    if x in CandidateRows(leaves[..|leaves| - 1], k) {
      l := RowHasLeaf(leaves[..|leaves| - 1], k, x);
    } else {
      l := |leaves| - 1;
    }
  }

  lemma {:induction false} LeafGivesRow(leaves: seq<seq<Link>>, k: nat, x: Link, l: nat)
    requires l < |leaves| && x in Contribution(leaves[l], k)
    ensures x in CandidateRows(leaves, k)
  {
    RowsNext(leaves, k, x);
    if l < |leaves| - 1 { LeafGivesRow(leaves[..|leaves| - 1], k, x, l); }
  }

  // ---- the same, as the loops over fetched rows compute it ----

  datatype Fetched = Fetched(leaf: nat, link: Link)

  function TagWindow(w: seq<Link>, l: nat): (r: seq<Fetched>)
    ensures |r| == |w| && forall i :: 0 <= i < |r| ==> r[i] == Fetched(l, w[i])
  {
    seq(|w|, i requires 0 <= i < |w| => Fetched(l, w[i]))
  }

  function FetchAll(leaves: seq<seq<Link>>, k: nat): seq<Fetched> {
    if leaves == [] then []
    else FetchAll(leaves[..|leaves| - 1], k) + TagWindow(Limit(leaves[|leaves| - 1], k), |leaves| - 1)
  }

  function Links(rows: seq<Fetched>): (r: seq<Link>)
    ensures |r| == |rows| && forall i :: 0 <= i < |r| ==> r[i] == rows[i].link
  {
    seq(|rows|, i requires 0 <= i < |rows| => rows[i].link)
  }

  function Counted(rows: seq<Fetched>, l: nat): nat {
    if rows == [] then 0 else Counted(rows[..|rows| - 1], l) + if rows[|rows| - 1].leaf == l then 1 else 0
  }

  function RelationsOf(rows: seq<Fetched>, l: nat): set<Relation> {
    if rows == [] then {} else RelationsOf(rows[..|rows| - 1], l) + if rows[|rows| - 1].leaf == l
      then {rows[|rows| - 1].link.relation} else {}
  }

  lemma {:induction false} FetchedLinks(leaves: seq<seq<Link>>, k: nat)
    ensures Links(FetchAll(leaves, k)) == Windows(leaves, k)
    ensures forall i :: 0 <= i < |FetchAll(leaves, k)| ==> FetchAll(leaves, k)[i].leaf < |leaves|
  {
    if leaves != [] { FetchedLinks(leaves[..|leaves| - 1], k); }
  }

  lemma {:induction false} CountedConcat(a: seq<Fetched>, b: seq<Fetched>, l: nat)
    ensures Counted(a + b, l) == Counted(a, l) + Counted(b, l)
  {
    if b == [] {
      assert a + b == a;
    } else {
      CountedConcat(a, b[..|b| - 1], l);
      assert (a + b)[..|a + b| - 1] == a + b[..|b| - 1];
    }
  }

  lemma {:induction false} CountedUniform(rows: seq<Fetched>, m: nat, l: nat)
    requires forall i :: 0 <= i < |rows| ==> rows[i].leaf == m
    ensures Counted(rows, l) == if m == l then |rows| else 0
  {
    if rows != [] { CountedUniform(rows[..|rows| - 1], m, l); }
  }

  lemma {:induction false} FetchedCount(leaves: seq<seq<Link>>, k: nat, l: nat)
    ensures Counted(FetchAll(leaves, k), l) == if l < |leaves| then |Limit(leaves[l], k)| else 0
  {
    if leaves != [] {
      var n := |leaves| - 1;
      FetchedCount(leaves[..n], k, l);
      var last := TagWindow(Limit(leaves[n], k), n);
      CountedConcat(FetchAll(leaves[..n], k), last, l);
      CountedUniform(last, n, l);
    }
  }

  lemma {:induction false} RelationsConcat(a: seq<Fetched>, b: seq<Fetched>, l: nat)
    ensures RelationsOf(a + b, l) == RelationsOf(a, l) + RelationsOf(b, l)
  {
    if b == [] {
      assert a + b == a;
    } else {
      RelationsConcat(a, b[..|b| - 1], l);
      assert (a + b)[..|a + b| - 1] == a + b[..|b| - 1];
    }
  }

  lemma {:induction false} RelationsUniform(w: seq<Link>, m: nat, l: nat, r: Relation)
    ensures r in RelationsOf(TagWindow(w, m), l) <==> m == l && Has(w, r)
  {
    if w != [] {
      var n := |w| - 1;
      RelationsUniform(w[..n], m, l, r);
      assert TagWindow(w, m)[..n] == TagWindow(w[..n], m);
      if i :| 0 <= i < n && w[i].relation == r { assert w[..n][i].relation == r; }
    }
  }

  lemma {:induction false} FetchedRelations(leaves: seq<seq<Link>>, k: nat, l: nat, r: Relation)
    ensures r in RelationsOf(FetchAll(leaves, k), l) <==> l < |leaves| && Has(Limit(leaves[l], k), r)
  {
    if leaves != [] {
      var n := |leaves| - 1;
      FetchedRelations(leaves[..n], k, l, r);
      var w := Limit(leaves[n], k);
      RelationsConcat(FetchAll(leaves[..n], k), TagWindow(w, n), l);
      RelationsUniform(w, n, l, r);
    }
  }

  method Tally(rows: seq<Fetched>) returns (counts: map<nat, nat>, present: map<nat, set<Relation>>)
    ensures forall l: nat :: (l in counts <==> Counted(rows, l) > 0) && (l in counts ==> counts[l] == Counted(rows, l))
    ensures counts.Keys == present.Keys && forall l :: l in present ==> present[l] == RelationsOf(rows, l)
  {
    counts, present := map[], map[];
    for n := 0 to |rows|
      invariant forall l: nat ::
                  (l in counts <==> Counted(rows[..n], l) > 0) && (l in counts ==> counts[l] == Counted(rows[..n], l))
      invariant counts.Keys == present.Keys
      invariant forall l: nat :: RelationsOf(rows[..n], l) == if l in present then present[l] else {}
    {
      var l, r := rows[n].leaf, rows[n].link.relation;
      assert rows[..n + 1][..n] == rows[..n];
      counts := counts[l := (if l in counts then counts[l] else 0) + 1];
      present := present[l := (if l in present then present[l] else {}) + {r}];
    }
    assert rows[..|rows|] == rows;
  }

  // One bounded seek per named leaf for one relation.
  function Seeks(leaves: seq<seq<Link>>, which: seq<nat>, k: nat, r: Relation): seq<Link>
    requires forall i :: 0 <= i < |which| ==> which[i] < |leaves|
  {
    if which == [] then [] else Seeks(leaves, which[..|which| - 1], k, r) + Limit(Of(leaves[which[|which| - 1]], r), k)
  }

  lemma SeeksNext(leaves: seq<seq<Link>>, which: seq<nat>, l: nat, k: nat, r: Relation)
    requires (forall i :: 0 <= i < |which| ==> which[i] < |leaves|) && l < |leaves|
    ensures Seeks(leaves, which + [l], k, r) == Seeks(leaves, which, k, r) + Limit(Of(leaves[l], r), k)
  {
    assert (which + [l])[..|which + [l]| - 1] == which;
  }

  // What the tallies say of one leaf.
  predicate Told(leaf: seq<Link>, k: nat, l: nat, counts: map<nat, nat>, present: map<nat, set<Relation>>,
      r: Relation) {
    && (l in counts <==> l in present) && (l in counts <==> |Limit(leaf, k)| > 0)
    && (l in counts ==> counts[l] == |Limit(leaf, k)|)
    && (l in present ==> (r in present[l] <==> Has(Limit(leaf, k), r)))
  }

  method StarvedLeaves(leaves: seq<seq<Link>>, k: nat, counts: map<nat, nat>, present: map<nat, set<Relation>>,
                       r: Relation)
    returns (starved: seq<nat>)
    requires k >= 1 && forall l: nat {:trigger Told(leaves[l], k, l, counts, present, r)} :: l < |leaves| ==>
             Told(leaves[l], k, l, counts, present, r)
    ensures forall i :: 0 <= i < |starved| ==> starved[i] < |leaves|
    ensures Seeks(leaves, starved, k, r) == TopUps(leaves, k, r)
  {
    starved := [];
    for l := 0 to |leaves|
      invariant forall i :: 0 <= i < |starved| ==> starved[i] < |leaves|
      invariant Seeks(leaves, starved, k, r) == TopUps(leaves[..l], k, r)
    {
      assert Told(leaves[l], k, l, counts, present, r);
      var hungry := IsStarved(leaves[l], k, l, counts, present, r);
      SoughtNext(leaves, starved, l, k, r);
      if hungry {
        starved := starved + [l];
      }
    }
    assert leaves[..|leaves|] == leaves;
  }

  lemma SoughtNext(leaves: seq<seq<Link>>, starved: seq<nat>, l: nat, k: nat, r: Relation)
    requires l < |leaves| && forall i :: 0 <= i < |starved| ==> starved[i] < |leaves|
    requires Seeks(leaves, starved, k, r) == TopUps(leaves[..l], k, r)
    ensures TopUps(leaves[..l + 1], k, r) ==
            Seeks(leaves, if Starved(leaves[l], k, r) then starved + [l] else starved, k, r)
  {
    TopUpsNext(leaves, l, k, r);
    if Starved(leaves[l], k, r) { SeeksNext(leaves, starved, l, k, r); }
  }

  method IsStarved(ghost leaf: seq<Link>, k: nat, l: nat, counts: map<nat, nat>, present: map<nat, set<Relation>>,
                   r: Relation)
    returns (hungry: bool)
    requires k >= 1 && Told(leaf, k, l, counts, present, r)
    ensures hungry <==> Starved(leaf, k, r)
  {
    hungry := l in counts && counts[l] >= k && r !in present[l];
  }

  lemma TopUpsNext(leaves: seq<seq<Link>>, l: nat, k: nat, r: Relation)
    requires l < |leaves|
    ensures TopUps(leaves[..l + 1], k, r) == TopUps(leaves[..l], k, r) + TopUp(leaves[l], k, r)
  {
    assert leaves[..l + 1][..l] == leaves[..l];
  }

  lemma TallyTells(leaves: seq<seq<Link>>, k: nat, l: nat, counts: map<nat, nat>, present: map<nat, set<Relation>>,
                   r: Relation)
    requires l < |leaves| && counts.Keys == present.Keys
    requires var n := Counted(FetchAll(leaves, k), l); (l in counts <==> n > 0) && (l in counts ==> counts[l] == n)
    requires l in present ==> present[l] == RelationsOf(FetchAll(leaves, k), l)
    ensures Told(leaves[l], k, l, counts, present, r)
  {
    FetchedCount(leaves, k, l);
    FetchedRelations(leaves, k, l, r);
  }

  function Saturated(leaves: seq<seq<Link>>, k: nat): nat {
    if leaves == [] then 0
    else Saturated(leaves[..|leaves| - 1], k) + if |Limit(leaves[|leaves| - 1], k)| >= k then 1 else 0
  }

  method CountSaturated(leaves: seq<seq<Link>>, k: nat, counts: map<nat, nat>, present: map<nat, set<Relation>>)
    returns (n: nat)
    requires k >= 1
    requires forall l: nat {:trigger Told(leaves[l], k, l, counts, present, Supports)} :: l < |leaves| ==>
             Told(leaves[l], k, l, counts, present, Supports)
    ensures n == Saturated(leaves, k)
  {
    n := 0;
    for l := 0 to |leaves|
      invariant n == Saturated(leaves[..l], k)
    {
      assert leaves[..l + 1][..l] == leaves[..l];
      assert Told(leaves[l], k, l, counts, present, Supports);
      if l in counts && counts[l] >= k {
        n := n + 1;
      }
    }
    assert leaves[..|leaves|] == leaves;
  }

  // The rows a node's candidates are drawn from, and how many leaves the cap saturated. The
  // starved leaves of one relation are sought together, contradicts before supports.
  method CandidateEdges(leaves: seq<seq<Link>>, k: nat) returns (rows: seq<Link>, saturated: nat)
    requires k >= 1
    ensures rows == CandidateRows(leaves, k) && saturated == Saturated(leaves, k)
  {
    var fetched := FetchAll(leaves, k);
    FetchedLinks(leaves, k);
    var counts, present := Tally(fetched);
    forall l: nat, r | l < |leaves|
      ensures Told(leaves[l], k, l, counts, present, r)
    {
      TallyTells(leaves, k, l, counts, present, r);
    }
    var con := StarvedLeaves(leaves, k, counts, present, Contradicts);
    var sup := StarvedLeaves(leaves, k, counts, present, Supports);
    rows := Links(fetched) + Seeks(leaves, con, k, Contradicts) + Seeks(leaves, sup, k, Supports);
    saturated := CountSaturated(leaves, k, counts, present);
  }

  // ---- the order inside a leaf ----

  const PRIORITY: seq<Relation> :=
    [Supersedes, Contradicts, Supports, ReasonFor, BasedOn, Addresses, CausedBy, Corrects, Resolves, Reviews, Satisfies]

  lemma RankIsPlace(i: nat)
    requires i < |PRIORITY|
    ensures Rank(PRIORITY[i]) == i
  {
  }

  // The newer endpoint: by stamp, then by origin and by reference, the later in code-point
  // order first.
  predicate NewerEnd(a: Link, b: Link) {
    || a.physical > b.physical
    || (a.physical == b.physical && a.logical > b.logical)
    || (a.physical == b.physical && a.logical == b.logical && Before(b.origin, a.origin))
    || (a.physical == b.physical && a.logical == b.logical && a.origin == b.origin && Before(b.other, a.other))
  }

  // Relations in their priority, and within one relation the newer endpoint first.
  lemma AheadMeans(a: Link, b: Link, i: nat, j: nat)
    requires i < |PRIORITY| && j < |PRIORITY| && a.relation == PRIORITY[i] && b.relation == PRIORITY[j]
    ensures Ahead(a, b) <==> i < j || (i == j && NewerEnd(a, b))
  {
    RankIsPlace(i);
    RankIsPlace(j);
    Trichotomy(a.origin, b.origin);
  }
}
