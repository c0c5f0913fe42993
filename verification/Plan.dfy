// Compiling a bound intent into budgeted query classes (kawa/retrieval.py, compile_plan):
// the ceiling is absolute, tiers are hard, and what was not reached is stated.

module Plan {
  import opened Prelude

  datatype Purpose =
    | AnchorLookup | Standing | RepositoryNormative | Evidence | Neighborhood | Precedent | Lexical | Vector
  datatype Anchor = ClaimEvent | AnyEvent | PlanRef | WorkRef
  datatype Bound = Bound(anchor: Option<Anchor>, textual: bool, fallback: Option<int>, limit: int)
  datatype FtsReason = Textual | StructuredUnderflow
  datatype QueryClass = QueryClass(purpose: Purpose, budget: int, reason: Option<FtsReason>)

  function Tier(p: Purpose): nat {
    match p
    case AnchorLookup => 1 case Standing => 1 case RepositoryNormative => 1
    case Evidence => 2
    case _ => 3
  }

  function Place(p: Purpose): nat {
    match p
    case AnchorLookup => 0 case Standing => 1 case RepositoryNormative => 2 case Evidence => 3
    case Neighborhood => 4 case Precedent => 5 case Lexical => 6 case Vector => 7
  }

  // One row cannot represent two sides, so evidence is planned with two or not at all.
  function Floor(p: Purpose): nat { if p == Evidence then 2 else 1 }

  function Sideband(p: Purpose): bool { p == RepositoryNormative || p == Precedent }

  function Wants(b: Bound, p: Purpose): nat {
    if b.anchor == Some(ClaimEvent) then (if p == RepositoryNormative then 6 else 3)
    else (if p == RepositoryNormative then 4 else 2)
  }

  // ---- the purposes and their order ----

  function Purposes(b: Bound): seq<Purpose> {
    var anchored := match b.anchor
      case None => []
      case Some(ClaimEvent) => [AnchorLookup, Standing, Evidence, Neighborhood]
      case Some(_) => [AnchorLookup, Neighborhood];
    var structural := anchored + if b.textual then [Lexical] else [];
    structural + (if structural != [] then [Vector] else [])
    + (if b.anchor.Some? then [RepositoryNormative, Precedent] else [])
  }

  predicate Earlier(p: Purpose, q: Purpose) { Tier(p) < Tier(q) || (Tier(p) == Tier(q) && Place(p) < Place(q)) }

  function Insert(p: Purpose, s: seq<Purpose>): seq<Purpose> {
    if s == [] || Earlier(p, s[0]) then [p] + s else [s[0]] + Insert(p, s[1..])
  }

  function Sorted(s: seq<Purpose>): seq<Purpose> {
    if s == [] then [] else Insert(s[|s| - 1], Sorted(s[..|s| - 1]))
  }

  function Ordered(b: Bound): seq<Purpose> { Sorted(Purposes(b)) }

  predicate InOrder(s: seq<Purpose>) { forall i, j :: 0 <= i < j < |s| ==> Earlier(s[i], s[j]) }

  lemma {:induction false} InsertMeans(p: Purpose, s: seq<Purpose>)
    ensures forall x :: x in Insert(p, s) <==> x == p || x in s
    ensures |Insert(p, s)| == |s| + 1
  {
    if s != [] && !Earlier(p, s[0]) {
      InsertMeans(p, s[1..]);
      assert s == [s[0]] + s[1..];
    }
  }

  lemma {:induction false} InsertOrders(p: Purpose, s: seq<Purpose>)
    requires InOrder(s) && p !in s
    ensures InOrder(Insert(p, s))
  {
    if s != [] && !Earlier(p, s[0]) {
      var t := Insert(p, s[1..]);
      InsertOrders(p, s[1..]);
      InsertMeans(p, s[1..]);
      forall i | 0 <= i < |t| ensures Earlier(s[0], t[i]) {
        assert t[i] in t;
        if t[i] != p { var k :| 0 <= k < |s[1..]| && s[1..][k] == t[i]; }
      }
    }
  }

  lemma {:induction false} SortedMeans(s: seq<Purpose>)
    requires forall i, j :: 0 <= i < j < |s| ==> s[i] != s[j]
    ensures InOrder(Sorted(s)) && |Sorted(s)| == |s| && forall x :: x in Sorted(s) <==> x in s
  {
    if s != [] {
      var init, p := s[..|s| - 1], s[|s| - 1];
      SortedMeans(init);
      assert s == init + [p] && p !in init;
      InsertOrders(p, Sorted(init));
      InsertMeans(p, Sorted(init));
    }
  }

  // Each purpose once, in tier order.
  lemma OrderedMeans(b: Bound)
    ensures InOrder(Ordered(b)) && |Ordered(b)| == |Purposes(b)| && forall p :: p in Ordered(b) <==> p in Purposes(b)
  {
    SortedMeans(Purposes(b));
  }

  // The class that leads a plan is never a sideband class and needs one row.
  lemma LeaderMeans(b: Bound)
    requires Ordered(b) != []
    ensures !Sideband(Ordered(b)[0]) && Floor(Ordered(b)[0]) == 1
  {
    var o := Ordered(b);
    OrderedMeans(b);
    assert o[0] in Purposes(b);
    if b.anchor.Some? {
      assert Purposes(b)[0] == AnchorLookup && AnchorLookup in o;
    }
  }

  // ---- the waterfall ----

  function Floors(s: seq<Purpose>): nat { if s == [] then 0 else Floor(s[0]) + Floors(s[1..]) }

  // How many purposes, in order, a ceiling admits at their floors.
  function Fits(s: seq<Purpose>, limit: int): (n: nat)
    ensures n <= |s|
  {
    if s == [] || limit < Floor(s[0]) then 0 else 1 + Fits(s[1..], limit - Floor(s[0]))
  }

  lemma {:induction false} FitsConcat(a: seq<Purpose>, b: seq<Purpose>, limit: int)
    ensures Fits(a + b, limit) == if Fits(a, limit) == |a| then |a| + Fits(b, limit - Floors(a)) else Fits(a, limit)
  {
    if a == [] {
      assert a + b == b;
    } else {
      assert (a + b)[1..] == a[1..] + b;
      FitsConcat(a[1..], b, limit - Floor(a[0]));
    }
  }

  // The admitted prefix is affordable, and the first class left out is not.
  lemma {:induction false} FitsMeans(s: seq<Purpose>, limit: int)
    requires limit >= 0
    ensures var n := Fits(s, limit); Floors(s[..n]) <= limit && (n < |s| ==> limit - Floors(s[..n]) < Floor(s[n]))
  {
    var n := Fits(s, limit);
    if s != [] && limit >= Floor(s[0]) {
      FitsMeans(s[1..], limit - Floor(s[0]));
      assert s[..n][1..] == s[1..][..n - 1];
    }
  }

  // A larger ceiling never plans less.
  lemma {:induction false} FitsMonotone(s: seq<Purpose>, limit: int, more: int)
    requires limit <= more
    ensures Fits(s, limit) <= Fits(s, more)
  {
    if s != [] && limit >= Floor(s[0]) { FitsMonotone(s[1..], limit - Floor(s[0]), more - Floor(s[0])); }
  }

  function InTier(s: seq<Purpose>, t: nat): seq<Purpose> {
    if s == [] then [] else (if Tier(s[0]) == t then [s[0]] else []) + InTier(s[1..], t)
  }

  lemma {:induction false} TierEmpty(s: seq<Purpose>, t: nat)
    requires forall i :: 0 <= i < |s| ==> Tier(s[i]) > t
    ensures InTier(s, t) == []
  {
    if s != [] { TierEmpty(s[1..], t); }
  }

  lemma {:induction false} TiersInOrder(s: seq<Purpose>)
    requires InOrder(s)
    ensures s == InTier(s, 1) + InTier(s, 2) + InTier(s, 3)
  {
    if s != [] {
      TiersInOrder(s[1..]);
      var a, b, c := InTier(s[1..], 1), InTier(s[1..], 2), InTier(s[1..], 3);
      assert s == [s[0]] + (a + b + c);
      if Tier(s[0]) > 1 { TierEmpty(s[1..], 1); }
      if Tier(s[0]) > 2 { TierEmpty(s[1..], 2); }
      TierHead(s[0], a, b, c);
    }
  }

  lemma TierHead(p: Purpose, a: seq<Purpose>, b: seq<Purpose>, c: seq<Purpose>)
    requires (Tier(p) > 1 ==> a == []) && (Tier(p) > 2 ==> b == [])
    ensures [p] + (a + b + c) ==
            ((if Tier(p) == 1 then [p] else []) + a)
            + ((if Tier(p) == 2 then [p] else []) + b) + ((if Tier(p) == 3 then [p] else []) + c)
  {
  }

  // ---- budgets ----

  function Total(ps: seq<Purpose>, budgets: map<Purpose, int>): int
    requires forall p :: p in ps ==> p in budgets
  {
    if ps == [] then 0 else budgets[ps[0]] + Total(ps[1..], budgets)
  }

  lemma {:induction false} TotalUnchanged(ps: seq<Purpose>, budgets: map<Purpose, int>, p: Purpose, v: int)
    requires (forall q :: q in ps ==> q in budgets) && p !in ps
    ensures Total(ps, budgets[p := v]) == Total(ps, budgets)
  {
    if ps != [] { TotalUnchanged(ps[1..], budgets, p, v); }
  }

  lemma {:induction false} TotalRaised(ps: seq<Purpose>, budgets: map<Purpose, int>, p: Purpose, d: int)
    requires (forall q :: q in ps ==> q in budgets) && p in ps && InOrder(ps)
    ensures Total(ps, budgets[p := budgets[p] + d]) == Total(ps, budgets) + d
  {
    if ps[0] == p {
      TotalUnchanged(ps[1..], budgets, p, budgets[p] + d);
    } else {
      TotalRaised(ps[1..], budgets, p, d);
    }
  }

  lemma {:induction false} TotalOfFloors(ps: seq<Purpose>, budgets: map<Purpose, int>)
    requires forall q :: q in ps ==> q in budgets && budgets[q] == Floor(q)
    ensures Total(ps, budgets) == Floors(ps)
  {
    if ps != [] { TotalOfFloors(ps[1..], budgets); }
  }

  predicate FlooredAt(budgets: map<Purpose, int>, ps: seq<Purpose>) {
    (forall p :: p in budgets ==> p in ps && budgets[p] == Floor(p)) && forall p :: p in ps ==> p in budgets
  }

  lemma FlooredOneMore(budgets: map<Purpose, int>, ps: seq<Purpose>, p: Purpose)
    requires FlooredAt(budgets, ps)
    ensures FlooredAt(budgets[p := Floor(p)], ps + [p])
  {
  }

  // The waterfall within one tier.
  method FloorTier(inTier: seq<Purpose>, remaining: nat, given: map<Purpose, int>, ghost before: seq<Purpose>)
    returns (i: nat, left: nat, budgets: map<Purpose, int>)
    requires FlooredAt(given, before)
    ensures i == Fits(inTier, remaining) && left == remaining - Floors(inTier[..i])
    ensures FlooredAt(budgets, before + inTier[..i])
  {
    i, left, budgets := 0, remaining, given;
    assert before + inTier[..0] == before;
    while i < |inTier| && left >= Floor(inTier[i])
      invariant 0 <= i <= |inTier| && left == remaining - Floors(inTier[..i])
      invariant Fits(inTier, remaining) == i + Fits(inTier[i..], left)
      invariant FlooredAt(budgets, before + inTier[..i])
    {
      FloorsAppend(inTier[..i], inTier[i]);
      assert inTier[..i + 1] == inTier[..i] + [inTier[i]];
      assert inTier[i..][1..] == inTier[i + 1..];
      FlooredOneMore(budgets, before + inTier[..i], inTier[i]);
      assert before + inTier[..i + 1] == before + inTier[..i] + [inTier[i]];
      budgets := budgets[inTier[i] := Floor(inTier[i])];
      left := left - Floor(inTier[i]);
      i := i + 1;
    }
  }

  // 1. Floors, tier by tier: a tier that cannot be floored ends the admission.
  method AdmitFloors(ordered: seq<Purpose>, limit: nat)
    returns (budgets: map<Purpose, int>, remaining: nat, planned: seq<Purpose>)
    requires InOrder(ordered)
    ensures planned == ordered[..Fits(ordered, limit)]
    ensures FlooredAt(budgets, planned) && remaining == limit - Floors(planned)
  {
    budgets, remaining, planned := map[], limit, [];
    for tier := 1 to 4
      invariant planned == TiersBelow(ordered, tier) && Fits(planned, limit) == |planned|
      invariant FlooredAt(budgets, planned) && remaining == limit - Floors(planned)
    {
      var inTier := InTier(ordered, tier);
      var before := planned;
      var i, left, more := FloorTier(inTier, remaining, budgets, before);
      TierSplit(ordered, tier);
      TierAdmitted(ordered, before, inTier, TiersFrom(ordered, tier + 1), limit, remaining, i);
      FloorsConcat(before, inTier[..i]);
      budgets, remaining, planned := more, left, before + inTier[..i];
      if i < |inTier| {
        return;
      }
      assert inTier[..i] == inTier;
    }
    AllTiers(ordered);
    assert planned == ordered;
    assert ordered[..|ordered|] == ordered;
  }

  lemma AllTiers(ordered: seq<Purpose>)
    requires InOrder(ordered)
    ensures TiersBelow(ordered, 4) == ordered
  {
    TiersInOrder(ordered);
  }

  lemma TierSplit(ordered: seq<Purpose>, tier: nat)
    requires InOrder(ordered) && 1 <= tier <= 3
    ensures ordered == TiersBelow(ordered, tier) + InTier(ordered, tier) + TiersFrom(ordered, tier + 1)
    ensures TiersBelow(ordered, tier + 1) == TiersBelow(ordered, tier) + InTier(ordered, tier)
  {
    TiersInOrder(ordered);
  }

  function TiersFrom(s: seq<Purpose>, t: nat): seq<Purpose> {
    (if t <= 2 then InTier(s, 2) else []) + if t <= 3 then InTier(s, 3) else []
  }

  lemma TierAdmitted(ordered: seq<Purpose>, before: seq<Purpose>, inTier: seq<Purpose>, rest: seq<Purpose>, limit: nat,
                     remaining: nat, i: nat)
    requires ordered == before + inTier + rest && Fits(before, limit) == |before|
    requires remaining == limit - Floors(before) && i == Fits(inTier, remaining)
    ensures Fits(before + inTier, limit) == |before| + i
    ensures i < |inTier| ==> ordered[..Fits(ordered, limit)] == before + inTier[..i]
  {
    FitsConcat(before, inTier, limit);
    FitsConcat(before + inTier, rest, limit);
    if i < |inTier| { assert ordered[..|before| + i] == before + inTier[..i]; }
  }

  function TiersBelow(s: seq<Purpose>, t: nat): seq<Purpose> {
    (if t > 1 then InTier(s, 1) else []) + (if t > 2 then InTier(s, 2) else []) + if t > 3 then InTier(s, 3) else []
  }

  lemma {:induction false} FloorsConcat(a: seq<Purpose>, b: seq<Purpose>)
    ensures Floors(a + b) == Floors(a) + Floors(b)
  {
    if a == [] {
      assert a + b == b;
    } else {
      assert (a + b)[1..] == a[1..] + b;
      FloorsConcat(a[1..], b);
    }
  }

  lemma FloorsAppend(a: seq<Purpose>, p: Purpose)
    ensures Floors(a + [p]) == Floors(a) + Floor(p)
  {
    FloorsConcat(a, [p]);
  }

  // ---- the surplus ----

  // Sideband classes first, in order, each up to what it wants.
  ghost predicate ToppedUp(b: Bound, ps: seq<Purpose>, budgets: map<Purpose, int>, n: nat, remaining: int) {
    && (forall p :: p in ps ==> p in budgets) && n <= |ps|
    && (forall i :: 0 <= i < |ps| && (i >= n || !Sideband(ps[i])) ==> budgets[ps[i]] == Floor(ps[i]))
    && (forall i :: 0 <= i < n && Sideband(ps[i]) ==> Floor(ps[i]) <= budgets[ps[i]] <= Wants(b, ps[i]))
    && (remaining > 0 ==> forall i :: 0 <= i < n && Sideband(ps[i]) ==> budgets[ps[i]] == Wants(b, ps[i]))
    && (forall i, j :: 0 <= i < j < n && Sideband(ps[i]) && Sideband(ps[j]) && budgets[ps[j]] > Floor(ps[j]) ==>
         budgets[ps[i]] == Wants(b, ps[i]))
  }

  lemma DistinctPurposes(ps: seq<Purpose>, i: nat, j: nat)
    requires InOrder(ps) && i < |ps| && j < |ps| && i != j
    ensures ps[i] != ps[j]
  {
  }

  // What the next class takes of the surplus.
  function Extra(b: Bound, p: Purpose, given: int, remaining: nat): nat {
    if !Sideband(p) || Wants(b, p) <= given then 0
    else if Wants(b, p) - given < remaining then Wants(b, p) - given else remaining
  }

  lemma TopUpOne(b: Bound, ps: seq<Purpose>, budgets: map<Purpose, int>, n: nat, remaining: nat)
    requires InOrder(ps) && ToppedUp(b, ps, budgets, n, remaining) && n < |ps|
    ensures var d := Extra(b, ps[n], budgets[ps[n]], remaining);
      && d <= remaining && ToppedUp(b, ps, budgets[ps[n] := budgets[ps[n]] + d], n + 1, remaining - d)
      && Total(ps, budgets[ps[n] := budgets[ps[n]] + d]) == Total(ps, budgets) + d
  {
    var d := Extra(b, ps[n], budgets[ps[n]], remaining);
    OneRaised(b, ps, budgets, n, remaining, d);
    TotalRaised(ps, budgets, ps[n], d);
  }

  lemma OneRaised(b: Bound, ps: seq<Purpose>, budgets: map<Purpose, int>, n: nat, remaining: nat, d: int)
    requires InOrder(ps) && ToppedUp(b, ps, budgets, n, remaining) && n < |ps|
    requires d == Extra(b, ps[n], budgets[ps[n]], remaining)
    ensures d <= remaining && ToppedUp(b, ps, budgets[ps[n] := budgets[ps[n]] + d], n + 1, remaining - d)
  {
    forall i | 0 <= i < |ps| && i != n ensures ps[i] != ps[n] { DistinctPurposes(ps, i, n); }
    RaiseOnlyOne(ps, budgets, n, budgets[ps[n]] + d);
  }

  lemma RaiseOnlyOne(ps: seq<Purpose>, budgets: map<Purpose, int>, n: nat, v: int)
    requires n < |ps| && (forall p :: p in ps ==> p in budgets) && forall i :: 0 <= i < |ps| && i != n ==>
             ps[i] != ps[n]
    ensures forall i :: 0 <= i < |ps| && i != n ==> budgets[ps[n] := v][ps[i]] == budgets[ps[i]]
  {
  }

  lemma NothingTopped(b: Bound, ps: seq<Purpose>, given: map<Purpose, int>, surplus: nat)
    requires FlooredAt(given, ps)
    ensures ToppedUp(b, ps, given, 0, surplus) && Total(ps, given) == Floors(ps)
  {
    TotalOfFloors(ps, given);
  }

  method TopUpSideband(b: Bound, ps: seq<Purpose>, given: map<Purpose, int>, surplus: nat)
    returns (budgets: map<Purpose, int>, remaining: nat)
    requires InOrder(ps) && FlooredAt(given, ps)
    ensures ToppedUp(b, ps, budgets, |ps|, remaining)
    ensures Total(ps, budgets) + remaining == Floors(ps) + surplus
  {
    budgets, remaining := given, surplus;
    NothingTopped(b, ps, budgets, surplus);
    for n := 0 to |ps|
      invariant ToppedUp(b, ps, budgets, n, remaining)
      invariant Total(ps, budgets) + remaining == Floors(ps) + surplus
    {
      budgets, remaining := TopUpNext(b, ps, budgets, n, remaining);
    }
  }

  method TopUpNext(b: Bound, ps: seq<Purpose>, given: map<Purpose, int>, n: nat, surplus: nat)
    returns (budgets: map<Purpose, int>, remaining: nat)
    requires InOrder(ps) && ToppedUp(b, ps, given, n, surplus) && n < |ps|
    ensures ToppedUp(b, ps, budgets, n + 1, remaining)
    ensures Total(ps, budgets) + remaining == Total(ps, given) + surplus
  {
    var d := Extra(b, ps[n], given[ps[n]], surplus);
    TopUpOne(b, ps, given, n, surplus);
    budgets, remaining := given[ps[n] := given[ps[n]] + d], surplus - d;
  }

  function SharesOf(ps: seq<Purpose>): seq<Purpose> {
    if ps == [] then [] else SharesOf(ps[..|ps| - 1]) + if Sideband(ps[|ps| - 1]) then [] else [ps[|ps| - 1]]
  }

  lemma {:induction false} SharesMean(ps: seq<Purpose>)
    requires InOrder(ps)
    ensures InOrder(SharesOf(ps)) && forall p :: p in SharesOf(ps) <==> p in ps && !Sideband(p)
  {
    if ps != [] {
      var init, p := ps[..|ps| - 1], ps[|ps| - 1];
      assert ps == init + [p];
      SharesMean(init);
      var s := SharesOf(init);
      forall i | 0 <= i < |s| ensures Earlier(s[i], p) {
        assert s[i] in init;
        var k :| 0 <= k < |init| && init[k] == s[i];
        assert Earlier(ps[k], ps[|ps| - 1]);
      }
    }
  }

  ghost predicate Split(ps: seq<Purpose>, shares: seq<Purpose>, given: map<Purpose, int>, budgets: map<Purpose, int>,
                        n: nat, base: int, rem: int) {
    && (forall p :: p in ps ==> p in given && p in budgets)
    && (forall p :: p in ps && p !in shares ==> budgets[p] == given[p])
    && (forall k :: 0 <= k < |shares| ==> shares[k] in ps)
    && (forall k :: 0 <= k < |shares| ==> budgets[shares[k]] == given[shares[k]] + if k < n then Share(k, base, rem)
         else 0)
  }

  function Share(k: int, base: int, rem: int): int { base + if k < rem then 1 else 0 }

  lemma SplitOne(ps: seq<Purpose>, shares: seq<Purpose>, given: map<Purpose, int>, budgets: map<Purpose, int>, n: nat,
                 base: int, rem: int)
    requires InOrder(ps) && InOrder(shares) && Split(ps, shares, given, budgets, n, base, rem) && n < |shares|
    ensures var more := budgets[shares[n] := budgets[shares[n]] + Share(n, base, rem)];
      Split(ps, shares, given, more, n + 1, base, rem) && Total(ps, more) == Total(ps, budgets) + Share(n, base, rem)
  {
    assert shares[n] in shares;
    TotalRaised(ps, budgets, shares[n], Share(n, base, rem));
    forall k | 0 <= k < |shares| && k != n ensures shares[k] != shares[n] { DistinctPurposes(shares, k, n); }
  }

  // The rest is split evenly over the other classes, earlier ones first.
  method SplitEvenly(ps: seq<Purpose>, shares: seq<Purpose>, given: map<Purpose, int>, base: nat, rem: nat)
    returns (budgets: map<Purpose, int>)
    requires InOrder(ps) && InOrder(shares) && rem < |shares|
    requires (forall p :: p in shares ==> p in ps) && (forall p :: p in ps ==> p in given)
    ensures Split(ps, shares, given, budgets, |shares|, base, rem)
    ensures Total(ps, budgets) == Total(ps, given) + |shares| * base + rem
  {
    budgets := given;
    ghost var spent := 0;
    for n := 0 to |shares|
      invariant Split(ps, shares, given, budgets, n, base, rem)
      invariant Total(ps, budgets) == Total(ps, given) + spent
      invariant spent == n * base + if n < rem then n else rem
    {
      SplitOne(ps, shares, given, budgets, n, base, rem);
      OneMore(n, base);
      budgets := budgets[shares[n] := budgets[shares[n]] + Share(n, base, rem)];
      spent := spent + Share(n, base, rem);
    }
  }

  lemma OneMore(n: nat, base: nat)
    ensures (n + 1) * base == n * base + base
  {
  }

  method DivMod(a: nat, n: nat) returns (q: nat, r: nat)
    requires n > 0
    ensures n * q + r == a && r < n
  {
    q, r := a / n, a % n;
  }

  // ---- the compiled plan ----

  function Ceiling(b: Bound): nat { if b.limit > 0 then b.limit else 0 }

  function ReasonOf(b: Bound, p: Purpose): Option<FtsReason> {
    if p != Lexical then None else Some(if b.fallback == None then Textual else StructuredUnderflow)
  }

  function Spent(classes: seq<QueryClass>): int {
    if classes == [] then 0 else classes[0].budget + Spent(classes[1..])
  }

  // The plan is the affordable prefix of the tier order, and the rest is stated as skipped.
  ghost predicate Prefixed(b: Bound, classes: seq<QueryClass>, skipped: seq<Purpose>) {
    var o := Ordered(b);
    && |classes| == Fits(o, Ceiling(b)) && skipped == o[|classes|..]
    && forall i :: 0 <= i < |classes| ==> classes[i].purpose == o[i] && classes[i].reason == ReasonOf(b, o[i])
  }

  function Surplus(c: QueryClass): int { c.budget - Floor(c.purpose) }

  // Every class gets its floor, a sideband class never more than it wants; the surplus
  // fills sideband classes in order, and what is left is shared evenly by the others.
  ghost predicate Shared(b: Bound, classes: seq<QueryClass>) {
    && (forall i :: 0 <= i < |classes| ==> Surplus(classes[i]) >= 0)
    && (forall i :: 0 <= i < |classes| && Sideband(classes[i].purpose) ==>
         classes[i].budget <= Wants(b, classes[i].purpose))
    && (forall i, j :: 0 <= i < |classes| && 0 <= j < |classes| && Before(classes, i, j) && Surplus(classes[j]) > 0 ==>
          classes[i].budget == Wants(b, classes[i].purpose))
    && (forall i, j :: 0 <= i < j < |classes| && !Sideband(classes[i].purpose) && !Sideband(classes[j].purpose) ==>
          0 <= Surplus(classes[i]) - Surplus(classes[j]) <= 1)
  }

  // A sideband class is filled before later sideband classes and before every other class.
  predicate Before(classes: seq<QueryClass>, i: nat, j: nat)
    requires i < |classes| && j < |classes|
  {
    Sideband(classes[i].purpose) && (if Sideband(classes[j].purpose) then i < j else true)
  }

  // Everything compile_plan promises; the budgets spend the ceiling exactly whenever
  // anything can be planned for.
  ghost predicate Apportioned(b: Bound, classes: seq<QueryClass>, skipped: seq<Purpose>) {
    && Prefixed(b, classes, skipped) && Shared(b, classes)
    && (Ordered(b) != [] ==> Spent(classes) == Ceiling(b))
  }

  function Classes(b: Bound, ps: seq<Purpose>, budgets: map<Purpose, int>): (r: seq<QueryClass>)
    requires forall p :: p in ps ==> p in budgets
    ensures |r| == |ps| && forall i :: 0 <= i < |r| ==> r[i] == QueryClass(ps[i], budgets[ps[i]], ReasonOf(b, ps[i]))
  {
    seq(|ps|, i requires 0 <= i < |ps| => QueryClass(ps[i], budgets[ps[i]], ReasonOf(b, ps[i])))
  }

  lemma {:induction false} SpentIsTotal(b: Bound, ps: seq<Purpose>, budgets: map<Purpose, int>)
    requires forall p :: p in ps ==> p in budgets
    ensures Spent(Classes(b, ps, budgets)) == Total(ps, budgets)
  {
    if ps != [] {
      assert Classes(b, ps, budgets)[1..] == Classes(b, ps[1..], budgets);
      SpentIsTotal(b, ps[1..], budgets);
    }
  }

  lemma SharedWithoutSplit(b: Bound, ps: seq<Purpose>, budgets: map<Purpose, int>)
    requires ToppedUp(b, ps, budgets, |ps|, 0)
    ensures Shared(b, Classes(b, ps, budgets))
  {
    var classes := Classes(b, ps, budgets);
    forall i, j | 0 <= i < |classes| && 0 <= j < |classes| && Before(classes, i, j) && Surplus(classes[j]) > 0
      ensures classes[i].budget == Wants(b, classes[i].purpose)
    {
      assert Sideband(ps[i]) && Sideband(ps[j]) && i < j && budgets[ps[j]] > Floor(ps[j]);
    }
  }

  lemma ShareOrder(ps: seq<Purpose>, shares: seq<Purpose>, i: nat, j: nat) returns (k: nat, l: nat)
    requires InOrder(ps) && InOrder(shares) && i < j < |ps| && ps[i] in shares && ps[j] in shares
    ensures k < l < |shares| && shares[k] == ps[i] && shares[l] == ps[j]
  {
    k :| 0 <= k < |shares| && shares[k] == ps[i];
    l :| 0 <= l < |shares| && shares[l] == ps[j];
    assert Earlier(ps[i], ps[j]);
  }

  // After an even split every sideband class has what it wants.
  lemma SplitSideband(b: Bound, ps: seq<Purpose>, topped: map<Purpose, int>, budgets: map<Purpose, int>, left: nat,
                      base: nat, rem: nat, i: nat)
    requires InOrder(ps) && ToppedUp(b, ps, topped, |ps|, left) && left > 0 && i < |ps| && Sideband(ps[i])
    requires Split(ps, SharesOf(ps), topped, budgets, |SharesOf(ps)|, base, rem)
    ensures budgets[ps[i]] == Wants(b, ps[i]) >= Floor(ps[i])
  {
    SharesMean(ps);
    assert ps[i] in ps && ps[i] !in SharesOf(ps);
  }

  lemma SplitShare(ps: seq<Purpose>, shares: seq<Purpose>, topped: map<Purpose, int>, budgets: map<Purpose, int>,
                   base: nat, rem: nat, k: nat)
    requires Split(ps, shares, topped, budgets, |shares|, base, rem) && k < |shares|
    ensures shares[k] in ps && budgets[shares[k]] == topped[shares[k]] + base + if k < rem then 1 else 0
  {
    assert shares[k] in ps;
  }

  // A class outside the sideband is raised by its share.
  lemma SplitOther(ps: seq<Purpose>, topped: map<Purpose, int>, budgets: map<Purpose, int>, base: nat, rem: nat, i: nat)
    requires InOrder(ps) && i < |ps| && !Sideband(ps[i]) && ps[i] in topped && topped[ps[i]] == Floor(ps[i])
    requires Split(ps, SharesOf(ps), topped, budgets, |SharesOf(ps)|, base, rem)
    ensures ps[i] in budgets && budgets[ps[i]] >= Floor(ps[i])
  {
    var shares := SharesOf(ps);
    SharesMean(ps);
    assert ps[i] in ps;
    var k :| 0 <= k < |shares| && shares[k] == ps[i];
    SplitShare(ps, shares, topped, budgets, base, rem, k);
  }

  lemma SplitOthers(ps: seq<Purpose>, topped: map<Purpose, int>, budgets: map<Purpose, int>, base: nat, rem: nat,
                    i: nat, j: nat)
    requires InOrder(ps) && i < j < |ps| && !Sideband(ps[i]) && !Sideband(ps[j])
    requires ps[i] in topped && ps[j] in topped && topped[ps[i]] == Floor(ps[i]) && topped[ps[j]] == Floor(ps[j])
    requires Split(ps, SharesOf(ps), topped, budgets, |SharesOf(ps)|, base, rem)
    ensures ps[i] in budgets && ps[j] in budgets
    ensures 0 <= (budgets[ps[i]] - Floor(ps[i])) - (budgets[ps[j]] - Floor(ps[j])) <= 1
  {
    var shares := SharesOf(ps);
    SharesMean(ps);
    assert ps[i] in ps && ps[j] in ps;
    var k, l := ShareOrder(ps, shares, i, j);
    SplitShare(ps, shares, topped, budgets, base, rem, k);
    SplitShare(ps, shares, topped, budgets, base, rem, l);
  }

  lemma SharedBySplit(b: Bound, ps: seq<Purpose>, topped: map<Purpose, int>, budgets: map<Purpose, int>, left: nat,
                      base: nat, rem: nat)
    requires InOrder(ps) && ToppedUp(b, ps, topped, |ps|, left) && left > 0
    requires Split(ps, SharesOf(ps), topped, budgets, |SharesOf(ps)|, base, rem)
    ensures Shared(b, Classes(b, ps, budgets))
  {
    SidebandFilled(b, ps, topped, budgets, left, base, rem);
    OthersEven(b, ps, topped, budgets, left, base, rem);
    FilledAndEven(b, Classes(b, ps, budgets));
  }

  ghost predicate Filled(b: Bound, classes: seq<QueryClass>) {
    forall i :: 0 <= i < |classes| && Sideband(classes[i].purpose) ==>
      classes[i].budget == Wants(b, classes[i].purpose) && Surplus(classes[i]) >= 0
  }

  ghost predicate Even(classes: seq<QueryClass>) {
    && (forall i :: 0 <= i < |classes| && !Sideband(classes[i].purpose) ==> Surplus(classes[i]) >= 0)
    && (forall i, j :: 0 <= i < j < |classes| && !Sideband(classes[i].purpose) && !Sideband(classes[j].purpose) ==>
          0 <= Surplus(classes[i]) - Surplus(classes[j]) <= 1)
  }

  lemma FilledAndEven(b: Bound, classes: seq<QueryClass>)
    requires Filled(b, classes) && Even(classes)
    ensures Shared(b, classes)
  {
  }

  lemma SidebandFilled(b: Bound, ps: seq<Purpose>, topped: map<Purpose, int>, budgets: map<Purpose, int>, left: nat,
                       base: nat, rem: nat)
    requires InOrder(ps) && ToppedUp(b, ps, topped, |ps|, left) && left > 0
    requires Split(ps, SharesOf(ps), topped, budgets, |SharesOf(ps)|, base, rem)
    ensures Filled(b, Classes(b, ps, budgets))
  {
    var classes := Classes(b, ps, budgets);
    forall i | 0 <= i < |classes| && Sideband(ps[i]) ensures classes[i].budget == Wants(b, ps[i]) >= Floor(ps[i]) {
      SplitSideband(b, ps, topped, budgets, left, base, rem, i);
    }
  }

  lemma OthersEven(b: Bound, ps: seq<Purpose>, topped: map<Purpose, int>, budgets: map<Purpose, int>, left: nat,
                   base: nat, rem: nat)
    requires InOrder(ps) && ToppedUp(b, ps, topped, |ps|, left)
    requires Split(ps, SharesOf(ps), topped, budgets, |SharesOf(ps)|, base, rem)
    ensures Even(Classes(b, ps, budgets))
  {
    var classes := Classes(b, ps, budgets);
    forall i | 0 <= i < |classes| && !Sideband(ps[i]) ensures Surplus(classes[i]) >= 0 {
      SplitOther(ps, topped, budgets, base, rem, i);
    }
    forall i, j | 0 <= i < j < |classes| && !Sideband(ps[i]) && !Sideband(ps[j])
      ensures 0 <= Surplus(classes[i]) - Surplus(classes[j]) <= 1
    {
      SplitOthers(ps, topped, budgets, base, rem, i, j);
    }
  }

  lemma SharedApportions(b: Bound, ps: seq<Purpose>, budgets: map<Purpose, int>)
    requires ps == Ordered(b)[..Fits(Ordered(b), Ceiling(b))] && (forall p :: p in ps ==> p in budgets)
    requires Shared(b, Classes(b, ps, budgets))
    requires Ordered(b) != [] ==> Total(ps, budgets) == Ceiling(b)
    ensures Apportioned(b, Classes(b, ps, budgets), Ordered(b)[|ps|..])
  {
    SpentIsTotal(b, ps, budgets);
  }

  // Nothing is planned only under a ceiling of nothing; otherwise some class shares the rest.
  lemma LeaderShares(b: Bound, ps: seq<Purpose>)
    requires Ordered(b) != [] && ps == Ordered(b)[..Fits(Ordered(b), Ceiling(b))]
    ensures ps == [] ==> Ceiling(b) == 0
    ensures ps != [] ==> SharesOf(ps) != []
  {
    LeaderMeans(b);
    OrderedMeans(b);
    if ps != [] {
      SharesMean(ps);
      assert ps[0] == Ordered(b)[0] && ps[0] in ps;
    }
  }

  // 2. The surplus: the sideband up to its wants, then the others evenly.
  method Apportion(b: Bound, planned: seq<Purpose>, floored: map<Purpose, int>, surplus: nat)
    returns (budgets: map<Purpose, int>)
    requires InOrder(planned) && FlooredAt(floored, planned) && (planned != [] ==> SharesOf(planned) != [])
    ensures (forall p :: p in planned ==> p in budgets) && Shared(b, Classes(b, planned, budgets))
    ensures Total(planned, budgets) == if planned == [] then 0 else Floors(planned) + surplus
  {
    var topped, left := TopUpSideband(b, planned, floored, surplus);
    var shares := SharesOf(planned);
    SharesMean(planned);
    if shares != [] && left > 0 {
      var base, rem := DivMod(left, |shares|);
      budgets := SplitEvenly(planned, shares, topped, base, rem);
      SharedBySplit(b, planned, topped, budgets, left, base, rem);
    } else {
      budgets := topped;
      SharedWithoutSplit(b, planned, budgets);
    }
  }

  lemma PrefixInOrder(s: seq<Purpose>, n: nat)
    requires InOrder(s) && n <= |s|
    ensures InOrder(s[..n])
  {
  }

  method CompilePlan(b: Bound) returns (classes: seq<QueryClass>, skipped: seq<Purpose>)
    ensures Apportioned(b, classes, skipped)
  {
    var ordered := Ordered(b);
    if ordered == [] {
      return [], [];
    }
    OrderedMeans(b);
    var floored, remaining, planned := AdmitFloors(ordered, Ceiling(b));
    LeaderShares(b, planned);
    PrefixInOrder(ordered, Fits(ordered, Ceiling(b)));
    var budgets := Apportion(b, planned, floored, remaining);
    SharedApportions(b, planned, budgets);
    classes, skipped := Classes(b, planned, budgets), ordered[|planned|..];
  }

  // A larger ceiling never skips what a smaller one planned.
  lemma PlansGrow(b: Bound, more: int, classes: seq<QueryClass>, skipped: seq<Purpose>, classes': seq<QueryClass>,
                  skipped': seq<Purpose>)
    requires more >= b.limit && Prefixed(b, classes, skipped) && Prefixed(b.(limit := more), classes', skipped')
    ensures |classes| <= |classes'| && forall i :: 0 <= i < |classes| ==> classes'[i].purpose == classes[i].purpose
  {
    SamePurposes(b, more);
    FitsMonotone(Ordered(b), Ceiling(b), Ceiling(b.(limit := more)));
  }

  lemma SamePurposes(b: Bound, more: int)
    ensures Ordered(b.(limit := more)) == Ordered(b)
  {
    assert Purposes(b.(limit := more)) == Purposes(b);
  }

  // ---- the plans, spelled out ----

  // Two ascending lists of the same purposes are one list.
  lemma {:induction false} OneOrder(a: seq<Purpose>, b: seq<Purpose>)
    requires InOrder(a) && InOrder(b) && forall p :: p in a <==> p in b
    ensures a == b
  {
    if a == [] {
      assert forall i :: 0 <= i < |b| ==> b[i] in b;
    } else {
      assert a[0] in a && a[0] in b;
      assert b[0] in b && b[0] in a;
      SameRest(a, b);
      OneOrder(a[1..], b[1..]);
    }
  }

  lemma SameRest(a: seq<Purpose>, b: seq<Purpose>)
    requires a != [] && b != [] && InOrder(a) && InOrder(b) && forall p :: p in a <==> p in b
    requires a[0] in b && b[0] in a
    ensures a[0] == b[0] && forall p :: p in a[1..] <==> p in b[1..]
  {
    HeadIsFirst(a, b[0]);
    HeadIsFirst(b, a[0]);
    HeadOnce(a);
    HeadOnce(b);
  }

  lemma HeadIsFirst(a: seq<Purpose>, p: Purpose)
    requires InOrder(a) && p in a
    ensures p == a[0] || Earlier(a[0], p)
  {
    var i :| 0 <= i < |a| && a[i] == p;
  }

  lemma HeadOnce(a: seq<Purpose>)
    requires a != [] && InOrder(a)
    ensures forall p :: p in a[1..] <==> p in a && p != a[0]
  {
    forall p ensures p in a[1..] <==> p in a && p != a[0] {
      if p in a[1..] {
        var i :| 0 <= i < |a[1..]| && a[1..][i] == p;
        assert Earlier(a[0], a[i + 1]);
      }
      if p in a && p != a[0] {
        var i :| 0 <= i < |a| && a[i] == p;
        assert a[1..][i - 1] == p;
      }
    }
  }

  // What is planned for, in order: grounding before evidence before reach.
  function Expected(b: Bound): seq<Purpose> {
    match b.anchor
    case None => if b.textual then [Lexical, Vector] else []
    case Some(ClaimEvent) =>
      if b.textual then
        [AnchorLookup, Standing, RepositoryNormative, Evidence, Neighborhood, Precedent, Lexical, Vector]
      else [AnchorLookup, Standing, RepositoryNormative, Evidence, Neighborhood, Precedent, Vector]
    case Some(_) =>
      if b.textual then [AnchorLookup, RepositoryNormative, Neighborhood, Precedent, Lexical, Vector]
      else [AnchorLookup, RepositoryNormative, Neighborhood, Precedent, Vector]
  }

  lemma OrderIsExpected(b: Bound)
    ensures Ordered(b) == Expected(b)
  {
    OrderedMeans(b);
    forall p ensures p in Purposes(b) <==> p in Expected(b) {}
    OneOrder(Ordered(b), Expected(b));
  }

  lemma {:induction false} FitsWhole(s: seq<Purpose>, limit: int)
    requires limit >= Floors(s)
    ensures Fits(s, limit) == |s|
  {
    if s != [] { FitsWhole(s[1..], limit - Floor(s[0])); }
  }

  // Five shares that fall by at most one are the even split of their sum.
  lemma FiveShares(a: int, b: int, c: int, d: int, e: int)
    requires a >= b >= c >= d >= e >= 0 && a - e <= 1
    ensures var sum := a + b + c + d + e; var q, r := sum / 5, sum % 5;
      && a == q + (if 0 < r then 1 else 0) && b == q + (if 1 < r then 1 else 0)
      && c == q + (if 2 < r then 1 else 0) && d == q + (if 3 < r then 1 else 0) && e == q
  {
    var sum := a + b + c + d + e;
    assert 5 * e <= sum < 5 * e + 5;
  }

  lemma SpentOnSeven(c: seq<QueryClass>)
    requires |c| == 7
    ensures Spent(c) == c[0].budget + c[1].budget + c[2].budget + c[3].budget + c[4].budget + c[5].budget + c[6].budget
  {
    assert c[0..] == c && c[7..] == [];
    SpentAt(c, 0);
    SpentAt(c, 1);
    SpentAt(c, 2);
    SpentAt(c, 3);
    SpentAt(c, 4);
    SpentAt(c, 5);
    SpentAt(c, 6);
  }

  lemma SpentAt(c: seq<QueryClass>, i: nat)
    requires i < |c|
    ensures Spent(c[i..]) == c[i].budget + Spent(c[i + 1..])
  {
    assert c[i..][1..] == c[i + 1..];
  }

  lemma FloorsAt(s: seq<Purpose>, i: nat)
    requires i < |s|
    ensures Floors(s[i..]) == Floor(s[i]) + Floors(s[i + 1..])
  {
    assert s[i..][1..] == s[i + 1..];
  }

  lemma FitsAt(s: seq<Purpose>, i: nat, limit: int)
    requires i < |s|
    ensures Fits(s[i..], limit) == if limit < Floor(s[i]) then 0 else 1 + Fits(s[i + 1..], limit - Floor(s[i]))
  {
    assert s[i..][1..] == s[i + 1..];
  }

  // The budgets of a plan that reviews a claim, under any ceiling that reaches every class:
  // one row each and two for evidence, then up to five more norms, then up to two more
  // precedents, and the rest in five even shares, the earlier classes first.
  lemma ClaimBudgets(limit: nat, classes: seq<QueryClass>, skipped: seq<Purpose>)
    requires limit >= 8 && Apportioned(Bound(Some(ClaimEvent), false, None, limit), classes, skipped)
    ensures skipped == [] && |classes| == 7
    ensures var norms := Min(5, limit - 8); var precedents := Min(2, limit - 8 - norms);
      var rest := limit - 8 - norms - precedents; var q, r := rest / 5, rest % 5;
      && classes[0].purpose == AnchorLookup && classes[0].budget == 1 + q + (if 0 < r then 1 else 0)
      && classes[1].purpose == Standing && classes[1].budget == 1 + q + (if 1 < r then 1 else 0)
      && classes[2].purpose == RepositoryNormative && classes[2].budget == 1 + norms
      && classes[3].purpose == Evidence && classes[3].budget == 2 + q + (if 2 < r then 1 else 0)
      && classes[4].purpose == Neighborhood && classes[4].budget == 1 + q + (if 3 < r then 1 else 0)
      && classes[5].purpose == Precedent && classes[5].budget == 1 + precedents
      && classes[6].purpose == Vector && classes[6].budget == 1 + q
  {
    var b := Bound(Some(ClaimEvent), false, None, limit);
    SevenPlanned(b, classes, skipped);
    SevenShared(b, classes);
    SpentOnSeven(classes);
    SevenSurplus(b, classes);
  }

  lemma SevenPlanned(b: Bound, classes: seq<QueryClass>, skipped: seq<Purpose>)
    requires b.anchor == Some(ClaimEvent) && !b.textual && b.limit >= 8 && Prefixed(b, classes, skipped)
    ensures skipped == [] && |classes| == 7
    ensures classes[0].purpose == AnchorLookup && classes[1].purpose == Standing
    ensures classes[2].purpose == RepositoryNormative && classes[3].purpose == Evidence
    ensures classes[4].purpose == Neighborhood && classes[5].purpose == Precedent && classes[6].purpose == Vector
  {
    OrderIsExpected(b);
    var o := [AnchorLookup, Standing, RepositoryNormative, Evidence, Neighborhood, Precedent, Vector];
    assert Ordered(b) == o;
    FloorsOfSeven(o);
    FitsWhole(o, b.limit);
  }

  lemma FloorsOfSeven(o: seq<Purpose>)
    requires o == [AnchorLookup, Standing, RepositoryNormative, Evidence, Neighborhood, Precedent, Vector]
    ensures Floors(o) == 8
  {
    FloorsOfFour(o);
    assert o[0..] == o;
    FloorsAt(o, 0);
    FloorsAt(o, 1);
    FloorsAt(o, 2);
  }

  lemma FloorsOfFour(o: seq<Purpose>)
    requires |o| == 7 && o[3] == Evidence && o[4] == Neighborhood && o[5] == Precedent && o[6] == Vector
    ensures Floors(o[3..]) == 5
  {
    assert o[7..] == [];
    FloorsAt(o, 3);
    FloorsAt(o, 4);
    FloorsAt(o, 5);
    FloorsAt(o, 6);
  }

  // What sharing says of the seven, in plain numbers.
  lemma SevenShared(b: Bound, c: seq<QueryClass>)
    requires |c| == 7 && Shared(b, c) && b.anchor == Some(ClaimEvent)
    requires c[0].purpose == AnchorLookup && c[1].purpose == Standing && c[2].purpose == RepositoryNormative
    requires c[3].purpose == Evidence && c[4].purpose == Neighborhood && c[5].purpose == Precedent
    requires c[6].purpose == Vector
    ensures c[0].budget - 1 >= c[1].budget - 1 >= c[3].budget - 2 >= c[4].budget - 1 >= c[6].budget - 1 >= 0
    ensures c[0].budget - c[6].budget <= 1 && 1 <= c[2].budget <= 6 && 1 <= c[5].budget <= 3
    ensures c[5].budget > 1 || c[0].budget > 1 ==> c[2].budget == 6
    ensures c[0].budget > 1 ==> c[5].budget == 3
  {
    assert Sideband(c[2].purpose) && Sideband(c[5].purpose) && Before(c, 2, 5) && Before(c, 2, 0) && Before(c, 5, 0);
    assert Surplus(c[0]) == c[0].budget - 1 && Surplus(c[1]) == c[1].budget - 1 && Surplus(c[3]) == c[3].budget - 2;
    assert Surplus(c[4]) == c[4].budget - 1 && Surplus(c[6]) == c[6].budget - 1;
    assert Surplus(c[2]) == c[2].budget - 1 && Surplus(c[5]) == c[5].budget - 1;
  }

  lemma SevenSurplus(b: Bound, c: seq<QueryClass>)
    requires |c| == 7 && b.limit >= 8
    requires c[0].budget + c[1].budget + c[2].budget + c[3].budget + c[4].budget + c[5].budget + c[6].budget == b.limit
    requires c[0].budget - 1 >= c[1].budget - 1 >= c[3].budget - 2 >= c[4].budget - 1 >= c[6].budget - 1 >= 0
    requires c[0].budget - c[6].budget <= 1 && 1 <= c[2].budget <= 6 && 1 <= c[5].budget <= 3
    requires c[5].budget > 1 || c[0].budget > 1 ==> c[2].budget == 6
    requires c[0].budget > 1 ==> c[5].budget == 3
    ensures var norms := Min(5, b.limit - 8); var precedents := Min(2, b.limit - 8 - norms);
      var rest := b.limit - 8 - norms - precedents; var q, r := rest / 5, rest % 5;
      && c[2].budget == 1 + norms && c[5].budget == 1 + precedents
      && c[0].budget == 1 + q + (if 0 < r then 1 else 0) && c[1].budget == 1 + q + (if 1 < r then 1 else 0)
      && c[3].budget == 2 + q + (if 2 < r then 1 else 0) && c[4].budget == 1 + q + (if 3 < r then 1 else 0)
      && c[6].budget == 1 + q
  {
    FiveShares(c[0].budget - 1, c[1].budget - 1, c[3].budget - 2, c[4].budget - 1, c[6].budget - 1);
  }

  // Under smaller ceilings the tiers are hard: at four the anchor, its standing and its norms
  // are planned, the row that cannot floor evidence tops up the norms, and nothing of a later
  // tier gets in.
  lemma ClaimAtFour(classes: seq<QueryClass>, skipped: seq<Purpose>)
    requires Apportioned(Bound(Some(ClaimEvent), false, None, 4), classes, skipped)
    ensures |classes| == 3 && skipped == [Evidence, Neighborhood, Precedent, Vector]
    ensures classes[0].purpose == AnchorLookup && classes[0].budget == 1
    ensures classes[1].purpose == Standing && classes[1].budget == 1
    ensures classes[2].purpose == RepositoryNormative && classes[2].budget == 2
  {
    var b := Bound(Some(ClaimEvent), false, None, 4);
    OrderIsExpected(b);
    var o := [AnchorLookup, Standing, RepositoryNormative, Evidence, Neighborhood, Precedent, Vector];
    assert Ordered(b) == o;
    ThreeFit(o);
    var c := classes;
    SpentOnThree(c);
    assert Before(c, 2, 0) && Before(c, 2, 1) && Sideband(c[2].purpose);
    assert Surplus(c[0]) == c[0].budget - 1 && Surplus(c[1]) == c[1].budget - 1 && Surplus(c[2]) == c[2].budget - 1;
  }

  lemma ThreeFit(o: seq<Purpose>)
    requires o == [AnchorLookup, Standing, RepositoryNormative, Evidence, Neighborhood, Precedent, Vector]
    ensures Fits(o, 4) == 3
  {
    assert o[0..] == o;
    FitsAt(o, 0, 4);
    FitsAt(o, 1, 3);
    FitsAt(o, 2, 2);
    FitsAt(o, 3, 1);
  }

  lemma SpentOnThree(c: seq<QueryClass>)
    requires |c| == 3
    ensures Spent(c) == c[0].budget + c[1].budget + c[2].budget
  {
    assert c[0..] == c && c[3..] == [];
    SpentAt(c, 0);
    SpentAt(c, 1);
    SpentAt(c, 2);
  }

  // The other anchors want four norms and two precedents.
  lemma OtherWants(anchor: Anchor, textual: bool, fallback: Option<int>, limit: int)
    ensures var b := Bound(Some(anchor), textual, fallback, limit);
      && Wants(b, RepositoryNormative) == (if anchor == ClaimEvent then 6 else 4)
      && Wants(b, Precedent) == (if anchor == ClaimEvent then 3 else 2)
  {
  }
}
