// The convergence theorems: every complete schedule ends in the closed form, so arrival
// order and rebuilds cannot change a projection, with the two exceptions stated exactly.

module Convergence {
  import opened Prelude
  import opened Vocabulary
  import opened Support
  import opened Fold
  import opened Confluence

  lemma {:induction false} BehaviorInv(cs: seq<Config>, steps: seq<Step>, i: nat)
    requires Behavior(cs, steps) && i < |cs|
    ensures Inv(cs[i])
  {
    if i == 0 {
      InvEmptied(cs[0].t);
    } else {
      BehaviorInv(cs, steps, i - 1);
      InvNext(cs[i - 1], steps[i - 1], cs[i]);
    }
  }

  lemma QuarantineClosed(c: Config)
    requires Inv(c) && Complete(c)
    ensures c.t.quarantine.Keys == QuarantineOf(c.t.facts)
  {
    var F, q := c.t.facts, c.t.quarantine;
    forall id | id in q ensures id in QuarantineOf(F) {
      var f :| f in Consumers(F, q[id].work, q[id].key) && f.id == id;
      assert Loses(F, f);
    }
    forall id | id in QuarantineOf(F) ensures id in q {
      var f :| f in F && Loses(F, f) && f.id == id;
    }
  }

  lemma StandingsClosed(c: Config)
    requires Inv(c) && Complete(c)
    ensures c.t.standings == StandingTable(Claims(c.t.facts), Observations(c.t.facts), AssertedLinks(c.t.facts))
  {
    var F, links := c.t.facts, c.t.links;
    assert EvidenceDone(F, c.done);
    forall l | l in AssertedLinks(F) && l.target in Claims(F) ensures l in ResolvedLinks(links) {
      assert l in links;
      var f :| f in F && f.payload.ClaimRecorded? && f.id == l.target;
      assert l.target in Ids(c.done);
    }
    StandingDependsOnLinksIntoClaims(Claims(F), Observations(F), ResolvedLinks(links), AssertedLinks(F));
  }

  lemma CompleteIsClosed(c: Config)
    requires Inv(c) && Complete(c)
    ensures ClosedForm(c.t)
  {
    QuarantineClosed(c);
    StandingsClosed(c);
    var F := c.t.facts;
    forall k | k in c.t.deps
      ensures c.t.deps[k].state == EdgeState(F, QuarantineOf(F), k.dependency)
    {
      assert OutcomesDone(F, c.done, k.dependency);
    }
    forall w ensures RowCurrent(F, QuarantineOf(F), c.t.deps, c.t.works, w) {
      assert WorkDone(F, c.done, w);
    }
    forall p
      ensures if PlanOf(F, p).Some? then p in c.t.plans && c.t.plans[p] == PlanOf(F, p).value else p !in c.t.plans
    {
      assert PlanDone(F, c.done, p);
    }
  }

  // Any interleaving of stub arrivals, inserts, reductions and rebuilds, once every
  // stored fact has been reduced since the last truncation, has reached the closed form.
  lemma EveryScheduleConverges(cs: seq<Config>, steps: seq<Step>)
    requires Behavior(cs, steps) && Complete(cs[|cs| - 1])
    ensures ClosedForm(cs[|cs| - 1].t)
  {
    BehaviorInv(cs, steps, |cs| - 1);
    CompleteIsClosed(cs[|cs| - 1]);
  }

  // ---- what two closed tables over one fact set share ----

  ghost predicate Mixed(F: set<Fact>, w: string) {
    exists d, x :: DeclaredPolicy(F, w, d, ALL) && DeclaredPolicy(F, w, x, ANY)
  }

  ghost predicate ResolvesIn(F: set<Fact>, d: string) {
    var s := EdgeState(F, QuarantineOf(F), d);
    s == Satisfied || s == ConflictedDep
  }

  // The work's readiness really hangs on which policy row is read first: it is derived,
  // has no result and no retirement, declares both policies, and some but not all of its
  // dependencies have resolved.
  ghost predicate PolicySensitive(F: set<Fact>, w: string) {
    && Derives(F, w) != {} && !RetiredIn(F, w) && Results(F, w) == {} && Mixed(F, w)
    && (exists d :: Dep(w, d) in DeclaredDeps(F) && ResolvesIn(F, d))
    && (exists d :: Dep(w, d) in DeclaredDeps(F) && !ResolvesIn(F, d))
  }

  ghost predicate SameStates(t: Tables, u: Tables) {
    && t.quarantine.Keys == u.quarantine.Keys
    && t.deps.Keys == u.deps.Keys
    && (forall k :: k in t.deps ==> t.deps[k].state == u.deps[k].state)
    && t.plans == u.plans
    && t.standings == u.standings
    && t.links.Keys == u.links.Keys
  }

  ghost predicate SameIdentity(a: WorkRow, b: WorkRow) {
    a.plan == b.plan && a.workKind == b.workKind && a.subject == b.subject && a.role == b.role
  }

  lemma ClosedStatesAgree(t: Tables, u: Tables)
    requires t.facts == u.facts && ClosedForm(t) && ClosedForm(u)
    ensures SameStates(t, u)
  {
    var F := t.facts;
    forall p ensures p in t.plans <==> p in u.plans
    ensures p in t.plans && p in u.plans ==> t.plans[p] == u.plans[p]
    {
      assert PlanOf(F, p).Some? || PlanOf(F, p).None?;
    }
    assert t.plans == u.plans;
  }

  ghost predicate DepsClosed(t: Tables) {
    && t.deps.Keys == DeclaredDeps(t.facts)
    && forall k :: k in t.deps ==> t.deps[k].state == EdgeState(t.facts, QuarantineOf(t.facts), k.dependency)
  }

  lemma ClosedDeps(t: Tables)
    requires ClosedForm(t)
    ensures DepsClosed(t)
  {
  }

  lemma EdgesMatch(t: Tables, u: Tables, w: string)
    requires t.facts == u.facts && DepsClosed(t) && DepsClosed(u)
    ensures EdgesOf(t.deps, w).Keys == EdgesOf(u.deps, w).Keys
    ensures forall d :: d in EdgesOf(t.deps, w) ==> EdgesOf(t.deps, w)[d].state == EdgesOf(u.deps, w)[d].state
  {
    forall d ensures d in EdgesOf(t.deps, w) <==> d in EdgesOf(u.deps, w) {
      assert d in EdgesOf(t.deps, w) <==> Dep(w, d) in t.deps;
      assert d in EdgesOf(u.deps, w) <==> Dep(w, d) in u.deps;
    }
    forall d | d in EdgesOf(t.deps, w) ensures EdgesOf(t.deps, w)[d].state == EdgesOf(u.deps, w)[d].state {
      assert Dep(w, d) in t.deps && Dep(w, d) in u.deps;
    }
  }

  lemma ReadinessAgrees(a: map<string, Edge>, b: map<string, Edge>, p: Policy, q: Policy)
    requires a.Keys == b.Keys && forall d :: d in a ==> a[d].state == b[d].state
    requires p == q || (forall d :: d in a ==> Resolving(a[d])) || (forall d :: d in a ==> !Resolving(a[d]))
    ensures Readiness(a, p) == Readiness(b, q)
  {
    if a == map[] {
      assert b == map[];
    } else {
      var d :| d in a;
      assert b != map[] && d in b;
      assert forall x :: x in a ==> Resolving(a[x]) == Resolving(b[x]);
    }
  }

  // The policy a closed row was computed under is one its edges hold.
  ghost predicate RowUnder(t: Tables, w: string, p: Policy) {
    var edges := EdgesOf(t.deps, w);
    && w in t.works && Some(t.works[w]) == RowOf(t.facts, QuarantineOf(t.facts), edges, w, p)
    && (edges == map[] || exists d :: d in edges && edges[d].policy == p)
  }

  lemma ClosedRow(t: Tables, w: string) returns (p: Policy)
    requires ClosedForm(t) && Keyed(t.facts) && w in t.works
    ensures RowUnder(t, w, p)
  {
    assert RowCurrent(t.facts, QuarantineOf(t.facts), t.deps, t.works, w);
    var edges := EdgesOf(t.deps, w);
    if edges == map[] {
      p := ALL;
    } else {
      var d :| d in edges && Some(t.works[w]) == RowOf(t.facts, QuarantineOf(t.facts), edges, w, edges[d].policy);
      p := edges[d].policy;
    }
  }

  lemma PoliciesDiffer(t: Tables, u: Tables, w: string, p: Policy, q: Policy)
    requires t.facts == u.facts && ClosedForm(t) && ClosedForm(u) && p != q
    requires exists d :: d in EdgesOf(t.deps, w) && EdgesOf(t.deps, w)[d].policy == p
    requires exists d :: d in EdgesOf(u.deps, w) && EdgesOf(u.deps, w)[d].policy == q
    ensures Mixed(t.facts, w)
  {
    var d :| d in EdgesOf(t.deps, w) && EdgesOf(t.deps, w)[d].policy == p;
    var x :| x in EdgesOf(u.deps, w) && EdgesOf(u.deps, w)[x].policy == q;
    assert Dep(w, d) in t.deps && Dep(w, x) in u.deps;
    assert DeclaredPolicy(t.facts, w, d, p) && DeclaredPolicy(t.facts, w, x, q);
  }

  lemma ClosedEdges(t: Tables, w: string)
    requires ClosedForm(t)
    ensures forall y :: y in EdgesOf(t.deps, w) ==>
      Dep(w, y) in DeclaredDeps(t.facts) && Resolving(EdgesOf(t.deps, w)[y]) == ResolvesIn(t.facts, y)
  {
    forall y | y in EdgesOf(t.deps, w)
      ensures Dep(w, y) in DeclaredDeps(t.facts) && Resolving(EdgesOf(t.deps, w)[y]) == ResolvesIn(t.facts, y)
    {
      assert Dep(w, y) in t.deps;
    }
  }

  lemma ReadinessInsensitive(F: set<Fact>, a: map<string, Edge>, b: map<string, Edge>, w: string, p: Policy, q: Policy)
    requires a.Keys == b.Keys && forall d :: d in a ==> a[d].state == b[d].state
    requires forall y :: y in a ==> Dep(w, y) in DeclaredDeps(F) && Resolving(a[y]) == ResolvesIn(F, y)
    requires a != map[] && p != q ==> Mixed(F, w)
    requires Derives(F, w) != {} && !RetiredIn(F, w) && Results(F, w) == {} && !PolicySensitive(F, w)
    ensures Readiness(a, p) == Readiness(b, q)
  {
    if a == map[] {
      assert b == map[];
    } else {
      ReadinessAgrees(a, b, p, q);
    }
  }

  lemma RowsFromReadiness(t: Tables, u: Tables, w: string, p: Policy, q: Policy)
    requires t.facts == u.facts && RowUnder(t, w, p) && RowUnder(u, w, q)
    ensures SameIdentity(t.works[w], u.works[w])
    ensures (!RetiredIn(t.facts, w) && LatestOutcome(t.facts, QuarantineOf(t.facts), w).None? ==>
               Readiness(EdgesOf(t.deps, w), p) == Readiness(EdgesOf(u.deps, w), q))
            ==> t.works[w] == u.works[w]
  {
  }

  lemma RowPresence(t: Tables, w: string)
    requires ClosedForm(t) && Keyed(t.facts)
    ensures w in t.works <==> Derives(t.facts, w) != {}
  {
    SomeDerive(t.facts, w);
    assert RowCurrent(t.facts, QuarantineOf(t.facts), t.deps, t.works, w);
  }

  lemma ReadinessOfClosed(t: Tables, u: Tables, w: string, p: Policy, q: Policy)
    requires t.facts == u.facts && ClosedForm(t) && ClosedForm(u) && RowUnder(t, w, p) && RowUnder(u, w, q)
    requires Derives(t.facts, w) != {} && !RetiredIn(t.facts, w) && Results(t.facts, w) == {}
    requires !PolicySensitive(t.facts, w)
    ensures Readiness(EdgesOf(t.deps, w), p) == Readiness(EdgesOf(u.deps, w), q)
  {
    ClosedDeps(t);
    ClosedDeps(u);
    EdgesMatch(t, u, w);
    ClosedEdges(t, w);
    var a, b := EdgesOf(t.deps, w), EdgesOf(u.deps, w);
    if a != map[] && p != q {
      var d :| d in a;
      assert d in b;
      PoliciesDiffer(t, u, w, p, q);
    }
    ReadinessInsensitive(t.facts, a, b, w, p, q);
  }

  // Row presence and identity never depend on the schedule; execution depends on it only
  // for a policy-sensitive work.
  lemma ClosedRowsAgree(t: Tables, u: Tables, w: string)
    requires t.facts == u.facts && ClosedForm(t) && ClosedForm(u) && Keyed(t.facts)
    ensures w in t.works <==> w in u.works
    ensures w in t.works ==> SameIdentity(t.works[w], u.works[w])
    ensures w in t.works && !PolicySensitive(t.facts, w) ==> t.works[w] == u.works[w]
  {
    RowPresence(t, w);
    RowPresence(u, w);
    if w in t.works {
      var p := ClosedRow(t, w);
      var q := ClosedRow(u, w);
      RowsFromReadiness(t, u, w, p, q);
      if !PolicySensitive(t.facts, w) && !RetiredIn(t.facts, w)
         && LatestOutcome(t.facts, QuarantineOf(t.facts), w).None? {
        NoLatestNoResult(t, w);
        ReadinessOfClosed(t, u, w, p, q);
      }
    }
  }

  lemma NoLatestNoResult(t: Tables, w: string)
    requires ClosedForm(t) && Keyed(t.facts) && LatestOutcome(t.facts, QuarantineOf(t.facts), w).None?
    ensures Results(t.facts, w) == {}
  {
    var F := t.facts;
    if f :| f in Results(F, w) {
      var live := Live(F, QuarantineOf(F), w);
      LiveResult(F, w, f);
      KeyedSubset(F, live);
      ExtremesExist(live);
    }
  }

  // Quarantine never takes all results of a work.
  lemma LiveResult(F: set<Fact>, w: string, f: Fact)
    requires Keyed(F) && f in Results(F, w)
    ensures Live(F, QuarantineOf(F), w) != {}
  {
    var live := Live(F, QuarantineOf(F), w);
    if f.payload.occurrenceKey.Some? {
      assert f in Consumers(F, w, f.payload.occurrenceKey.value);
      WinnerLoses(F, w, f.payload.occurrenceKey.value);
      var win := Earliest(Consumers(F, w, f.payload.occurrenceKey.value)).value;
      NotQuarantined(F, win);
      assert win in live;
    } else {
      NotQuarantined(F, f);
      assert f in live;
    }
  }

  lemma NotQuarantined(F: set<Fact>, f: Fact)
    requires Keyed(F) && f in F && !Loses(F, f)
    ensures f.id !in QuarantineOf(F)
  {
  }

  // The schedule theorem: two complete runs over the same facts agree on the quarantine,
  // every edge state, every plan and standing, row presence and identity, and on the
  // execution of every work that is not policy-sensitive.
  lemma ArrivalOrderIsIrrelevant(cs: seq<Config>, steps: seq<Step>, ds: seq<Config>, steps': seq<Step>)
    requires Behavior(cs, steps) && Behavior(ds, steps')
    requires Complete(cs[|cs| - 1]) && Complete(ds[|ds| - 1])
    requires cs[|cs| - 1].t.facts == ds[|ds| - 1].t.facts
    ensures var t, u := cs[|cs| - 1].t, ds[|ds| - 1].t;
      && SameStates(t, u)
      && t.works.Keys == u.works.Keys
      && (forall w :: w in t.works ==> SameIdentity(t.works[w], u.works[w]))
      && (forall w :: w in t.works && !PolicySensitive(t.facts, w) ==> t.works[w] == u.works[w])
  {
    var t, u := cs[|cs| - 1].t, ds[|ds| - 1].t;
    EveryScheduleConverges(cs, steps);
    EveryScheduleConverges(ds, steps');
    BehaviorInv(cs, steps, |cs| - 1);
    ClosedStatesAgree(t, u);
    forall w ensures w in t.works <==> w in u.works
      ensures w in t.works ==> SameIdentity(t.works[w], u.works[w])
      ensures w in t.works && !PolicySensitive(t.facts, w) ==> t.works[w] == u.works[w]
    {
      ClosedRowsAgree(t, u, w);
    }
  }
}
