// What the projections show, said on the stamps themselves: the result, derivation or
// lifecycle with the greatest (physical, logical, origin, id), the smallest for an
// occurrence key, in every complete run of the reducers.

module Newest {
  import opened Prelude
  import opened Text
  import opened Vocabulary
  import opened Hlc
  import opened Fold
  import opened Confluence
  import opened Convergence

  // ---- the coordinate of a fact ----

  // The larger physical time wins, then the larger counter, then the origin and the id in
  // code-point order.
  predicate Newer(f: Fact, g: Fact) {
    || f.physical > g.physical
    || (f.physical == g.physical && f.logical > g.logical)
    || (f.physical == g.physical && f.logical == g.logical && Before(g.origin, f.origin))
    || (f.physical == g.physical && f.logical == g.logical && f.origin == g.origin && Before(g.id, f.id))
  }

  lemma NewerPrecedes(f: Fact, g: Fact)
    ensures Newer(f, g) <==> Precedes(g, f)
  {
    KeyFollowsClock(KeyOf(g), KeyOf(f));
    KeyFollowsClock(KeyOf(f), KeyOf(g));
    KeyTotal(KeyOf(f), KeyOf(g));
    Trichotomy(f.origin, g.origin);
    Trichotomy(f.id, g.id);
  }

  // Of two different facts one is the newer.
  lemma OneIsNewer(f: Fact, g: Fact)
    requires f.id != g.id
    ensures Newer(f, g) <==> !Newer(g, f)
  {
    Trichotomy(f.origin, g.origin);
    Trichotomy(f.id, g.id);
  }

  // A fact stamped past another is the newer, whatever the two are called.
  lemma StampedAfter(f: Fact, g: Fact)
    requires After(f.physical, f.logical, g.physical, g.logical)
    ensures Newer(f, g) && !Newer(g, f)
  {
  }

  lemma NewestIsLatest(f: Fact, s: set<Fact>)
    requires f in s && forall g :: g in s && g != f ==> Newer(f, g)
    ensures Latest(s) == Some(f)
  {
    forall g | g in s && g != f ensures Precedes(g, f) { NewerPrecedes(f, g); }
    assert IsLatest(f, s);
    LatestUnique(f, Latest(s).value, s);
  }

  // ---- results that count ----

  predicate IsResult(f: Fact, w: string) { f.payload.ResultRecorded? && f.payload.work == w }

  // An older result of the same work has consumed f's occurrence key.
  ghost predicate Inert(F: set<Fact>, f: Fact) {
    && f.payload.ResultRecorded? && f.payload.occurrenceKey.Some?
    && exists g :: (
         && g in F && IsResult(g, f.payload.work) && g.payload.occurrenceKey == f.payload.occurrenceKey && Newer(f, g))
  }

  ghost predicate Counts(F: set<Fact>, w: string, f: Fact) { f in F && IsResult(f, w) && !Inert(F, f) }

  ghost predicate NewestResult(F: set<Fact>, w: string, f: Fact) {
    Counts(F, w, f) && forall g :: Counts(F, w, g) && g != f ==> Newer(f, g)
  }

  lemma InertLoses(F: set<Fact>, f: Fact)
    ensures Inert(F, f) <==> Loses(F, f)
  {
    if Inert(F, f) {
      var g :| g in F && IsResult(g, f.payload.work) && g.payload.occurrenceKey == f.payload.occurrenceKey
               && Newer(f, g);
      NewerPrecedes(f, g);
      assert g in Consumers(F, f.payload.work, f.payload.occurrenceKey.value);
    }
    if Loses(F, f) {
      var g :| g in Consumers(F, f.payload.work, f.payload.occurrenceKey.value) && Precedes(g, f);
      NewerPrecedes(f, g);
    }
  }

  lemma CountsIsLive(F: set<Fact>, w: string, f: Fact)
    requires Keyed(F)
    ensures Counts(F, w, f) <==> f in Live(F, QuarantineOf(F), w)
  {
    InertLoses(F, f);
    if f in F && !Loses(F, f) { NotQuarantined(F, f); }
  }

  lemma NewestOutcome(F: set<Fact>, w: string, f: Fact)
    requires Keyed(F) && NewestResult(F, w, f)
    ensures LatestOutcome(F, QuarantineOf(F), w) == Some(f.payload.outcome)
  {
    var live := Live(F, QuarantineOf(F), w);
    CountsIsLive(F, w, f);
    forall g | g in live && g != f ensures Newer(f, g) { CountsIsLive(F, w, g); }
    NewestIsLatest(f, live);
  }

  // A work with results has a newest one that counts.
  lemma NewestExists(F: set<Fact>, w: string, f: Fact) returns (newest: Fact)
    requires Keyed(F) && f in F && IsResult(f, w)
    ensures NewestResult(F, w, newest)
  {
    var live := Live(F, QuarantineOf(F), w);
    LiveResult(F, w, f);
    KeyedSubset(F, live);
    ExtremesExist(live);
    newest := Latest(live).value;
    LatestIsNewest(F, w, newest);
  }

  lemma LatestIsNewest(F: set<Fact>, w: string, f: Fact)
    requires Keyed(F) && Latest(Live(F, QuarantineOf(F), w)) == Some(f)
    ensures NewestResult(F, w, f)
  {
    CountsIsLive(F, w, f);
    forall g | Counts(F, w, g) && g != f ensures Newer(f, g) {
      CountsIsLive(F, w, g);
      NewerPrecedes(f, g);
    }
  }

  lemma NoOutcome(F: set<Fact>, w: string)
    requires forall f :: f in F ==> !IsResult(f, w)
    ensures LatestOutcome(F, QuarantineOf(F), w) == None
  {
    assert Live(F, QuarantineOf(F), w) == {};
  }

  // ---- in every complete run ----

  // The tables a complete run ends in.
  ghost predicate EndsIn(cs: seq<Config>, steps: seq<Step>, t: Tables) {
    Behavior(cs, steps) && Complete(cs[|cs| - 1]) && t == cs[|cs| - 1].t
  }

  lemma EndFacts(cs: seq<Config>, steps: seq<Step>, t: Tables)
    requires EndsIn(cs, steps, t)
    ensures ClosedForm(t) && Keyed(t.facts)
  {
    EveryScheduleConverges(cs, steps);
    BehaviorInv(cs, steps, |cs| - 1);
  }

  // The oldest result keeps an occurrence key; exactly the others are quarantined.
  lemma OldestKeepsKey(cs: seq<Config>, steps: seq<Step>, t: Tables, f: Fact)
    requires EndsIn(cs, steps, t) && f in t.facts
    ensures f.id in t.quarantine <==> Inert(t.facts, f)
  {
    EndFacts(cs, steps, t);
    InertLoses(t.facts, f);
    if !Loses(t.facts, f) { NotQuarantined(t.facts, f); }
  }

  // ---- the row of a quarantined result names the one that kept the key ----

  predicate Keyholder(f: Fact, w: string, k: string) { IsResult(f, w) && f.payload.occurrenceKey == Some(k) }

  ghost predicate OldestHolder(F: set<Fact>, w: string, k: string, g: Fact) {
    g in F && Keyholder(g, w, k) && forall h :: h in F && Keyholder(h, w, k) && h != g ==> Newer(h, g)
  }

  // Once every result under a key has been reduced, its rows name the oldest of them.
  ghost predicate RowsName(F: set<Fact>, q: map<string, Quarantined>, done: set<Fact>) {
    forall f, w, k, g :: (
      f in F && Keyholder(f, w, k) && OldestHolder(F, w, k, g) && Consumers(F, w, k) <= done && f.id in q ==>
      q[f.id] == Quarantined(w, k, g.id))
  }

  lemma OldestIsEarliest(F: set<Fact>, w: string, k: string, g: Fact)
    requires OldestHolder(F, w, k, g)
    ensures Earliest(Consumers(F, w, k)) == Some(g)
  {
    var c := Consumers(F, w, k);
    forall h | h in c && h != g ensures Precedes(g, h) { NewerPrecedes(h, g); }
    assert g in c && IsEarliest(g, c);
    LatestUnique(g, Earliest(c).value, c);
  }

  lemma RowsNameReduced(F: set<Fact>, q: map<string, Quarantined>, done: set<Fact>, e: Fact)
    requires Keyed(F) && e in F && QuarantineInv(F, q, done) && RowsName(F, q, done)
    ensures RowsName(F, QuarantineAfter(F, q, e), done + {e})
  {
    var q' := QuarantineAfter(F, q, e);
    forall f, w, k, g | f in F && Keyholder(f, w, k) && OldestHolder(F, w, k, g)
                        && Consumers(F, w, k) <= done + {e} && f.id in q'
      ensures q'[f.id] == Quarantined(w, k, g.id)
    {
      if Keyholder(e, w, k) {
        OldestIsEarliest(F, w, k, g);
        RequarantinedRow(F, q, w, k, f, g);
      } else {
        OtherRowNamed(F, q, done, e, f, w, k, g);
      }
    }
  }

  lemma OtherRowNamed(F: set<Fact>, q: map<string, Quarantined>, done: set<Fact>, e: Fact, f: Fact, w: string,
                      k: string, g: Fact)
    requires Keyed(F) && e in F && RowsName(F, q, done) && f in F && Keyholder(f, w, k) && OldestHolder(F, w, k, g)
    requires !Keyholder(e, w, k) && Consumers(F, w, k) <= done + {e} && f.id in QuarantineAfter(F, q, e)
    ensures QuarantineAfter(F, q, e)[f.id] == Quarantined(w, k, g.id)
  {
    assert e !in Consumers(F, w, k);
    OtherRowKept(F, q, e, w, k, f);
  }

  lemma RequarantinedRow(F: set<Fact>, q: map<string, Quarantined>, w: string, k: string, f: Fact, g: Fact)
    requires Keyed(F) && f in F && Keyholder(f, w, k) && Earliest(Consumers(F, w, k)) == Some(g)
    requires forall id :: id in q ==> RowOwner(F, id, q[id])
    requires f.id in Requarantined(F, q, w, k)
    ensures Requarantined(F, q, w, k)[f.id] == Quarantined(w, k, g.id)
  {
    if f.id in q { OwnRow(F, q, w, k, f); }
  }

  lemma OwnRow(F: set<Fact>, q: map<string, Quarantined>, w: string, k: string, f: Fact)
    requires Keyed(F) && f in F && Keyholder(f, w, k) && f.id in q && RowOwner(F, f.id, q[f.id])
    ensures q[f.id].work == w && q[f.id].key == k
  {
    var x :| x in Consumers(F, q[f.id].work, q[f.id].key) && x.id == f.id;
    assert x == f;
  }

  lemma OtherRowKept(F: set<Fact>, q: map<string, Quarantined>, e: Fact, w: string, k: string, f: Fact)
    requires Keyed(F) && e in F && f in F && Keyholder(f, w, k) && !Keyholder(e, w, k)
    requires f.id in QuarantineAfter(F, q, e)
    ensures f.id in q && QuarantineAfter(F, q, e)[f.id] == q[f.id]
  {
    if e.payload.ResultRecorded? && e.payload.occurrenceKey.Some? {
      var c := Consumers(F, e.payload.work, e.payload.occurrenceKey.value);
      forall x | x in c ensures x.id != f.id { SameFact(F, x, f); }
    }
  }

  lemma SameFact(F: set<Fact>, x: Fact, f: Fact)
    requires Keyed(F) && x in F && f in F
    ensures x.id == f.id ==> x == f
  {
  }

  lemma RowsNameInserted(F: set<Fact>, q: map<string, Quarantined>, done: set<Fact>, e: Fact)
    requires RowsName(F, q, done) && done <= F && e !in F
    ensures RowsName(F + {e}, q, done)
  {
    var G := F + {e};
    forall f, w, k, g | f in G && Keyholder(f, w, k) && OldestHolder(G, w, k, g)
                        && Consumers(G, w, k) <= done && f.id in q
      ensures q[f.id] == Quarantined(w, k, g.id)
    {
      assert f in Consumers(G, w, k) && g in Consumers(G, w, k);
      assert Consumers(F, w, k) <= Consumers(G, w, k);
      assert OldestHolder(F, w, k, g);
    }
  }

  lemma RowsNameNext(c: Config, step: Step, c': Config)
    requires Inv(c) && Next(c, step, c') && RowsName(c.t.facts, c.t.quarantine, c.done)
    ensures RowsName(c'.t.facts, c'.t.quarantine, c'.done)
  {
    match step {
      case Insert(f) =>
        assert f in c.t.facts ==> f.id in Ids(c.t.facts);
        RowsNameInserted(c.t.facts, c.t.quarantine, c.done, f);
      case Reduce(f) => RowsNameReduced(c.t.facts, c.t.quarantine, c.done, f);
      case _ =>
    }
  }

  lemma {:induction false} RunNamesRows(cs: seq<Config>, steps: seq<Step>, i: nat)
    requires Behavior(cs, steps) && i < |cs|
    ensures RowsName(cs[i].t.facts, cs[i].t.quarantine, cs[i].done)
  {
    if i > 0 {
      RunNamesRows(cs, steps, i - 1);
      BehaviorInv(cs, steps, i - 1);
      RowsNameNext(cs[i - 1], steps[i - 1], cs[i]);
    }
  }

  // In a complete run the row of a quarantined result names its work, its key, and the result
  // that kept the key.
  lemma RowNamesOldest(cs: seq<Config>, steps: seq<Step>, t: Tables, f: Fact, w: string, k: string, g: Fact)
    requires EndsIn(cs, steps, t) && f in t.facts && Keyholder(f, w, k) && OldestHolder(t.facts, w, k, g)
    requires f.id in t.quarantine
    ensures t.quarantine[f.id] == Quarantined(w, k, g.id)
  {
    RunNamesRows(cs, steps, |cs| - 1);
  }

  predicate Retires(f: Fact, w: string) { f.payload.WorkRetired? && f.payload.work == w }

  predicate DerivesWork(f: Fact, w: string) { f.payload.WorkDerived? && f.payload.work == w }

  ghost predicate Retired(F: set<Fact>, w: string) { exists f :: f in F && Retires(f, w) }

  lemma RowHeld(t: Tables, w: string, d: Fact)
    requires ClosedForm(t) && Keyed(t.facts) && d in t.facts && DerivesWork(d, w)
    ensures w in t.works
  {
    assert d in Derives(t.facts, w);
    RowPresence(t, w);
  }

  // A retired work shows nothing but its retirement.
  lemma RetirementShows(cs: seq<Config>, steps: seq<Step>, t: Tables, w: string, d: Fact)
    requires EndsIn(cs, steps, t) && d in t.facts && DerivesWork(d, w) && Retired(t.facts, w)
    ensures w in t.works && t.works[w].execution == IsRetired
  {
    EndFacts(cs, steps, t);
    RowHeld(t, w, d);
    var p := ClosedRow(t, w);
    assert RetiredIn(t.facts, w);
  }

  // A derived, unretired work shows the outcome of its newest result that counts.
  lemma NewestResultShows(cs: seq<Config>, steps: seq<Step>, t: Tables, w: string, d: Fact, f: Fact)
    requires EndsIn(cs, steps, t) && d in t.facts && DerivesWork(d, w) && !Retired(t.facts, w)
    requires NewestResult(t.facts, w, f)
    ensures w in t.works
    ensures f.payload.outcome == Success <==> t.works[w].execution == Finished
    ensures f.payload.outcome == Failure <==> t.works[w].execution == Retryable
    ensures f.payload.outcome == Conflicted <==> t.works[w].execution == HasResult
    ensures f.payload.outcome == ExecutionUnknown <==> t.works[w].execution == Unknown
  {
    EndFacts(cs, steps, t);
    RowHeld(t, w, d);
    var p := ClosedRow(t, w);
    NewestOutcome(t.facts, w, f);
    SameRetirement(t.facts, w);
  }

  // A work has a row exactly when it has been derived, and the row repeats its newest
  // derivation.
  lemma NewestDerivationShows(cs: seq<Config>, steps: seq<Step>, t: Tables, w: string, d: Fact)
    requires EndsIn(cs, steps, t) && d in t.facts && DerivesWork(d, w)
    requires forall e :: e in t.facts && DerivesWork(e, w) && e != d ==> Newer(d, e)
    ensures w in t.works
    ensures var row := t.works[w];
      && row.plan == d.payload.plan && row.workKind == d.payload.workKind
      && row.subject == d.payload.subject && row.role == d.payload.role
  {
    EndFacts(cs, steps, t);
    RowHeld(t, w, d);
    var p := ClosedRow(t, w);
    NewestIsLatest(d, Derives(t.facts, w));
  }

  lemma UnderivedHasNoRow(cs: seq<Config>, steps: seq<Step>, t: Tables, w: string)
    requires EndsIn(cs, steps, t) && w in t.works
    ensures exists d :: d in t.facts && DerivesWork(d, w)
  {
    EndFacts(cs, steps, t);
    RowPresence(t, w);
    var d :| d in Derives(t.facts, w);
    assert DerivesWork(d, w);
  }

  // ---- plans ----

  predicate CreatesPlan(f: Fact, p: string) { f.payload.PlanCreated? && f.payload.plan == p }

  predicate MovesPlan(f: Fact, p: string) {
    (f.payload.PlanCreated? || f.payload.PlanLifecycleChanged?) && f.payload.plan == p
  }

  // A created plan shows its newest creation, and the lifecycle of the newest fact that
  // creates or moves it.
  lemma NewestPlanShows(cs: seq<Config>, steps: seq<Step>, t: Tables, p: string, c: Fact, l: Fact)
    requires EndsIn(cs, steps, t) && c in t.facts && CreatesPlan(c, p) && l in t.facts && MovesPlan(l, p)
    requires forall e :: e in t.facts && CreatesPlan(e, p) && e != c ==> Newer(c, e)
    requires forall e :: e in t.facts && MovesPlan(e, p) && e != l ==> Newer(l, e)
    ensures p in t.plans
    ensures var row := t.plans[p];
      && row.project == c.payload.project && row.objective == c.payload.objective
      && row.rationale == c.payload.rationale
      && row.lifecycle == l.payload.lifecycle
      && row.endReason == match l.payload case PlanLifecycleChanged(_, _, reason) => reason case _ => None
  {
    EndFacts(cs, steps, t);
    NewestIsLatest(c, Creations(t.facts, p));
    NewestIsLatest(l, Lifecycles(t.facts, p));
    assert PlanOf(t.facts, p).Some?;
  }

  lemma UncreatedHasNoPlan(cs: seq<Config>, steps: seq<Step>, t: Tables, p: string)
    requires EndsIn(cs, steps, t) && p in t.plans
    ensures exists c :: c in t.facts && CreatesPlan(c, p)
  {
    EndFacts(cs, steps, t);
    assert PlanOf(t.facts, p).Some?;
    var c := Latest(Creations(t.facts, p)).value;
    assert CreatesPlan(c, p);
  }

  // ---- dependency edges and readiness ----

  predicate Declares(f: Fact, w: string, d: string) {
    f.payload.WorkDependencyDeclared? && f.payload.work == w && f.payload.dependency == d
  }

  lemma EdgeHeld(t: Tables, w: string, d: string, e: Fact)
    requires ClosedForm(t) && e in t.facts && Declares(e, w, d)
    ensures Dep(w, d) in t.deps
  {
    assert Dep(e.payload.work, e.payload.dependency) in DeclaredDeps(t.facts);
  }

  // A declared edge shows the retirement of what it depends on, or else the outcome of its
  // newest result that counts, or that there is none.
  lemma NewestResultOnEdge(cs: seq<Config>, steps: seq<Step>, t: Tables, w: string, d: string, e: Fact, f: Fact)
    requires EndsIn(cs, steps, t) && e in t.facts && Declares(e, w, d) && NewestResult(t.facts, d, f)
    ensures Dep(w, d) in t.deps
    ensures var state := t.deps[Dep(w, d)].state;
      if Retired(t.facts, d) then state == RetiredDep
      else
        && (f.payload.outcome == Success <==> state == Satisfied)
        && (f.payload.outcome == Failure <==> state == FailedDep)
        && (f.payload.outcome == Conflicted <==> state == ConflictedDep)
        && (f.payload.outcome == ExecutionUnknown <==> state == Pending)
  {
    EndFacts(cs, steps, t);
    EdgeHeld(t, w, d, e);
    NewestOutcome(t.facts, d, f);
    SameRetirement(t.facts, d);
  }

  lemma SameRetirement(F: set<Fact>, w: string)
    ensures Retired(F, w) <==> RetiredIn(F, w)
  {
    if RetiredIn(F, w) {
      var g :| g in F && g.payload.WorkRetired? && g.payload.work == w;
      assert Retires(g, w);
    }
  }

  lemma UnresolvedEdge(cs: seq<Config>, steps: seq<Step>, t: Tables, w: string, d: string, e: Fact)
    requires EndsIn(cs, steps, t) && e in t.facts && Declares(e, w, d) && forall f :: f in t.facts ==> !IsResult(f, d)
    ensures Dep(w, d) in t.deps
    ensures t.deps[Dep(w, d)].state == if Retired(t.facts, d) then RetiredDep else Pending
  {
    EndFacts(cs, steps, t);
    EdgeHeld(t, w, d, e);
    NoOutcome(t.facts, d);
    SameRetirement(t.facts, d);
  }

  // d has come out well or in conflict, and has not been retired.
  ghost predicate CameOut(F: set<Fact>, d: string) {
    && !Retired(F, d)
    && exists f :: NewestResult(F, d, f) && (f.payload.outcome == Success || f.payload.outcome == Conflicted)
  }

  lemma CameOutResolves(F: set<Fact>, d: string)
    requires Keyed(F)
    ensures CameOut(F, d) <==> ResolvesIn(F, d)
  {
    SameRetirement(F, d);
    if CameOut(F, d) {
      var f :| NewestResult(F, d, f) && (f.payload.outcome == Success || f.payload.outcome == Conflicted);
      NewestOutcome(F, d, f);
    }
    if ResolvesIn(F, d) {
      var live := Live(F, QuarantineOf(F), d);
      LatestIsNewest(F, d, Latest(live).value);
    }
  }

  // A derived, unretired work without results whose declarations all carry one policy is
  // ready or blocked, and ready exactly when every dependency came out (ALL), or when one
  // did or there is none (ANY).
  lemma ReadinessShows(cs: seq<Config>, steps: seq<Step>, t: Tables, w: string, e: Fact, policy: Policy)
    requires EndsIn(cs, steps, t) && e in t.facts && DerivesWork(e, w) && !Retired(t.facts, w)
    requires forall f :: f in t.facts ==> !IsResult(f, w)
    requires forall f, d :: f in t.facts && Declares(f, w, d) ==> f.payload.policy == policy
    ensures w in t.works && (t.works[w].execution == IsReady || t.works[w].execution == IsBlocked)
    ensures policy == ALL ==>
      (t.works[w].execution == IsReady <==> forall d :: Dep(w, d) in t.deps ==> CameOut(t.facts, d))
    ensures policy == ANY ==>
      (t.works[w].execution == IsReady <==>
       (forall d :: Dep(w, d) !in t.deps) || exists d :: Dep(w, d) in t.deps && CameOut(t.facts, d))
  {
    EndFacts(cs, steps, t);
    RowHeld(t, w, e);
    var p := ClosedRow(t, w);
    NoOutcome(t.facts, w);
    SameRetirement(t.facts, w);
    EdgesCameOut(t, w);
    if EdgesOf(t.deps, w) != map[] { PolicyShared(t, w, p, policy); }
    ReadyByDeps(t, w, p);
    assert t.works[w].execution == Readiness(EdgesOf(t.deps, w), p);
  }

  lemma EdgesCameOut(t: Tables, w: string)
    requires ClosedForm(t) && Keyed(t.facts)
    ensures forall d :: d in EdgesOf(t.deps, w) <==> Dep(w, d) in t.deps
    ensures forall d :: d in EdgesOf(t.deps, w) ==> (Resolving(EdgesOf(t.deps, w)[d]) <==> CameOut(t.facts, d))
  {
    var edges := EdgesOf(t.deps, w);
    ClosedEdges(t, w);
    forall d ensures d in edges <==> Dep(w, d) in t.deps
      ensures d in edges ==> (Resolving(edges[d]) <==> CameOut(t.facts, d))
    {
      CameOutResolves(t.facts, d);
    }
  }

  lemma ReadyByDeps(t: Tables, w: string, p: Policy)
    requires forall d :: d in EdgesOf(t.deps, w) <==> Dep(w, d) in t.deps
    requires forall d :: d in EdgesOf(t.deps, w) ==> (Resolving(EdgesOf(t.deps, w)[d]) <==> CameOut(t.facts, d))
    ensures Readiness(EdgesOf(t.deps, w), p) == IsReady || Readiness(EdgesOf(t.deps, w), p) == IsBlocked
    ensures EdgesOf(t.deps, w) == map[] ==> Readiness(EdgesOf(t.deps, w), p) == IsReady
    ensures p == ALL ==> (Readiness(EdgesOf(t.deps, w), p) == IsReady <==>
                          forall d :: Dep(w, d) in t.deps ==> CameOut(t.facts, d))
    ensures p == ANY ==> (Readiness(EdgesOf(t.deps, w), p) == IsReady <==>
                          (forall d :: Dep(w, d) !in t.deps) || exists d :: Dep(w, d) in t.deps && CameOut(t.facts, d))
  {
    ReadinessMeans(EdgesOf(t.deps, w), p);
  }

  lemma PolicyShared(t: Tables, w: string, p: Policy, policy: Policy)
    requires ClosedForm(t) && RowUnder(t, w, p) && EdgesOf(t.deps, w) != map[]
    requires forall f, d :: f in t.facts && Declares(f, w, d) ==> f.payload.policy == policy
    ensures p == policy
  {
    var edges := EdgesOf(t.deps, w);
    var d :| d in edges && edges[d].policy == p;
    assert Dep(w, d) in t.deps && t.deps[Dep(w, d)] == edges[d];
    var f :| f in t.facts && f.payload == WorkDependencyDeclared(w, d, p);
    assert Declares(f, w, d);
  }

  lemma ReadinessMeans(edges: map<string, Edge>, p: Policy)
    ensures Readiness(edges, p) == IsReady || Readiness(edges, p) == IsBlocked
    ensures p == ALL ==> (Readiness(edges, p) == IsReady <==> forall d :: d in edges ==> Resolving(edges[d]))
    ensures p == ANY ==> (Readiness(edges, p) == IsReady <==>
                          (forall d :: d !in edges) || exists d :: d in edges && Resolving(edges[d]))
  {
    if edges != map[] { assert exists d :: d in edges; }
  }
}
