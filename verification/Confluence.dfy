// Every interleaving of arrivals, reductions and rebuilds ends in the closed form. The
// state machine separates inserting a fact from reducing it, so incremental application
// (insert then reduce, one at a time) and rebuild (truncate, then replay over full fact
// tables) are two schedules of the same machine.

module Confluence {
  import opened Vocabulary
  import opened Hlc
  import opened Support
  import opened Fold

  datatype Step = HoldStub(id: string) | Insert(f: Fact) | Reduce(f: Fact) | Truncate

  // `done`: the facts reduced since the projections were last empty.
  datatype Config = Config(t: Tables, done: set<Fact>)

  function Emptied(t: Tables): Tables {
    t.(plans := map[], works := map[], deps := map[], quarantine := map[], links := map[], standings := map[])
  }

  ghost predicate Init(c: Config) {
    c.done == {} && c.t == Tables({}, {}, map[], map[], map[], map[], map[], map[])
  }

  ghost predicate Next(c: Config, step: Step, c': Config) {
    match step
    case HoldStub(id) => c' == c.(t := c.t.(held := c.t.held + {id}))
    case Insert(f) =>
      && f.id !in Ids(c.t.facts)
      && c' == c.(t := c.t.(held := c.t.held + {f.id}, facts := c.t.facts + {f}))
    case Reduce(f) => f in c.t.facts && Reduced(c.t, f, c'.t) && c'.done == c.done + {f}
    case Truncate => c' == Config(Emptied(c.t), {})
  }

  ghost predicate Behavior(cs: seq<Config>, steps: seq<Step>) {
    && |cs| == |steps| + 1 && Init(cs[0])
    && forall i :: 0 <= i < |steps| ==> Next(cs[i], steps[i], cs[i + 1])
  }

  ghost predicate Complete(c: Config) { c.done == c.t.facts }

  // ---- the invariant, one table at a time; a fact inserted but not yet reduced is pending ----

  ghost predicate OutcomesDone(F: set<Fact>, done: set<Fact>, w: string) {
    forall f :: f in F && (f.payload.ResultRecorded? || f.payload.WorkRetired?) && f.payload.work == w ==> f in done
  }

  ghost predicate WorkDone(F: set<Fact>, done: set<Fact>, w: string) {
    forall f :: f in F && AboutWork(f, w) ==> f in done
  }

  ghost predicate PlanDone(F: set<Fact>, done: set<Fact>, p: string) {
    forall f :: f in F && AboutPlan(f, p) ==> f in done
  }

  ghost predicate EvidenceDone(F: set<Fact>, done: set<Fact>) {
    forall f :: f in F && (f.payload.ClaimRecorded? || f.payload.ObservationRecorded?) ==> f in done
  }

  ghost predicate RowOwner(F: set<Fact>, id: string, row: Quarantined) {
    exists f :: f in Consumers(F, row.work, row.key) && f.id == id
  }

  ghost predicate QuarantineInv(F: set<Fact>, q: map<string, Quarantined>, done: set<Fact>) {
    && (forall id :: id in q ==> RowOwner(F, id, q[id]))
    && (forall f :: f in F && f.payload.ResultRecorded? && f.payload.occurrenceKey.Some?
          && Consumers(F, f.payload.work, f.payload.occurrenceKey.value) <= done
          ==> (f.id in q <==> Loses(F, f)))
    && (forall f :: f in F && f.payload.ResultRecorded? ==> Live(F, q.Keys, f.payload.work) != {})
  }

  ghost predicate DepsInv(F: set<Fact>, Q: set<string>, deps: map<Dep, Edge>, done: set<Fact>) {
    && deps.Keys == DeclaredDeps(done)
    && (forall k :: k in deps ==> DeclaredPolicy(done, k.work, k.dependency, deps[k].policy))
    && (forall k :: k in deps && OutcomesDone(F, done, k.dependency) ==> deps[k].state == EdgeState(F, Q, k.dependency))
    && (forall k :: k in deps && deps[k].state == RetiredDep ==> RetiredIn(F, k.dependency))
  }

  ghost predicate WorksInv(F: set<Fact>, Q: set<string>, deps: map<Dep, Edge>, works: map<string, WorkRow>,
                           done: set<Fact>) {
    && (forall w :: w in works ==> Derives(F, w) != {})
    && (forall w :: WorkDone(F, done, w) ==> RowCurrent(F, Q, deps, works, w))
  }

  ghost predicate PlansInv(F: set<Fact>, plans: map<string, PlanRow>, done: set<Fact>) {
    && (forall p :: p in plans ==> Creations(F, p) != {})
    && (forall p :: PlanDone(F, done, p) ==>
          if PlanOf(F, p).Some? then p in plans && plans[p] == PlanOf(F, p).value else p !in plans)
  }

  ghost predicate LinksInv(held: set<string>, links: map<Link, LinkRow>, done: set<Fact>) {
    && links.Keys == AssertedLinks(done)
    && (forall l :: l in links && l.target in Ids(done) ==> links[l].resolved)
    && (forall l :: l in links && links[l].resolved ==> l.target in held)
    && SourcesInv(held, links, done)
  }

  ghost predicate SourcesInv(held: set<string>, links: map<Link, LinkRow>, done: set<Fact>) {
    && (forall l :: l in links && l.source in Ids(done) ==> links[l].sourceKnown)
    && (forall l :: l in links && links[l].sourceKnown ==> l.source in held)
  }

  ghost predicate StandingsInv(F: set<Fact>, links: map<Link, LinkRow>, standings: map<string, Standing>,
                               done: set<Fact>) {
    && standings.Keys <= Claims(F)
    && (EvidenceDone(F, done) ==> standings == StandingTable(Claims(F), Observations(F), ResolvedLinks(links)))
  }

  ghost predicate Inv(c: Config) {
    var t := c.t;
    && Keyed(t.facts) && c.done <= t.facts && Ids(t.facts) <= t.held
    && QuarantineInv(t.facts, t.quarantine, c.done)
    && DepsInv(t.facts, t.quarantine.Keys, t.deps, c.done)
    && WorksInv(t.facts, t.quarantine.Keys, t.deps, t.works, c.done)
    && PlansInv(t.facts, t.plans, c.done)
    && LinksInv(t.held, t.links, c.done)
    && StandingsInv(t.facts, t.links, t.standings, c.done)
  }

  // ---- quarantine ----

  lemma KeyedSubset(F: set<Fact>, s: set<Fact>)
    requires Keyed(F) && s <= F
    ensures Keyed(s)
  {
  }

  lemma WinnerLoses(F: set<Fact>, w: string, k: string)
    requires Keyed(F) && Consumers(F, w, k) != {}
    ensures Earliest(Consumers(F, w, k)).Some?
    ensures var win := Earliest(Consumers(F, w, k)).value;
      forall f :: f in Consumers(F, w, k) ==> (Loses(F, f) <==> f != win)
  {
    var c := Consumers(F, w, k);
    KeyedSubset(F, c);
    ExtremesExist(c);
    var win := Earliest(c).value;
    forall f | f in c ensures Loses(F, f) <==> f != win {
      if f != win {
        assert Precedes(win, f);
      }
      forall g | g in c ensures !Precedes(g, win) { KeyTotal(KeyOf(g), KeyOf(win)); }
    }
  }

  lemma RequarantineMember(F: set<Fact>, q: map<string, Quarantined>, e: Fact, f: Fact)
    requires Keyed(F) && e in F && f in F && f.payload.ResultRecorded?
    requires e.payload.ResultRecorded? && e.payload.occurrenceKey.Some?
    requires forall id :: id in q ==> RowOwner(F, id, q[id])
    ensures var q' := QuarantineAfter(F, q, e);
      f.id in q' <==> if f in Consumers(F, e.payload.work, e.payload.occurrenceKey.value) then Loses(F, f)
        else f.id in q
  {
    var w, k := e.payload.work, e.payload.occurrenceKey.value;
    var c := Consumers(F, w, k);
    assert e in c;
    WinnerLoses(F, w, k);
    var win := Earliest(c).value;
    assert f.id in Ids(c - {win}) <==> f in c && f != win;
    if f.id in q {
      var g :| g in Consumers(F, q[f.id].work, q[f.id].key) && g.id == f.id;
      assert g == f;
    }
  }

  // After a keyed result is reduced, membership is settled for its key and unmoved elsewhere.
  ghost predicate Requarantine(F: set<Fact>, q: map<string, Quarantined>, q': map<string, Quarantined>, w: string,
                               k: string) {
    forall f :: f in F && f.payload.ResultRecorded? ==>
      (f.id in q' <==> if f in Consumers(F, w, k) then Loses(F, f) else f.id in q)
  }

  lemma RequarantineOwners(F: set<Fact>, q: map<string, Quarantined>, e: Fact)
    requires Keyed(F) && e in F && e.payload.ResultRecorded? && e.payload.occurrenceKey.Some?
    requires forall id :: id in q ==> RowOwner(F, id, q[id])
    ensures forall id :: id in QuarantineAfter(F, q, e) ==> RowOwner(F, id, QuarantineAfter(F, q, e)[id])
  {
    var q', w, k := QuarantineAfter(F, q, e), e.payload.work, e.payload.occurrenceKey.value;
    var c := Consumers(F, w, k);
    assert e in c;
    WinnerLoses(F, w, k);
    var win := Earliest(c).value;
    forall id | id in q' ensures RowOwner(F, id, q'[id]) {
      if id !in q || q'[id] != q[id] {
        var f :| f in c - {win} && f.id == id;
        assert q'[id] == Quarantined(w, k, win.id);
        assert f in Consumers(F, q'[id].work, q'[id].key);
      }
    }
  }

  lemma RequarantineLive(F: set<Fact>, q: map<string, Quarantined>, q': map<string, Quarantined>, w: string, k: string,
                         f: Fact)
    requires Keyed(F) && Requarantine(F, q, q', w, k) && Consumers(F, w, k) != {}
    requires f in F && f.payload.ResultRecorded? && Live(F, q.Keys, f.payload.work) != {}
    ensures Live(F, q'.Keys, f.payload.work) != {}
  {
    WinnerLoses(F, w, k);
    var win := Earliest(Consumers(F, w, k)).value;
    if f.payload.work == w {
      assert win in Live(F, q'.Keys, w);
    } else {
      var g :| g in Live(F, q.Keys, f.payload.work);
      assert g in Live(F, q'.Keys, f.payload.work);
    }
  }

  lemma QuarantineReduceKeyed(F: set<Fact>, q: map<string, Quarantined>, q': map<string, Quarantined>, done: set<Fact>,
                              e: Fact)
    requires Keyed(F) && e in F && QuarantineInv(F, q, done)
    requires e.payload.ResultRecorded? && e.payload.occurrenceKey.Some?
    requires Requarantine(F, q, q', e.payload.work, e.payload.occurrenceKey.value)
    requires forall id :: id in q' ==> RowOwner(F, id, q'[id])
    ensures QuarantineInv(F, q', done + {e})
  {
    var w, k := e.payload.work, e.payload.occurrenceKey.value;
    assert e in Consumers(F, w, k);
    forall f | f in F && f.payload.ResultRecorded? ensures Live(F, q'.Keys, f.payload.work) != {} {
      RequarantineLive(F, q, q', w, k, f);
    }
    forall f | f in F && f.payload.ResultRecorded? && f.payload.occurrenceKey.Some?
        && Consumers(F, f.payload.work, f.payload.occurrenceKey.value) <= done + {e}
      ensures f.id in q' <==> Loses(F, f)
    {
      if f !in Consumers(F, w, k) {
        assert e !in Consumers(F, f.payload.work, f.payload.occurrenceKey.value);
      }
    }
  }

  lemma RequarantineHolds(F: set<Fact>, q: map<string, Quarantined>, e: Fact)
    requires Keyed(F) && e in F && e.payload.ResultRecorded? && e.payload.occurrenceKey.Some?
    requires forall id :: id in q ==> RowOwner(F, id, q[id])
    ensures Requarantine(F, q, QuarantineAfter(F, q, e), e.payload.work, e.payload.occurrenceKey.value)
  {
    forall f | f in F && f.payload.ResultRecorded?
      ensures f.id in QuarantineAfter(F, q, e)
              <==> if f in Consumers(F, e.payload.work, e.payload.occurrenceKey.value) then Loses(F, f) else f.id in q
    {
      RequarantineMember(F, q, e, f);
    }
  }

  lemma QuarantineReduce(F: set<Fact>, q: map<string, Quarantined>, done: set<Fact>, e: Fact)
    requires Keyed(F) && e in F && QuarantineInv(F, q, done)
    ensures QuarantineInv(F, QuarantineAfter(F, q, e), done + {e})
    ensures forall f ::
              f in F && f.payload.ResultRecorded? && !(e.payload.ResultRecorded? && f.payload.work == e.payload.work)
              ==> (f.id in QuarantineAfter(F, q, e) <==> f.id in q)
  {
    if e.payload.ResultRecorded? && e.payload.occurrenceKey.Some? {
      RequarantineHolds(F, q, e);
      RequarantineOwners(F, q, e);
      QuarantineReduceKeyed(F, q, QuarantineAfter(F, q, e), done, e);
    } else {
      forall f | f in F && f.payload.ResultRecorded? && f.payload.occurrenceKey.Some?
          && Consumers(F, f.payload.work, f.payload.occurrenceKey.value) <= done + {e}
        ensures f.id in q <==> Loses(F, f)
      {
        assert e !in Consumers(F, f.payload.work, f.payload.occurrenceKey.value);
      }
    }
  }

  lemma QuarantineInsert(F: set<Fact>, q: map<string, Quarantined>, done: set<Fact>, e: Fact)
    requires QuarantineInv(F, q, done) && done <= F && e !in F && e.id !in Ids(F)
    ensures QuarantineInv(F + {e}, q, done)
  {
    var G := F + {e};
    forall id | id in q ensures RowOwner(G, id, q[id]) {
      var f :| f in Consumers(F, q[id].work, q[id].key) && f.id == id;
      assert f in Consumers(G, q[id].work, q[id].key);
    }
    forall f | f in G && f.payload.ResultRecorded? ensures Live(G, q.Keys, f.payload.work) != {} {
      if f == e {
        assert e.id in q ==> RowOwner(F, e.id, q[e.id]);
        assert e in Live(G, q.Keys, f.payload.work);
      } else {
        var g :| g in Live(F, q.Keys, f.payload.work);
        assert g in Live(G, q.Keys, f.payload.work);
      }
    }
    forall f | f in G && f.payload.ResultRecorded? && f.payload.occurrenceKey.Some?
        && Consumers(G, f.payload.work, f.payload.occurrenceKey.value) <= done
      ensures f.id in q <==> Loses(G, f)
    {
      var c := Consumers(G, f.payload.work, f.payload.occurrenceKey.value);
      assert f in c;
      assert c == Consumers(F, f.payload.work, f.payload.occurrenceKey.value);
    }
  }

  // ---- dependency edges ----

  // What quarantine membership can influence downstream: the live results of a work.
  ghost predicate SameLive(F: set<Fact>, Q: set<string>, R: set<string>, w: string) { Live(F, Q, w) == Live(F, R, w) }

  // All that the other tables see of a quarantine update: only the live results of the
  // reduced event's own work can move, and only when it is a result.
  ghost predicate QuarantineStep(F: set<Fact>, q: map<string, Quarantined>, q': map<string, Quarantined>, e: Fact) {
    && (!e.payload.ResultRecorded? ==> q' == q)
    && forall w :: !(e.payload.ResultRecorded? && e.payload.work == w) ==> SameLive(F, q.Keys, q'.Keys, w)
  }

  lemma QuarantineSteps(F: set<Fact>, q: map<string, Quarantined>, done: set<Fact>, e: Fact)
    requires Keyed(F) && e in F && QuarantineInv(F, q, done)
    ensures QuarantineStep(F, q, QuarantineAfter(F, q, e), e)
  {
    QuarantineReduce(F, q, done, e);
  }

  lemma SomeLatest(F: set<Fact>, q: map<string, Quarantined>, done: set<Fact>, w: string)
    requires Keyed(F) && QuarantineInv(F, q, done)
    ensures LatestOutcome(F, q.Keys, w).None? <==> Results(F, w) == {}
  {
    var live := Live(F, q.Keys, w);
    if f :| f in Results(F, w) {
      assert Live(F, q.Keys, f.payload.work) != {};
      KeyedSubset(F, live);
      ExtremesExist(live);
    }
  }

  // Resolving an edge whose dependency has settled outcomes lands on the closed form.
  lemma ResolvedIsClosed(F: set<Fact>, q: map<string, Quarantined>, done: set<Fact>, edge: Edge, d: string)
    requires Keyed(F) && QuarantineInv(F, q, done)
    requires edge.state == RetiredDep ==> RetiredIn(F, d)
    requires Results(F, d) == {} && !RetiredIn(F, d) ==> edge.state == EdgeState(F, q.Keys, d)
    ensures Resolved(F, q.Keys, edge, d).state == EdgeState(F, q.Keys, d)
    ensures Resolved(F, q.Keys, edge, d).policy == edge.policy
  {
    SomeLatest(F, q, done, d);
  }

  lemma EdgeStateFrame(F: set<Fact>, Q: set<string>, R: set<string>, d: string)
    requires SameLive(F, Q, R, d)
    ensures EdgeState(F, Q, d) == EdgeState(F, R, d)
  {
  }

  predicate ResolvesEdge(e: Fact, k: Dep) {
    match e.payload
    case WorkDependencyDeclared(w, d, _) => k == Dep(w, d)
    case ResultRecorded(w, _, _, _) => k.dependency == w
    case WorkRetired(w, _) => k.dependency == w
    case _ => false
  }

  function EdgeBefore(deps: map<Dep, Edge>, e: Fact, k: Dep): Edge
    requires k in deps || e.payload.WorkDependencyDeclared?
  {
    if k in deps then deps[k] else Edge(e.payload.policy, Pending)
  }

  lemma DepsAfterAt(F: set<Fact>, Q: set<string>, deps: map<Dep, Edge>, e: Fact, k: Dep)
    requires k in DepsAfter(F, Q, deps, e)
    ensures k in deps || (e.payload.WorkDependencyDeclared? && ResolvesEdge(e, k))
    ensures DepsAfter(F, Q, deps, e)[k] ==
            if ResolvesEdge(e, k) then Resolved(F, Q, EdgeBefore(deps, e, k), k.dependency) else deps[k]
  {
  }

  lemma EdgeResolvedNow(F: set<Fact>, q': map<string, Quarantined>, edge: Edge, done: set<Fact>, e: Fact, k: Dep,
                        Q: set<string>)
    requires Keyed(F) && e in F && QuarantineInv(F, q', done + {e}) && ResolvesEdge(e, k)
    requires edge.state == RetiredDep ==> RetiredIn(F, k.dependency)
    requires e.payload.WorkDependencyDeclared? ==> Q == q'.Keys
    requires OutcomesDone(F, done, k.dependency) ==>
             edge.state == EdgeState(F, Q, k.dependency) || (edge.state == Pending && e.payload.WorkDependencyDeclared?)
    ensures Resolved(F, q'.Keys, edge, k.dependency) == Edge(edge.policy, EdgeState(F, q'.Keys, k.dependency))
    ensures Resolved(F, q'.Keys, edge, k.dependency).state == RetiredDep ==> RetiredIn(F, k.dependency)
  {
    var d := k.dependency;
    if e.payload.ResultRecorded? {
      assert e in Results(F, d);
    }
    if Results(F, d) == {} && !RetiredIn(F, d) {
      assert forall f :: f in F && f.payload.ResultRecorded? && f.payload.work == d ==> f in Results(F, d);
      assert OutcomesDone(F, done, d);
      SomeLatest(F, q', done + {e}, d);
    }
    ResolvedIsClosed(F, q', done + {e}, edge, d);
  }

  lemma EdgeLeftAlone(F: set<Fact>, Q: set<string>, R: set<string>, edge: Edge, done: set<Fact>, e: Fact, k: Dep)
    requires SameLive(F, Q, R, k.dependency) && !ResolvesEdge(e, k)
    requires OutcomesDone(F, done, k.dependency) ==> edge.state == EdgeState(F, Q, k.dependency)
    ensures OutcomesDone(F, done + {e}, k.dependency) ==> edge.state == EdgeState(F, R, k.dependency)
  {
    EdgeStateFrame(F, Q, R, k.dependency);
    if OutcomesDone(F, done + {e}, k.dependency) {
      assert OutcomesDone(F, done, k.dependency);
    }
  }

  lemma EdgeReduce(F: set<Fact>, q: map<string, Quarantined>, q': map<string, Quarantined>, deps: map<Dep, Edge>,
                   done: set<Fact>, e: Fact, k: Dep, now: Edge)
    requires Keyed(F) && e in F
    requires QuarantineStep(F, q, q', e) && QuarantineInv(F, q', done + {e})
    requires k in deps ==> (OutcomesDone(F, done, k.dependency) ==> deps[k].state == EdgeState(F, q.Keys, k.dependency))
    requires k in deps ==> (deps[k].state == RetiredDep ==> RetiredIn(F, k.dependency))
    requires k in deps || (e.payload.WorkDependencyDeclared? && ResolvesEdge(e, k))
    requires now == if ResolvesEdge(e, k) then Resolved(F, q'.Keys, EdgeBefore(deps, e, k), k.dependency) else deps[k]
    ensures OutcomesDone(F, done + {e}, k.dependency) ==> now.state == EdgeState(F, q'.Keys, k.dependency)
    ensures now.state == RetiredDep ==> RetiredIn(F, k.dependency)
    ensures now.policy == EdgeBefore(deps, e, k).policy
  {
    if ResolvesEdge(e, k) {
      EdgeResolvedNow(F, q', EdgeBefore(deps, e, k), done, e, k, q.Keys);
    } else {
      EdgeLeftAlone(F, q.Keys, q'.Keys, deps[k], done, e, k);
    }
  }

  lemma DeclaredGrows(done: set<Fact>, e: Fact)
    ensures DeclaredDeps(done + {e}) ==
            if e.payload.WorkDependencyDeclared? then DeclaredDeps(done) + {Dep(e.payload.work, e.payload.dependency)}
            else DeclaredDeps(done)
  {
    var l := DeclaredDeps(done + {e});
    var r := if e.payload.WorkDependencyDeclared?
             then DeclaredDeps(done) + {Dep(e.payload.work, e.payload.dependency)}
             else DeclaredDeps(done);
    forall k | k in r ensures k in l {
      if k in DeclaredDeps(done) {
        var f :| f in done && f.payload.WorkDependencyDeclared? && k == Dep(f.payload.work, f.payload.dependency);
        assert f in done + {e};
      } else {
        assert e in done + {e};
      }
    }
  }

  lemma DepsReduce(F: set<Fact>, q: map<string, Quarantined>, q': map<string, Quarantined>, deps: map<Dep, Edge>,
                   done: set<Fact>, e: Fact)
    requires Keyed(F) && e in F && done <= F
    requires QuarantineStep(F, q, q', e) && QuarantineInv(F, q', done + {e})
    requires DepsInv(F, q.Keys, deps, done)
    ensures DepsInv(F, q'.Keys, DepsAfter(F, q'.Keys, deps, e), done + {e})
  {
    var deps' := DepsAfter(F, q'.Keys, deps, e);
    DeclaredGrows(done, e);
    assert deps'.Keys == DeclaredDeps(done + {e});
    forall k | k in deps'
      ensures DeclaredPolicy(done + {e}, k.work, k.dependency, deps'[k].policy)
      ensures OutcomesDone(F, done + {e}, k.dependency) ==> deps'[k].state == EdgeState(F, q'.Keys, k.dependency)
      ensures deps'[k].state == RetiredDep ==> RetiredIn(F, k.dependency)
    {
      DepsAfterAt(F, q'.Keys, deps, e, k);
      EdgeReduce(F, q, q', deps, done, e, k, deps'[k]);
      if k in deps {
        var f :| f in done && f.payload == WorkDependencyDeclared(k.work, k.dependency, deps[k].policy);
        assert f in done + {e};
      } else {
        assert e in done + {e} && e.payload == WorkDependencyDeclared(k.work, k.dependency, deps'[k].policy);
      }
    }
  }

  lemma DepsInsert(F: set<Fact>, Q: set<string>, deps: map<Dep, Edge>, done: set<Fact>, e: Fact)
    requires DepsInv(F, Q, deps, done) && done <= F && e !in F
    ensures DepsInv(F + {e}, Q, deps, done)
  {
    var G := F + {e};
    forall k | k in deps && deps[k].state == RetiredDep ensures RetiredIn(G, k.dependency) {
      var f :| f in F && f.payload.WorkRetired? && f.payload.work == k.dependency;
      assert f in G;
    }
    forall k | k in deps && OutcomesDone(G, done, k.dependency)
      ensures deps[k].state == EdgeState(G, Q, k.dependency)
    {
      var d := k.dependency;
      assert OutcomesDone(F, done, d);
      assert RetiredIn(G, d) ==> RetiredIn(F, d);
      if RetiredIn(F, d) {
        var f :| f in F && f.payload.WorkRetired? && f.payload.work == d;
        assert f in G;
      }
      assert Live(G, Q, d) == Live(F, Q, d);
    }
  }

  // ---- work rows ----

  lemma SomeDerive(F: set<Fact>, w: string)
    requires Keyed(F)
    ensures Latest(Derives(F, w)).None? <==> Derives(F, w) == {}
  {
    if Derives(F, w) != {} {
      KeyedSubset(F, Derives(F, w));
      ExtremesExist(Derives(F, w));
    }
  }

  lemma RowFrame(F: set<Fact>, Q: set<string>, R: set<string>, deps: map<Dep, Edge>, deps': map<Dep, Edge>,
                 works: map<string, WorkRow>, works': map<string, WorkRow>, w: string)
    requires RowCurrent(F, Q, deps, works, w)
    requires SameLive(F, Q, R, w) && EdgesOf(deps, w) == EdgesOf(deps', w)
    requires (w in works' <==> w in works) && (w in works ==> works'[w] == works[w])
    ensures RowCurrent(F, R, deps', works', w)
  {
  }

  // An edge the reduction moved belongs to a work whose row it recomputes.
  lemma EdgesElsewhere(F: set<Fact>, Q: set<string>, deps: map<Dep, Edge>, e: Fact, w: string)
    requires w !in Touched(DepsAfter(F, Q, deps, e), e)
    ensures EdgesOf(DepsAfter(F, Q, deps, e), w) == EdgesOf(deps, w)
  {
    var deps' := DepsAfter(F, Q, deps, e);
    forall k | k in deps' && k.work == w ensures k in deps && deps'[k] == deps[k] {
      DepsAfterAt(F, Q, deps, e, k);
    }
    forall k | k in deps && k.work == w ensures k in deps' {
    }
    forall d ensures d in EdgesOf(deps', w) <==> d in EdgesOf(deps, w) {
      assert d in EdgesOf(deps', w) <==> Dep(w, d) in deps';
      assert d in EdgesOf(deps, w) <==> Dep(w, d) in deps;
    }
  }

  lemma WorksReduce(t: Tables, t': Tables, done: set<Fact>, e: Fact)
    requires Keyed(t.facts) && e in t.facts && Reduced(t, e, t')
    requires QuarantineStep(t.facts, t.quarantine, t'.quarantine, e)
    requires WorksInv(t.facts, t.quarantine.Keys, t.deps, t.works, done)
    ensures WorksInv(t.facts, t'.quarantine.Keys, t'.deps, t'.works, done + {e})
  {
    var F := t.facts;
    forall w | w in t'.works ensures Derives(F, w) != {} {
      SomeDerive(F, w);
    }
    forall w | WorkDone(F, done + {e}, w) ensures RowCurrent(F, t'.quarantine.Keys, t'.deps, t'.works, w) {
      SomeDerive(F, w);
      if w in Touched(t'.deps, e) {
      } else {
        assert !AboutWork(e, w);
        assert WorkDone(F, done, w);
        EdgesElsewhere(F, t'.quarantine.Keys, t.deps, e, w);
        RowFrame(F, t.quarantine.Keys, t'.quarantine.Keys, t.deps, t'.deps, t.works, t'.works, w);
      }
    }
  }

  lemma FactsAboutWork(F: set<Fact>, e: Fact, Q: set<string>, w: string)
    requires !AboutWork(e, w)
    ensures Derives(F + {e}, w) == Derives(F, w)
    ensures Live(F + {e}, Q, w) == Live(F, Q, w)
    ensures RetiredIn(F + {e}, w) == RetiredIn(F, w)
  {
    if RetiredIn(F, w) {
      var f :| f in F && f.payload.WorkRetired? && f.payload.work == w;
      assert f in F + {e};
    }
  }

  lemma WorksInsert(F: set<Fact>, Q: set<string>, deps: map<Dep, Edge>, works: map<string, WorkRow>, done: set<Fact>,
                    e: Fact)
    requires WorksInv(F, Q, deps, works, done) && done <= F && e !in F
    ensures WorksInv(F + {e}, Q, deps, works, done)
  {
    var G := F + {e};
    forall w | w in works ensures Derives(G, w) != {} {
      var f :| f in Derives(F, w);
      assert f in Derives(G, w);
    }
    forall w | WorkDone(G, done, w) ensures RowCurrent(G, Q, deps, works, w) {
      assert !AboutWork(e, w);
      assert WorkDone(F, done, w);
      FactsAboutWork(F, e, Q, w);
    }
  }

  // ---- plans ----

  lemma SomePlan(F: set<Fact>, p: string)
    requires Keyed(F)
    ensures PlanOf(F, p).Some? <==> Creations(F, p) != {}
  {
    if f :| f in Creations(F, p) {
      assert f in Lifecycles(F, p);
      KeyedSubset(F, Creations(F, p));
      KeyedSubset(F, Lifecycles(F, p));
      ExtremesExist(Creations(F, p));
      ExtremesExist(Lifecycles(F, p));
    }
  }

  lemma PlansReduce(t: Tables, t': Tables, done: set<Fact>, e: Fact)
    requires Keyed(t.facts) && e in t.facts && Reduced(t, e, t')
    requires PlansInv(t.facts, t.plans, done)
    ensures PlansInv(t.facts, t'.plans, done + {e})
  {
    forall p ensures p in t'.plans ==> Creations(t.facts, p) != {} {
      SomePlan(t.facts, p);
    }
    forall p | PlanDone(t.facts, done + {e}, p)
      ensures if PlanOf(t.facts, p).Some?
                then p in t'.plans && t'.plans[p] == PlanOf(t.facts, p).value else p !in t'.plans
    {
      SomePlan(t.facts, p);
      if !AboutPlan(e, p) {
        assert PlanDone(t.facts, done, p);
      }
    }
  }

  lemma PlansInsert(F: set<Fact>, plans: map<string, PlanRow>, done: set<Fact>, e: Fact)
    requires PlansInv(F, plans, done) && done <= F && e !in F
    ensures PlansInv(F + {e}, plans, done)
  {
    var G := F + {e};
    forall p | p in plans ensures Creations(G, p) != {} {
      var f :| f in Creations(F, p);
      assert f in Creations(G, p);
    }
    forall p | PlanDone(G, done, p)
      ensures if PlanOf(G, p).Some? then p in plans && plans[p] == PlanOf(G, p).value else p !in plans
    {
      assert !AboutPlan(e, p);
      assert PlanDone(F, done, p);
      assert Creations(G, p) == Creations(F, p) && Lifecycles(G, p) == Lifecycles(F, p);
    }
  }

  // ---- links and standings ----

  lemma SourcesReduce(t: Tables, t': Tables, done: set<Fact>, e: Fact)
    requires e in t.facts && t'.links == LinksAfter(t.held, t.links, e) && done <= t.facts && Ids(t.facts) <= t.held
    requires SourcesInv(t.held, t.links, done) && t.links.Keys == AssertedLinks(done)
    ensures SourcesInv(t.held, t'.links, done + {e})
  {
    assert e.id in Ids(t.facts);
    forall l | l in t'.links && l.source in Ids(done + {e}) ensures t'.links[l].sourceKnown {
      var f :| f in done + {e} && f.id == l.source;
      assert f.id in Ids(t.facts);
      if f in done { assert l.source in Ids(done); }
    }
  }

  lemma LinksReduce(t: Tables, t': Tables, done: set<Fact>, e: Fact)
    requires e in t.facts && Reduced(t, e, t') && done <= t.facts && Ids(t.facts) <= t.held
    requires LinksInv(t.held, t.links, done)
    ensures LinksInv(t.held, t'.links, done + {e})
  {
    SourcesReduce(t, t', done, e);
    var now := AssertedLinks(done + {e});
    forall l ensures l in t'.links <==> l in now {
      if l in AssertedLinks(done) {
        var f :| f in done && f.payload.LinkAsserted? && f.payload.link == l;
        assert f in done + {e};
      }
      if l in t'.links && l !in t.links {
        assert e in done + {e} && e.payload.link == l;
      }
    }
    forall l | l in t'.links && l.target in Ids(done + {e}) ensures t'.links[l].resolved {
      var f :| f in done + {e} && f.id == l.target;
      if f in done {
        assert l.target in Ids(done);
      }
      assert f.id in Ids(t.facts);
    }
    assert e.id in Ids(t.facts);
  }

  lemma StandingsReduce(t: Tables, t': Tables, done: set<Fact>, e: Fact)
    requires e in t.facts && Reduced(t, e, t')
    requires StandingsInv(t.facts, t.links, t.standings, done)
    ensures StandingsInv(t.facts, t'.links, t'.standings, done + {e})
  {
    var F := t.facts;
    var table := StandingTable(Claims(F), Observations(F), ResolvedLinks(t'.links));
    if Touches(t.links, t'.links, e) {
      assert t.standings + table == table;
    } else {
      assert t'.links == t.links;
      if EvidenceDone(F, done + {e}) {
        assert EvidenceDone(F, done);
      }
    }
  }

  lemma StandingsInsert(F: set<Fact>, links: map<Link, LinkRow>, standings: map<string, Standing>, done: set<Fact>,
                        e: Fact)
    requires StandingsInv(F, links, standings, done) && done <= F && e !in F
    ensures StandingsInv(F + {e}, links, standings, done)
  {
    var G := F + {e};
    forall c | c in Claims(F) ensures c in Claims(G) {
      var f :| f in F && f.payload.ClaimRecorded? && f.id == c;
      assert f in G;
    }
    if EvidenceDone(G, done) {
      assert EvidenceDone(F, done);
      assert !e.payload.ClaimRecorded? && !e.payload.ObservationRecorded?;
      assert Claims(G) == Claims(F) by {
        forall c | c in Claims(G) ensures c in Claims(F) {
          var f :| f in G && f.payload.ClaimRecorded? && f.id == c;
        }
      }
      assert Observations(G) == Observations(F) by {
        forall c | c in Observations(F) ensures c in Observations(G) {
          var f :| f in F && f.payload.ObservationRecorded? && f.id == c;
          assert f in G;
        }
      }
    }
  }

  // ---- the invariant is inductive ----

  lemma InvReduce(c: Config, e: Fact, c': Config)
    requires Inv(c) && Next(c, Reduce(e), c')
    ensures Inv(c')
  {
    var t, t' := c.t, c'.t;
    QuarantineReduce(t.facts, t.quarantine, c.done, e);
    QuarantineSteps(t.facts, t.quarantine, c.done, e);
    DepsReduce(t.facts, t.quarantine, t'.quarantine, t.deps, c.done, e);
    WorksReduce(t, t', c.done, e);
    PlansReduce(t, t', c.done, e);
    LinksReduce(t, t', c.done, e);
    StandingsReduce(t, t', c.done, e);
  }

  lemma InvInsert(c: Config, e: Fact, c': Config)
    requires Inv(c) && Next(c, Insert(e), c')
    ensures Inv(c')
  {
    var t := c.t;
    assert e !in t.facts;
    QuarantineInsert(t.facts, t.quarantine, c.done, e);
    DepsInsert(t.facts, t.quarantine.Keys, t.deps, c.done, e);
    WorksInsert(t.facts, t.quarantine.Keys, t.deps, t.works, c.done, e);
    PlansInsert(t.facts, t.plans, c.done, e);
    StandingsInsert(t.facts, t.links, t.standings, c.done, e);
    forall i | i in Ids(c'.t.facts) ensures i in c'.t.held {
      var f :| f in c'.t.facts && f.id == i;
      if f in t.facts { assert f.id in Ids(t.facts); }
    }
    forall a, b | a in c'.t.facts && b in c'.t.facts && a.id == b.id ensures a == b {
      if a in t.facts { assert a.id in Ids(t.facts); }
      if b in t.facts { assert b.id in Ids(t.facts); }
    }
  }

  // An emptied projection over any fact set is consistent: everything is pending.
  lemma InvEmptied(t: Tables)
    requires Keyed(t.facts) && Ids(t.facts) <= t.held
    ensures Inv(Config(Emptied(t), {}))
  {
    var F, u := t.facts, Emptied(t);
    forall f | f in F && f.payload.ResultRecorded? ensures Live(F, u.quarantine.Keys, f.payload.work) != {} {
      assert f in Live(F, u.quarantine.Keys, f.payload.work);
    }
    assert forall f :: (f in F && f.payload.ResultRecorded? && f.payload.occurrenceKey.Some?
                        ==> f in Consumers(F, f.payload.work, f.payload.occurrenceKey.value));
    forall w | WorkDone(F, {}, w) ensures RowCurrent(F, {}, map[], map[], w) {
      assert forall f :: f in Derives(F, w) ==> AboutWork(f, w);
      assert Derives(F, w) == {};
    }
    forall p | PlanDone(F, {}, p) ensures PlanOf(F, p).None? {
      assert forall f :: f in Creations(F, p) ==> AboutPlan(f, p);
      assert Creations(F, p) == {};
    }
    if EvidenceDone(F, {}) {
      assert Claims(F) == {};
    }
    assert DeclaredDeps({}) == {} && AssertedLinks({}) == {};
  }

  lemma InvNext(c: Config, step: Step, c': Config)
    requires Inv(c) && Next(c, step, c')
    ensures Inv(c')
  {
    match step {
      case HoldStub(_) =>
      case Insert(f) => InvInsert(c, f, c');
      case Reduce(f) => InvReduce(c, f, c');
      case Truncate => InvEmptied(c.t);
    }
  }
}
