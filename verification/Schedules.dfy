// Concrete schedules: rebuild as one of them, and the two places where the schedule does
// show, each with the exact condition under which it does.

module Schedules {
  import opened Prelude
  import opened Vocabulary
  import opened Support
  import opened Fold
  import opened Confluence
  import opened Convergence

  // A reduction exists for every stored fact. The readiness pass of work w0 reads edge
  // (w0, d0) first whenever that edge is there.
  ghost function FirstPolicy(edges: map<string, Edge>, w: string, w0: string, d0: string): Policy {
    if edges == map[] then ALL
    else if w == w0 && d0 in edges then edges[d0].policy
    else var d :| d in edges; edges[d].policy
  }

  ghost function WorksAfter(F: set<Fact>, Q: set<string>, deps: map<Dep, Edge>, works: map<string, WorkRow>,
                            touched: set<string>,
                            w0: string, d0: string): map<string, WorkRow> {
    var renewed := set w | w in touched && Latest(Derives(F, w)).Some?;
    works + map w | w in renewed :: RowOf(F, Q, EdgesOf(deps, w), w, FirstPolicy(EdgesOf(deps, w), w, w0, d0)).value
  }

  ghost function PlansAfter(F: set<Fact>, plans: map<string, PlanRow>, e: Fact): map<string, PlanRow> {
    if (e.payload.PlanCreated? || e.payload.PlanLifecycleChanged?) && PlanOf(F, e.payload.plan).Some? then
      plans[e.payload.plan := PlanOf(F, e.payload.plan).value]
    else plans
  }

  ghost function ReducedTables(t: Tables, e: Fact, w0: string, d0: string): Tables {
    var q := QuarantineAfter(t.facts, t.quarantine, e);
    var deps := DepsAfter(t.facts, q.Keys, t.deps, e);
    var links := LinksAfter(t.held, t.links, e);
    Tables(t.held, t.facts, PlansAfter(t.facts, t.plans, e),
           WorksAfter(t.facts, q.Keys, deps, t.works, Touched(deps, e), w0, d0), deps, q, links,
           if Touches(t.links, links, e) then
             t.standings + StandingTable(Claims(t.facts), Observations(t.facts), ResolvedLinks(links))
           else t.standings)
  }

  lemma WorksAfterCurrent(F: set<Fact>, Q: set<string>, deps: map<Dep, Edge>, works: map<string, WorkRow>,
                          touched: set<string>,
                          w0: string, d0: string, w: string)
    requires w in touched && Latest(Derives(F, w)).Some?
    ensures RowCurrent(F, Q, deps, WorksAfter(F, Q, deps, works, touched, w0, d0), w)
  {
  }

  lemma ReductionExists(t: Tables, e: Fact, w0: string, d0: string)
    ensures Reduced(t, e, ReducedTables(t, e, w0, d0))
  {
    var u := ReducedTables(t, e, w0, d0);
    forall w | w in Touched(u.deps, e) && Latest(Derives(t.facts, w)).Some?
      ensures RowCurrent(t.facts, u.quarantine.Keys, u.deps, u.works, w)
    {
      WorksAfterCurrent(t.facts, u.quarantine.Keys, u.deps, t.works, Touched(u.deps, e), w0, d0, w);
    }
  }

  // ---- running a list of steps ----

  ghost function Apply(c: Config, step: Step, w0: string, d0: string): Config {
    match step
    case HoldStub(id) => c.(t := c.t.(held := c.t.held + {id}))
    case Insert(f) => c.(t := c.t.(held := c.t.held + {f.id}, facts := c.t.facts + {f}))
    case Reduce(f) => Config(ReducedTables(c.t, f, w0, d0), c.done + {f})
    case Truncate => Config(Emptied(c.t), {})
  }

  ghost predicate Enabled(c: Config, step: Step) {
    match step
    case Insert(f) => f.id !in Ids(c.t.facts)
    case Reduce(f) => f in c.t.facts
    case _ => true
  }

  ghost function Final(c: Config, steps: seq<Step>, w0: string, d0: string): Config
    decreases steps
  {
    if steps == [] then c else Final(Apply(c, steps[0], w0, d0), steps[1..], w0, d0)
  }

  ghost predicate Legal(c: Config, steps: seq<Step>, w0: string, d0: string)
    decreases steps
  {
    steps == [] || (Enabled(c, steps[0]) && Legal(Apply(c, steps[0], w0, d0), steps[1..], w0, d0))
  }

  ghost function States(c: Config, steps: seq<Step>, w0: string, d0: string): (cs: seq<Config>)
    ensures |cs| == |steps| + 1 && cs[0] == c
    decreases steps
  {
    if steps == [] then [c] else [c] + States(Apply(c, steps[0], w0, d0), steps[1..], w0, d0)
  }

  lemma ApplyIsNext(c: Config, step: Step, w0: string, d0: string)
    requires Enabled(c, step)
    ensures Next(c, step, Apply(c, step, w0, d0))
  {
    if step.Reduce? { ReductionExists(c.t, step.f, w0, d0); }
  }

  lemma {:induction false} StatesFollow(c: Config, steps: seq<Step>, w0: string, d0: string)
    requires Legal(c, steps, w0, d0)
    ensures var cs := States(c, steps, w0, d0);
      && cs[|cs| - 1] == Final(c, steps, w0, d0)
      && forall i :: 0 <= i < |steps| ==> Next(cs[i], steps[i], cs[i + 1])
    decreases steps
  {
    if steps != [] {
      var c' := Apply(c, steps[0], w0, d0);
      ApplyIsNext(c, steps[0], w0, d0);
      StatesFollow(c', steps[1..], w0, d0);
      var cs, rest := States(c, steps, w0, d0), States(c', steps[1..], w0, d0);
      forall i | 0 <= i < |steps| ensures Next(cs[i], steps[i], cs[i + 1]) {
        if i > 0 { assert cs[i] == rest[i - 1] && cs[i + 1] == rest[i] && steps[i] == steps[1..][i - 1]; }
      }
    }
  }

  lemma {:induction false} FinalAppend(c: Config, a: seq<Step>, b: seq<Step>, w0: string, d0: string)
    ensures Final(c, a + b, w0, d0) == Final(Final(c, a, w0, d0), b, w0, d0)
    ensures Legal(c, a + b, w0, d0) <==> Legal(c, a, w0, d0) && Legal(Final(c, a, w0, d0), b, w0, d0)
    decreases a
  {
    if a == [] {
      assert a + b == b;
    } else {
      assert (a + b)[1..] == a[1..] + b;
      FinalAppend(Apply(c, a[0], w0, d0), a[1..], b, w0, d0);
    }
  }

  function Inserts(order: seq<Fact>): seq<Step> { seq(|order|, i requires 0 <= i < |order| => Insert(order[i])) }

  function Reduces(order: seq<Fact>): seq<Step> { seq(|order|, i requires 0 <= i < |order| => Reduce(order[i])) }

  function Elements(order: seq<Fact>): set<Fact> { set f | f in order }

  predicate DistinctIds(order: seq<Fact>) { forall i, j :: 0 <= i < j < |order| ==> order[i].id != order[j].id }

  lemma {:induction false} InsertingAll(c: Config, order: seq<Fact>, w0: string, d0: string)
    requires DistinctIds(order) && forall f :: f in order ==> f.id !in Ids(c.t.facts)
    ensures Legal(c, Inserts(order), w0, d0)
    ensures Final(c, Inserts(order), w0, d0) ==
      c.(t := c.t.(held := c.t.held + Ids(Elements(order)), facts := c.t.facts + Elements(order)))
    decreases order
  {
    if order == [] {
      assert Ids(Elements(order)) == {};
    } else {
      var c' := Apply(c, Insert(order[0]), w0, d0);
      assert Inserts(order)[1..] == Inserts(order[1..]);
      forall f | f in order[1..] ensures f.id !in Ids(c'.t.facts) {
        var j :| 0 <= j < |order[1..]| && order[1..][j] == f;
        assert order[j + 1].id != order[0].id;
      }
      InsertingAll(c', order[1..], w0, d0);
      assert Elements(order) == {order[0]} + Elements(order[1..]);
      IdsUnion({order[0]}, Elements(order[1..]));
      assert Ids({order[0]}) == {order[0].id};
      assert c.t.held + {order[0].id} + Ids(Elements(order[1..])) == c.t.held + Ids(Elements(order));
      assert c.t.facts + {order[0]} + Elements(order[1..]) == c.t.facts + Elements(order);
    }
  }

  lemma IdsUnion(a: set<Fact>, b: set<Fact>)
    ensures Ids(a + b) == Ids(a) + Ids(b)
  {
    forall i | i in Ids(a) + Ids(b) ensures i in Ids(a + b) {
      if i in Ids(a) {
        var f :| f in a && f.id == i;
        assert f in a + b;
      } else {
        var f :| f in b && f.id == i;
        assert f in a + b;
      }
    }
  }

  lemma {:induction false} ReducingAll(c: Config, order: seq<Fact>, w0: string, d0: string)
    requires Elements(order) <= c.t.facts
    ensures Legal(c, Reduces(order), w0, d0)
    ensures var r := Final(c, Reduces(order), w0, d0);
      r.t.facts == c.t.facts && r.t.held == c.t.held && r.done == c.done + Elements(order)
    decreases order
  {
    if order != [] {
      assert order[0] in Elements(order);
      assert Reduces(order)[1..] == Reduces(order[1..]);
      assert Elements(order) == {order[0]} + Elements(order[1..]);
      ReducingAll(Apply(c, Reduce(order[0]), w0, d0), order[1..], w0, d0);
    }
  }

  // ---- rebuild ----

  // Rebuilding after any schedule, in any replay order that covers the log, lands on the
  // states incremental application reached.
  lemma RebuildReproduces(cs: seq<Config>, steps: seq<Step>, order: seq<Fact>, ds: seq<Config>)
    requires Behavior(cs, steps) && Complete(cs[|cs| - 1])
    requires Elements(order) == cs[|cs| - 1].t.facts
    requires |ds| == |order| + 1 && Next(cs[|cs| - 1], Truncate, ds[0])
    requires forall i :: 0 <= i < |order| ==> Next(ds[i], Reduce(order[i]), ds[i + 1])
    ensures var t, u := cs[|cs| - 1].t, ds[|ds| - 1].t;
      && ClosedForm(u) && u.facts == t.facts && SameStates(t, u) && t.works.Keys == u.works.Keys
      && forall w :: w in t.works && !PolicySensitive(t.facts, w) ==> t.works[w] == u.works[w]
  {
    var c := cs[|cs| - 1];
    EveryScheduleConverges(cs, steps);
    BehaviorInv(cs, steps, |cs| - 1);
    InvNext(c, Truncate, ds[0]);
    ReplayInv(ds, order, |order|);
    ReplayCovers(ds, order, |order|);
    assert order[..|order|] == order;
    var d := ds[|ds| - 1];
    CompleteIsClosed(d);
    ClosedStatesAgree(c.t, d.t);
    forall w ensures w in c.t.works <==> w in d.t.works
      ensures w in c.t.works && !PolicySensitive(c.t.facts, w) ==> c.t.works[w] == d.t.works[w]
    {
      ClosedRowsAgree(c.t, d.t, w);
    }
  }

  lemma ReduceEffect(c: Config, f: Fact, c': Config)
    requires Next(c, Reduce(f), c')
    ensures c'.t.facts == c.t.facts && c'.done == c.done + {f}
  {
  }

  lemma {:induction false} ReplayInv(ds: seq<Config>, order: seq<Fact>, n: nat)
    requires n <= |order| && |ds| == |order| + 1 && Inv(ds[0])
    requires forall i :: 0 <= i < |order| ==> Next(ds[i], Reduce(order[i]), ds[i + 1])
    ensures Inv(ds[n])
  {
    if n > 0 {
      ReplayInv(ds, order, n - 1);
      assert Next(ds[n - 1], Reduce(order[n - 1]), ds[n]);
      ReplayInvStep(ds[n - 1], order[n - 1], ds[n]);
    }
  }

  lemma ReplayInvStep(c: Config, f: Fact, c': Config)
    requires Inv(c) && Next(c, Reduce(f), c')
    ensures Inv(c')
  {
    InvNext(c, Reduce(f), c');
  }

  lemma {:induction false} ReplayCovers(ds: seq<Config>, order: seq<Fact>, n: nat)
    requires n <= |order| && |ds| == |order| + 1
    requires forall i :: 0 <= i < |order| ==> Next(ds[i], Reduce(order[i]), ds[i + 1])
    ensures ds[n].t.facts == ds[0].t.facts && ds[n].done == ds[0].done + Elements(order[..n])
  {
    if n == 0 {
      assert Elements(order[..0]) == {};
    } else {
      ReplayCovers(ds, order, n - 1);
      ReduceEffect(ds[n - 1], order[n - 1], ds[n]);
      assert Elements(order[..n]) == Elements(order[..n - 1]) + {order[n - 1]};
    }
  }

  // ---- full schedules over a chosen fact set ----

  const EMPTY: Config := Config(Tables({}, {}, map[], map[], map[], map[], map[], map[]), {})

  function Schedule(order: seq<Fact>): seq<Step> { Inserts(order) + Reduces(order) }

  lemma ScheduleRuns(c: Config, order: seq<Fact>, w0: string, d0: string)
    requires DistinctIds(order) && c.t.facts == {} && c.done == {}
    ensures Legal(c, Schedule(order), w0, d0)
    ensures var r := Final(c, Schedule(order), w0, d0);
      r.t.facts == Elements(order) == r.done && r.t.held == c.t.held + Ids(Elements(order))
  {
    InsertingAll(c, order, w0, d0);
    FinalAppend(c, Inserts(order), Reduces(order), w0, d0);
    ReducingAll(Final(c, Inserts(order), w0, d0), order, w0, d0);
  }

  lemma {:induction false} Enumerate(F: set<Fact>) returns (order: seq<Fact>)
    requires Keyed(F)
    ensures Elements(order) == F && DistinctIds(order)
    decreases F
  {
    if F == {} {
      order := [];
    } else {
      var f :| f in F;
      var rest := Enumerate(F - {f});
      order := [f] + rest;
      forall i, j | 0 <= i < j < |order| ensures order[i].id != order[j].id {
        assert order[j] in Elements(rest);
        if i > 0 { assert order[i] == rest[i - 1] && order[j] == rest[j - 1]; }
      }
      assert Elements(order) == {f} + Elements(rest);
    }
  }

  // ---- the policy row that is read first, exactly when it shows ----

  ghost predicate PickInv(c: Config, w0: string, d0: string, p: Policy) { Picked(c.t, w0, d0, p) }

  lemma EdgeAt(deps: map<Dep, Edge>, w: string, d: string)
    requires Dep(w, d) in deps
    ensures d in EdgesOf(deps, w) && EdgesOf(deps, w)[d] == deps[Dep(w, d)] && EdgesOf(deps, w) != map[]
  {
  }

  lemma RowOfFrame(F: set<Fact>, Q: set<string>, R: set<string>, edges: map<string, Edge>, w: string, p: Policy)
    requires SameLive(F, Q, R, w)
    ensures RowOf(F, Q, edges, w, p) == RowOf(F, R, edges, w, p)
  {
  }

  lemma PickedRow(t: Tables, e: Fact, w0: string, d0: string, p: Policy)
    requires Keyed(t.facts) && e in t.facts
    requires var u := ReducedTables(t, e, w0, d0);
      Dep(w0, d0) in u.deps && u.deps[Dep(w0, d0)].policy == p && QuarantineStep(t.facts, t.quarantine, u.quarantine, e)
    requires w0 in t.works ==> Derives(t.facts, w0) != {} && Some(t.works[w0]) ==
                                                        RowOf(t.facts, t.quarantine.Keys, EdgesOf(t.deps, w0), w0, p)
    ensures var u := ReducedTables(t, e, w0, d0);
      w0 in u.works ==> Some(u.works[w0]) == RowOf(t.facts, u.quarantine.Keys, EdgesOf(u.deps, w0), w0, p)
  {
    var u := ReducedTables(t, e, w0, d0);
    EdgeAt(u.deps, w0, d0);
    SomeDerive(t.facts, w0);
    if w0 in t.works && w0 !in Touched(u.deps, e) { UntouchedRow(t, e, w0, d0, p); }
  }

  lemma UntouchedRow(t: Tables, e: Fact, w0: string, d0: string, p: Policy)
    requires Keyed(t.facts) && e in t.facts && w0 in t.works && w0 !in Touched(ReducedTables(t, e, w0, d0).deps, e)
    requires QuarantineStep(t.facts, t.quarantine, ReducedTables(t, e, w0, d0).quarantine, e)
    ensures var u := ReducedTables(t, e, w0, d0);
      RowOf(t.facts, t.quarantine.Keys, EdgesOf(t.deps, w0), w0, p) == RowOf(t.facts, u.quarantine.Keys,
            EdgesOf(u.deps, w0), w0, p)
  {
    var u := ReducedTables(t, e, w0, d0);
    EdgesElsewhere(t.facts, u.quarantine.Keys, t.deps, e, w0);
    RowOfFrame(t.facts, t.quarantine.Keys, u.quarantine.Keys, EdgesOf(t.deps, w0), w0, p);
  }

  // What the step needs of the invariant.
  lemma PickFacts(c: Config, e: Fact, w0: string, d0: string)
    requires Inv(c) && e in c.t.facts
    ensures Keyed(c.t.facts) && (w0 in c.t.works ==> Derives(c.t.facts, w0) != {})
    ensures QuarantineStep(c.t.facts, c.t.quarantine, ReducedTables(c.t, e, w0, d0).quarantine, e)
  {
    QuarantineSteps(c.t.facts, c.t.quarantine, c.done, e);
  }

  lemma PickedEdge(t: Tables, e: Fact, w0: string, d0: string, p: Policy)
    requires if Dep(w0, d0) in t.deps
             then t.deps[Dep(w0, d0)].policy == p
             else e.payload == WorkDependencyDeclared(w0, d0, p)
    ensures var u := ReducedTables(t, e, w0, d0); Dep(w0, d0) in u.deps && u.deps[Dep(w0, d0)].policy == p
  {
    var u := ReducedTables(t, e, w0, d0);
    DepsAfterAt(t.facts, u.quarantine.Keys, t.deps, e, Dep(w0, d0));
  }

  ghost predicate Picked(t: Tables, w0: string, d0: string, p: Policy) {
    && Dep(w0, d0) in t.deps && t.deps[Dep(w0, d0)].policy == p
    && (w0 in t.works ==> Some(t.works[w0]) == RowOf(t.facts, t.quarantine.Keys, EdgesOf(t.deps, w0), w0, p))
  }

  lemma PickTables(t: Tables, e: Fact, w0: string, d0: string, p: Policy)
    requires Keyed(t.facts) && e in t.facts && (w0 in t.works ==> Derives(t.facts, w0) != {})
    requires QuarantineStep(t.facts, t.quarantine, ReducedTables(t, e, w0, d0).quarantine, e)
    requires Picked(t, w0, d0, p)
             || (t.deps == map[] && t.works == map[] && e.payload == WorkDependencyDeclared(w0, d0, p))
    ensures Picked(ReducedTables(t, e, w0, d0), w0, d0, p)
  {
    PickedEdge(t, e, w0, d0, p);
    PickedRow(t, e, w0, d0, p);
  }

  lemma PickNext(c: Config, e: Fact, w0: string, d0: string, p: Policy) returns (c': Config)
    requires Inv(c) && e in c.t.facts
    requires PickInv(c, w0, d0, p)
          || (c.t.deps == map[] && c.t.works == map[] && e.payload == WorkDependencyDeclared(w0, d0, p))
    ensures c' == Apply(c, Reduce(e), w0, d0) && Inv(c') && PickInv(c', w0, d0, p) && c'.t.facts == c.t.facts
  {
    c' := Apply(c, Reduce(e), w0, d0);
    PickFacts(c, e, w0, d0);
    PickTables(c.t, e, w0, d0, p);
    ApplyIsNext(c, Reduce(e), w0, d0);
    InvNext(c, Reduce(e), c');
    ReduceEffect(c, e, c');
  }

  lemma FinalReduce(c: Config, order: seq<Fact>, w0: string, d0: string)
    requires order != []
    ensures Final(c, Reduces(order), w0, d0) == Final(Apply(c, Reduce(order[0]), w0, d0), Reduces(order[1..]), w0, d0)
    ensures order[0] in Elements(order) && Elements(order[1..]) <= Elements(order)
  {
    assert Reduces(order)[0] == Reduce(order[0]) && Reduces(order)[1..] == Reduces(order[1..]);
  }

  lemma {:induction false} PickRun(c: Config, order: seq<Fact>, w0: string, d0: string, p: Policy)
    requires Inv(c) && Elements(order) <= c.t.facts && PickInv(c, w0, d0, p)
    ensures PickInv(Final(c, Reduces(order), w0, d0), w0, d0, p)
    decreases order
  {
    if order == [] {
      assert Reduces(order) == [];
    } else {
      FinalReduce(c, order, w0, d0);
      var c' := PickNext(c, order[0], w0, d0, p);
      PickRun(c', order[1..], w0, d0, p);
    }
  }

  lemma {:induction false} FinalInv(c: Config, steps: seq<Step>, w0: string, d0: string)
    requires Inv(c) && Legal(c, steps, w0, d0)
    ensures Inv(Final(c, steps, w0, d0))
    decreases steps
  {
    if steps != [] {
      ApplyIsNext(c, steps[0], w0, d0);
      InvNext(c, steps[0], Apply(c, steps[0], w0, d0));
      FinalInv(Apply(c, steps[0], w0, d0), steps[1..], w0, d0);
    }
  }

  lemma EmptyInv()
    ensures Inv(EMPTY)
  {
    InvEmptied(EMPTY.t);
  }

  lemma InsertedEmpty(order: seq<Fact>, w0: string, d0: string) returns (c: Config)
    requires DistinctIds(order)
    ensures c == Final(EMPTY, Inserts(order), w0, d0) && Inv(c)
    ensures c.t.deps == map[] && c.t.works == map[] && c.t.facts == Elements(order) && c.done == {}
  {
    InsertingAll(EMPTY, order, w0, d0);
    EmptyInv();
    FinalInv(EMPTY, Inserts(order), w0, d0);
    c := Final(EMPTY, Inserts(order), w0, d0);
    assert {} + Elements(order) == Elements(order);
  }

  lemma ScheduleBehavior(order: seq<Fact>, w0: string, d0: string) returns (cs: seq<Config>)
    requires DistinctIds(order)
    ensures Behavior(cs, Schedule(order)) && cs[|cs| - 1] == Final(EMPTY, Schedule(order), w0, d0)
    ensures Complete(cs[|cs| - 1]) && cs[|cs| - 1].t.facts == Elements(order)
    ensures cs[|cs| - 1].t.held == Ids(Elements(order))
  {
    ScheduleRuns(EMPTY, order, w0, d0);
    StatesFollow(EMPTY, Schedule(order), w0, d0);
    cs := States(EMPTY, Schedule(order), w0, d0);
    assert {} + Ids(Elements(order)) == Ids(Elements(order));
  }

  lemma StartingWith(F: set<Fact>, f0: Fact) returns (order: seq<Fact>)
    requires Keyed(F) && f0 in F
    ensures order != [] && order[0] == f0 && DistinctIds(order) && Elements(order) == F
  {
    var rest := Enumerate(F - {f0});
    order := [f0] + rest;
    forall i, j | 0 <= i < j < |order| ensures order[i].id != order[j].id {
      assert order[j] in Elements(rest);
      if i > 0 { assert order[i] == rest[i - 1] && order[j] == rest[j - 1]; }
    }
    assert Elements(order) == {f0} + Elements(rest) == F;
  }

  lemma PickSchedule(order: seq<Fact>, w: string, d: string, p: Policy)
    requires DistinctIds(order) && order != [] && order[0].payload == WorkDependencyDeclared(w, d, p)
    ensures PickInv(Final(EMPTY, Schedule(order), w, d), w, d, p)
  {
    var c := InsertedEmpty(order, w, d);
    FinalAppend(EMPTY, Inserts(order), Reduces(order), w, d);
    FinalReduce(c, order, w, d);
    var c1 := PickNext(c, order[0], w, d, p);
    PickRun(c1, order[1..], w, d, p);
  }

  // Reducing one declaration first pins the policy its work is judged under.
  lemma PinnedPolicy(F: set<Fact>, f0: Fact, w: string, d: string, p: Policy)
    returns (cs: seq<Config>, steps: seq<Step>)
    requires Keyed(F) && f0 in F && f0.payload == WorkDependencyDeclared(w, d, p)
    ensures Behavior(cs, steps) && Complete(cs[|cs| - 1]) && cs[|cs| - 1].t.facts == F
    ensures PickInv(cs[|cs| - 1], w, d, p)
  {
    var order := StartingWith(F, f0);
    steps := Schedule(order);
    cs := ScheduleBehavior(order, w, d);
    PickSchedule(order, w, d, p);
  }

  lemma SplitReadiness(edges: map<string, Edge>, yes: string, no: string, p: Policy)
    requires yes in edges && no in edges && Resolving(edges[yes]) && !Resolving(edges[no])
    ensures Readiness(edges, p) == (if p == ANY then IsReady else IsBlocked)
  {
    assert edges != map[];
  }

  lemma UnresolvedExecution(F: set<Fact>, Q: set<string>, edges: map<string, Edge>, w: string, p: Policy)
    requires Results(F, w) == {} && !RetiredIn(F, w)
    ensures ExecutionOf(F, Q, edges, w, p) == Readiness(edges, p)
  {
    assert Live(F, Q, w) == {};
  }

  lemma SensitiveReadiness(t: Tables, w: string, p: Policy)
    requires ClosedForm(t) && PolicySensitive(t.facts, w)
    ensures Readiness(EdgesOf(t.deps, w), p) == (if p == ANY then IsReady else IsBlocked)
  {
    ClosedEdges(t, w);
    var yes :| Dep(w, yes) in DeclaredDeps(t.facts) && ResolvesIn(t.facts, yes);
    var no :| Dep(w, no) in DeclaredDeps(t.facts) && !ResolvesIn(t.facts, no);
    EdgeAt(t.deps, w, yes);
    EdgeAt(t.deps, w, no);
    SplitReadiness(EdgesOf(t.deps, w), yes, no, p);
  }

  lemma PickedExecution(c: Config, w: string, d: string, p: Policy)
    requires PickInv(c, w, d, p) && w in c.t.works
    ensures c.t.works[w].execution == ExecutionOf(c.t.facts, c.t.quarantine.Keys, EdgesOf(c.t.deps, w), w, p)
  {
  }

  lemma PinnedExecution(c: Config, w: string, d: string, p: Policy)
    requires ClosedForm(c.t) && Keyed(c.t.facts) && PickInv(c, w, d, p) && PolicySensitive(c.t.facts, w)
    ensures w in c.t.works && c.t.works[w].execution == (if p == ANY then IsReady else IsBlocked)
  {
    RowPresence(c.t, w);
    PickedExecution(c, w, d, p);
    UnresolvedExecution(c.t.facts, c.t.quarantine.Keys, EdgesOf(c.t.deps, w), w, p);
    SensitiveReadiness(c.t, w, p);
  }

  // Together with ArrivalOrderIsIrrelevant: a work's execution is independent of the
  // schedule if and only if the work is not policy-sensitive.
  lemma PolicySensitivityShows(F: set<Fact>, w: string)
    returns (cs: seq<Config>, steps: seq<Step>, ds: seq<Config>, steps': seq<Step>)
    requires Keyed(F) && PolicySensitive(F, w)
    ensures Behavior(cs, steps) && Complete(cs[|cs| - 1]) && cs[|cs| - 1].t.facts == F
    ensures Behavior(ds, steps') && Complete(ds[|ds| - 1]) && ds[|ds| - 1].t.facts == F
    ensures w in cs[|cs| - 1].t.works && cs[|cs| - 1].t.works[w].execution == IsBlocked
    ensures w in ds[|ds| - 1].t.works && ds[|ds| - 1].t.works[w].execution == IsReady
  {
    var d, x :| DeclaredPolicy(F, w, d, ALL) && DeclaredPolicy(F, w, x, ANY);
    var f :| f in F && f.payload == WorkDependencyDeclared(w, d, ALL);
    var g :| g in F && g.payload == WorkDependencyDeclared(w, x, ANY);
    cs, steps := PinnedPolicy(F, f, w, d, ALL);
    EveryScheduleConverges(cs, steps);
    PinnedExecution(cs[|cs| - 1], w, d, ALL);
    ds, steps' := PinnedPolicy(F, g, w, x, ANY);
    EveryScheduleConverges(ds, steps');
    PinnedExecution(ds[|ds| - 1], w, x, ANY);
  }

  // ---- the raw `resolved` flag of a link, exactly when the schedule shows in it ----

  // With no stub at the target the flag just says whether the target is held.
  lemma ResolvedIsHeld(cs: seq<Config>, steps: seq<Step>, l: Link)
    requires Behavior(cs, steps) && Complete(cs[|cs| - 1]) && l in cs[|cs| - 1].t.links
    requires l.target in cs[|cs| - 1].t.held ==> l.target in Ids(cs[|cs| - 1].t.facts)
    ensures cs[|cs| - 1].t.links[l].resolved <==> l.target in cs[|cs| - 1].t.held
  {
    BehaviorInv(cs, steps, |cs| - 1);
  }

  // And with no stub at the source, whether the source's scope has been filled in says
  // whether the source is held.
  lemma SourceKnownIsHeld(cs: seq<Config>, steps: seq<Step>, l: Link)
    requires Behavior(cs, steps) && Complete(cs[|cs| - 1]) && l in cs[|cs| - 1].t.links
    requires l.source in cs[|cs| - 1].t.held ==> l.source in Ids(cs[|cs| - 1].t.facts)
    ensures cs[|cs| - 1].t.links[l].sourceKnown <==> l.source in cs[|cs| - 1].t.held
  {
    BehaviorInv(cs, steps, |cs| - 1);
  }

  ghost predicate ResolvedOnceHeld(c: Config, l: Link) {
    l.target in c.t.held && (l in c.t.links ==> c.t.links[l].resolved)
  }

  lemma {:induction false} StubFirst(c: Config, steps: seq<Step>, l: Link, w0: string, d0: string)
    requires ResolvedOnceHeld(c, l) && Truncate !in steps
    ensures ResolvedOnceHeld(Final(c, steps, w0, d0), l)
    decreases steps
  {
    if steps != [] {
      assert steps[0] in steps;
      StubFirst(Apply(c, steps[0], w0, d0), steps[1..], l, w0, d0);
    }
  }

  lemma StubBefore(order: seq<Fact>, l: Link) returns (cs: seq<Config>, steps: seq<Step>)
    requires DistinctIds(order) && l in AssertedLinks(Elements(order)) && l.target !in Ids(Elements(order))
    ensures Behavior(cs, steps) && Complete(cs[|cs| - 1]) && cs[|cs| - 1].t.facts == Elements(order)
    ensures cs[|cs| - 1].t.held == Ids(Elements(order)) + {l.target}
    ensures l in cs[|cs| - 1].t.links && cs[|cs| - 1].t.links[l].resolved
  {
    var early := Apply(EMPTY, HoldStub(l.target), "", "");
    steps := [HoldStub(l.target)] + Schedule(order);
    ScheduleRuns(early, order, "", "");
    assert steps[1..] == Schedule(order);
    StatesFollow(EMPTY, steps, "", "");
    cs := States(EMPTY, steps, "", "");
    StubFirst(early, Schedule(order), l, "", "");
    BehaviorInv(cs, steps, |cs| - 1);
    assert {l.target} + Ids(Elements(order)) == Ids(Elements(order)) + {l.target};
  }

  lemma StubAfter(order: seq<Fact>, l: Link) returns (cs: seq<Config>, steps: seq<Step>)
    requires DistinctIds(order) && l in AssertedLinks(Elements(order)) && l.target !in Ids(Elements(order))
    ensures Behavior(cs, steps) && Complete(cs[|cs| - 1]) && cs[|cs| - 1].t.facts == Elements(order)
    ensures cs[|cs| - 1].t.held == Ids(Elements(order)) + {l.target}
    ensures l in cs[|cs| - 1].t.links && !cs[|cs| - 1].t.links[l].resolved
  {
    var mid := ScheduleBehavior(order, "", "");
    var c := mid[|mid| - 1];
    BehaviorInv(mid, Schedule(order), |mid| - 1);
    var c' := Apply(c, HoldStub(l.target), "", "");
    cs, steps := mid + [c'], Schedule(order) + [HoldStub(l.target)];
    BehaviorMore(mid, Schedule(order), HoldStub(l.target), c');
  }

  lemma BehaviorMore(cs: seq<Config>, steps: seq<Step>, step: Step, c: Config)
    requires Behavior(cs, steps) && Next(cs[|cs| - 1], step, c)
    ensures Behavior(cs + [c], steps + [step])
  {
    var ds, more := cs + [c], steps + [step];
    forall i | 0 <= i < |more| ensures Next(ds[i], more[i], ds[i + 1]) {
      if i < |steps| { assert Next(cs[i], steps[i], cs[i + 1]); }
    }
  }

  // A target held only as a stub: the same facts and the same held envelopes leave the
  // flag set when the stub came before the assertion and clear when it came after.
  lemma StubEndpointShows(F: set<Fact>, l: Link)
    returns (cs: seq<Config>, steps: seq<Step>, ds: seq<Config>, steps': seq<Step>)
    requires Keyed(F) && l in AssertedLinks(F) && l.target !in Ids(F)
    ensures Behavior(cs, steps) && Complete(cs[|cs| - 1]) && Behavior(ds, steps') && Complete(ds[|ds| - 1])
    ensures cs[|cs| - 1].t.facts == ds[|ds| - 1].t.facts == F
    ensures cs[|cs| - 1].t.held == ds[|ds| - 1].t.held == Ids(F) + {l.target}
    ensures l in cs[|cs| - 1].t.links && cs[|cs| - 1].t.links[l].resolved
    ensures l in ds[|ds| - 1].t.links && !ds[|ds| - 1].t.links[l].resolved
  {
    var order := Enumerate(F);
    cs, steps := StubBefore(order, l);
    ds, steps' := StubAfter(order, l);
  }
}
