// The symmetric fold (kawa/projections/reducers.py): the projection tables, what one
// reduction does to them, and the closed form of every table over the fact set.

module Fold {
  import opened Prelude
  import opened Vocabulary
  import opened Hlc
  import opened Support

  // A materialized event as the reducers see it: identity, ordering coordinate, payload.
  datatype Fact = Fact(id: string, physical: nat, logical: nat, origin: string, payload: Payload)

  datatype DepState = Pending | Satisfied | ConflictedDep | FailedDep | RetiredDep
  datatype Execution = IsReady | IsBlocked | Finished | Retryable | HasResult | Unknown | IsRetired

  datatype WorkRow = WorkRow(plan: string, workKind: string, subject: Option<string>, role: Option<string>,
                             execution: Execution)
  datatype PlanRow = PlanRow(project: string, objective: string, rationale: Option<string>, lifecycle: Lifecycle,
                             endReason: Option<EndReason>)
  datatype Edge = Edge(policy: Policy, state: DepState)
  datatype Dep = Dep(work: string, dependency: string)
  datatype Quarantined = Quarantined(work: string, key: string, first: string)
  // `resolved`: the target is held; `sourceKnown`: the source's scope has been filled in.
  datatype LinkRow = LinkRow(resolved: bool, sourceKnown: bool)

  datatype Tables = Tables(
    held: set<string>,                       // envelope ids in `events`, stubs included
    facts: set<Fact>,                        // materialized events and their payload rows
    plans: map<string, PlanRow>,
    works: map<string, WorkRow>,
    deps: map<Dep, Edge>,
    quarantine: map<string, Quarantined>,
    links: map<Link, LinkRow>,
    standings: map<string, Standing>)

  // ---- the shared strict total order ----

  function KeyOf(f: Fact): Key { Key(f.physical, f.logical, f.origin, f.id) }

  predicate Precedes(a: Fact, b: Fact) { KeyBefore(KeyOf(a), KeyOf(b)) }

  ghost predicate Keyed(F: set<Fact>) {
    forall a, b :: a in F && b in F && a.id == b.id ==> a == b
  }

  predicate IsLatest(f: Fact, s: set<Fact>) { f in s && forall x :: x in s && x != f ==> Precedes(x, f) }

  predicate IsEarliest(f: Fact, s: set<Fact>) { f in s && forall x :: x in s && x != f ==> Precedes(f, x) }

  lemma LatestUnique(a: Fact, b: Fact, s: set<Fact>)
    ensures IsLatest(a, s) && IsLatest(b, s) ==> a == b
    ensures IsEarliest(a, s) && IsEarliest(b, s) ==> a == b
  {
    KeyTotal(KeyOf(a), KeyOf(b));
  }

  // ORDER BY the total order DESC LIMIT 1.
  function Latest(s: set<Fact>): (r: Option<Fact>)
    ensures r.Some? ==> IsLatest(r.value, s)
  {
    if exists f :: f in s && IsLatest(f, s) then
      assert forall a, b :: a in s && b in s && IsLatest(a, s) && IsLatest(b, s) ==> a == b by {
        forall a, b | a in s && b in s ensures IsLatest(a, s) && IsLatest(b, s) ==> a == b { LatestUnique(a, b, s); }
      }
      var f :| f in s && IsLatest(f, s);
      Some(f)
    else None
  }

  // The first row of the ascending order.
  function Earliest(s: set<Fact>): (r: Option<Fact>)
    ensures r.Some? ==> IsEarliest(r.value, s)
  {
    if exists f :: f in s && IsEarliest(f, s) then
      assert forall a, b :: a in s && b in s && IsEarliest(a, s) && IsEarliest(b, s) ==> a == b by {
        forall a, b | a in s && b in s
          ensures IsEarliest(a, s) && IsEarliest(b, s) ==> a == b
        {
          LatestUnique(a, b, s);
        }
      }
      var f :| f in s && IsEarliest(f, s);
      Some(f)
    else None
  }

  lemma {:induction false} ExtremesExist(s: set<Fact>)
    requires Keyed(s) && s != {}
    ensures Latest(s).Some? && Earliest(s).Some?
    decreases s
  {
    var f :| f in s;
    var rest := s - {f};
    if rest == {} {
      assert s == {f};
      assert IsLatest(f, s) && IsEarliest(f, s);
    } else {
      ExtremesExist(rest);
      var hi, lo := Latest(rest).value, Earliest(rest).value;
      KeyTotal(KeyOf(hi), KeyOf(f));
      KeyTotal(KeyOf(lo), KeyOf(f));
      if Precedes(hi, f) {
        forall x | x in s && x != f ensures Precedes(x, f) {
          assert x in rest;
          if x != hi { KeyTransitive(KeyOf(x), KeyOf(hi), KeyOf(f)); }
        }
        assert IsLatest(f, s);
      } else {
        assert IsLatest(hi, s);
      }
      if Precedes(f, lo) {
        forall x | x in s && x != f ensures Precedes(f, x) {
          assert x in rest;
          if x != lo { KeyTransitive(KeyOf(f), KeyOf(lo), KeyOf(x)); }
        }
        assert IsEarliest(f, s);
      } else {
        assert IsEarliest(lo, s);
      }
    }
  }

  // ---- queries over the payload fact tables ----

  predicate RetiredIn(F: set<Fact>, w: string) { exists f :: f in F && f.payload.WorkRetired? && f.payload.work == w }

  function Derives(F: set<Fact>, w: string): set<Fact> {
    set f | f in F && f.payload.WorkDerived? && f.payload.work == w
  }

  function Results(F: set<Fact>, w: string): set<Fact> {
    set f | f in F && f.payload.ResultRecorded? && f.payload.work == w
  }

  function Live(F: set<Fact>, Q: set<string>, w: string): set<Fact> { set f | f in Results(F, w) && f.id !in Q }

  function Consumers(F: set<Fact>, w: string, k: string): set<Fact> {
    set f | f in Results(F, w) && f.payload.occurrenceKey == Some(k)
  }

  function Creations(F: set<Fact>, p: string): set<Fact> {
    set f | f in F && f.payload.PlanCreated? && f.payload.plan == p
  }

  function Lifecycles(F: set<Fact>, p: string): set<Fact> {
    set f | f in F && (f.payload.PlanCreated? || f.payload.PlanLifecycleChanged?) && f.payload.plan == p
  }

  function Claims(F: set<Fact>): set<string> { set f | f in F && f.payload.ClaimRecorded? :: f.id }

  function Observations(F: set<Fact>): set<string> { set f | f in F && f.payload.ObservationRecorded? :: f.id }

  function Ids(F: set<Fact>): set<string> { set f | f in F :: f.id }

  // ---- the dependency predicate and the work row, as functions of what is stored ----

  function DepStateOf(o: Outcome): DepState {
    match o
    case Success => Satisfied
    case Failure => FailedDep
    case Conflicted => ConflictedDep
    case ExecutionUnknown => Pending
  }

  function OwnExecution(o: Outcome): Execution {
    match o
    case Success => Finished
    case Failure => Retryable
    case Conflicted => HasResult
    case ExecutionUnknown => Unknown
  }

  function LatestOutcome(F: set<Fact>, Q: set<string>, w: string): Option<Outcome> {
    match Latest(Live(F, Q, w)) case None => None case Some(f) => Some(f.payload.outcome)
  }

  function EdgeState(F: set<Fact>, Q: set<string>, d: string): DepState {
    if RetiredIn(F, d) then RetiredDep
    else match LatestOutcome(F, Q, d) case None => Pending case Some(o) => DepStateOf(o)
  }

  function EdgesOf(deps: map<Dep, Edge>, w: string): map<string, Edge> {
    map d | d in (set k | k in deps && k.work == w :: k.dependency) :: deps[Dep(w, d)]
  }

  predicate Resolving(e: Edge) { e.state == Satisfied || e.state == ConflictedDep }

  // ready or blocked, for the policy the readiness pass reads off its first row
  function Readiness(edges: map<string, Edge>, policy: Policy): Execution {
    if edges == map[] then IsReady
    else if policy == ANY then
      if exists d :: d in edges && Resolving(edges[d]) then IsReady else IsBlocked
    else if forall d :: d in edges ==> Resolving(edges[d]) then IsReady
    else IsBlocked
  }

  function ExecutionOf(F: set<Fact>, Q: set<string>, edges: map<string, Edge>, w: string, policy: Policy): Execution {
    if RetiredIn(F, w) then IsRetired
    else match LatestOutcome(F, Q, w)
      case Some(o) => OwnExecution(o)
      case None => Readiness(edges, policy)
  }

  function RowOf(F: set<Fact>, Q: set<string>, edges: map<string, Edge>, w: string, policy: Policy): Option<WorkRow> {
    match Latest(Derives(F, w))
    case None => None
    case Some(f) =>
      Some(WorkRow(f.payload.plan, f.payload.workKind, f.payload.subject, f.payload.role,
                   ExecutionOf(F, Q, edges, w, policy)))
  }

  function PlanOf(F: set<Fact>, p: string): Option<PlanRow> {
    match (Latest(Creations(F, p)), Latest(Lifecycles(F, p)))
    case (Some(c), Some(l)) =>
      Some(PlanRow(c.payload.project, c.payload.objective, c.payload.rationale, l.payload.lifecycle,
                   if l.payload.PlanCreated? then None else l.payload.endReason))
    case _ => None
  }

  // ---- one reduction ----

  predicate AboutWork(f: Fact, w: string) {
    (f.payload.WorkDerived? || f.payload.ResultRecorded? || f.payload.WorkRetired?) && f.payload.work == w
  }

  predicate AboutPlan(f: Fact, p: string) {
    (f.payload.PlanCreated? || f.payload.PlanLifecycleChanged?) && f.payload.plan == p
  }

  // _requarantine_occurrence: the earliest consumer keeps the key, every other is inert.
  function Requarantined(F: set<Fact>, q: map<string, Quarantined>, w: string, k: string): map<string, Quarantined> {
    match Earliest(Consumers(F, w, k))
    case None => q
    case Some(winner) =>
      var kept := map id | id in q && !(q[id].work == w && q[id].key == k) :: q[id];
      (map id | id in Ids(Consumers(F, w, k) - {winner}) :: Quarantined(w, k, winner.id)) + kept
  }

  function QuarantineAfter(F: set<Fact>, q: map<string, Quarantined>, e: Fact): map<string, Quarantined> {
    if e.payload.ResultRecorded? && e.payload.occurrenceKey.Some? then
      Requarantined(F, q, e.payload.work, e.payload.occurrenceKey.value)
    else q
  }

  // Resolve the edges that depend on d: a retirement fact marks them all, otherwise the
  // latest live result overwrites every edge not already retired, and with no result
  // nothing moves.
  function Resolved(F: set<Fact>, Q: set<string>, edge: Edge, d: string): Edge {
    if RetiredIn(F, d) then edge.(state := RetiredDep)
    else match LatestOutcome(F, Q, d)
      case None => edge
      case Some(o) => if edge.state == RetiredDep then edge else edge.(state := DepStateOf(o))
  }

  function DepsAfter(F: set<Fact>, Q: set<string>, deps: map<Dep, Edge>, e: Fact): map<Dep, Edge> {
    match e.payload
    case WorkDependencyDeclared(w, d, policy) =>
      var k := Dep(w, d);
      deps[k := Resolved(F, Q, if k in deps then deps[k] else Edge(policy, Pending), d)]
    case ResultRecorded(w, _, _, _) =>
      map k | k in deps :: if k.dependency == w then Resolved(F, Q, deps[k], w) else deps[k]
    case WorkRetired(w, _) => map k | k in deps :: if k.dependency == w then Resolved(F, Q, deps[k], w) else deps[k]
    case _ => deps
  }

  // The works whose rows the reduction of e recomputes, given the edges it leaves behind.
  function Touched(deps: map<Dep, Edge>, e: Fact): set<string> {
    match e.payload
    case WorkDerived(w, _, _, _, _) => {w}
    case WorkDependencyDeclared(w, _, _) => {w}
    case ResultRecorded(w, _, _, _) => {w} + set k | k in deps && k.dependency == w :: k.work
    case WorkRetired(w, _) => {w} + set k | k in deps && k.dependency == w :: k.work
    case _ => {}
  }

  // Row w is what the fold computes from the stored facts, quarantine and edges. The
  // readiness pass takes the policy of whichever edge row the database returns first, so
  // any policy some row holds is allowed.
  predicate RowCurrent(F: set<Fact>, Q: set<string>, deps: map<Dep, Edge>, works: map<string, WorkRow>, w: string) {
    var edges := EdgesOf(deps, w);
    if Latest(Derives(F, w)).None? then w !in works
    else
      && w in works
      && ((edges == map[] && Some(works[w]) == RowOf(F, Q, edges, w, ALL))
          || exists d :: d in edges && Some(works[w]) == RowOf(F, Q, edges, w, edges[d].policy))
  }

  function LinksAfter(held: set<string>, links: map<Link, LinkRow>, e: Fact): map<Link, LinkRow> {
    var filled := map l | l in links ::
      LinkRow(links[l].resolved || l.target == e.id, links[l].sourceKnown || l.source == e.id);
    if e.payload.LinkAsserted? && e.payload.link !in filled then
      filled[e.payload.link := LinkRow(e.payload.link.target in held, e.payload.link.source in held)]
    else filled
  }

  function ResolvedLinks(links: map<Link, LinkRow>): set<Link> { set l | l in links && links[l].resolved }

  // Standing is recomputed when a link row changed or could have gained meaning.
  predicate Touches(links: map<Link, LinkRow>, links': map<Link, LinkRow>, e: Fact) {
    || e.payload.LinkAsserted? || e.payload.ObservationRecorded? || e.payload.ClaimRecorded?
    || exists l :: l in links && l in links' && links[l] != links'[l]
  }

  // Exactly the touched works that have been derived are refolded.
  ghost predicate WorksStep(F: set<Fact>, Q: set<string>, deps: map<Dep, Edge>, works: map<string, WorkRow>,
                            works': map<string, WorkRow>,
                            touched: set<string>) {
    && (forall w :: w in touched && Latest(Derives(F, w)).Some? ==> RowCurrent(F, Q, deps, works', w))
    && (forall w :: w !in touched || Latest(Derives(F, w)).None? ==>
          (w in works' <==> w in works) && (w in works ==> works'[w] == works[w]))
  }

  ghost predicate PlansStep(F: set<Fact>, plans: map<string, PlanRow>, plans': map<string, PlanRow>, e: Fact) {
    && (forall p :: AboutPlan(e, p) && PlanOf(F, p).Some? ==> p in plans' && plans'[p] == PlanOf(F, p).value)
    && (forall p :: !AboutPlan(e, p) || PlanOf(F, p).None? ==>
          (p in plans' <==> p in plans) && (p in plans ==> plans'[p] == plans[p]))
  }

  // reduce(e): every table after it, in terms of every table before it.
  ghost predicate Reduced(t: Tables, e: Fact, t': Tables) {
    var Q := t'.quarantine.Keys;
    && t'.held == t.held && t'.facts == t.facts
    && t'.quarantine == QuarantineAfter(t.facts, t.quarantine, e)
    && t'.deps == DepsAfter(t.facts, Q, t.deps, e)
    && WorksStep(t.facts, Q, t'.deps, t.works, t'.works, Touched(t'.deps, e))
    && PlansStep(t.facts, t.plans, t'.plans, e)
    && t'.links == LinksAfter(t.held, t.links, e)
    && t'.standings ==
         (if Touches(t.links, t'.links, e) then
            t.standings + StandingTable(Claims(t.facts), Observations(t.facts), ResolvedLinks(t'.links))
          else t.standings)
  }

  // ---- closed forms over a fact set alone ----

  // f lost its occurrence key: an earlier result of the same work consumed it first.
  ghost predicate Loses(F: set<Fact>, f: Fact) {
    && f.payload.ResultRecorded? && f.payload.occurrenceKey.Some?
    && exists g :: g in Consumers(F, f.payload.work, f.payload.occurrenceKey.value) && Precedes(g, f)
  }

  ghost function QuarantineOf(F: set<Fact>): set<string> { set f | f in F && Loses(F, f) :: f.id }

  ghost function DeclaredDeps(F: set<Fact>): set<Dep> {
    set f | f in F && f.payload.WorkDependencyDeclared? :: Dep(f.payload.work, f.payload.dependency)
  }

  ghost predicate DeclaredPolicy(F: set<Fact>, w: string, d: string, policy: Policy) {
    exists f :: f in F && f.payload == WorkDependencyDeclared(w, d, policy)
  }

  ghost function AssertedLinks(F: set<Fact>): set<Link> {
    set f | f in F && f.payload.LinkAsserted? :: f.payload.link
  }

  // Every table that is meant to be a pure function of the facts, is one.
  ghost predicate ClosedForm(t: Tables) {
    var F := t.facts;
    && t.quarantine.Keys == QuarantineOf(F)
    && t.deps.Keys == DeclaredDeps(F)
    && (forall k :: k in t.deps ==> t.deps[k].state == EdgeState(F, QuarantineOf(F), k.dependency)
                                    && DeclaredPolicy(F, k.work, k.dependency, t.deps[k].policy))
    && (forall w :: RowCurrent(F, QuarantineOf(F), t.deps, t.works, w))
    && (forall p :: (if PlanOf(F, p).Some? then p in t.plans && t.plans[p] == PlanOf(F, p).value else p !in t.plans))
    && t.links.Keys == AssertedLinks(F)
    && (forall l :: l in t.links && l.target in Ids(F) ==> t.links[l].resolved)
    && t.standings == StandingTable(Claims(F), Observations(F), AssertedLinks(F))
  }
}
