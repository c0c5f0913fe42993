// The reducers as they run (kawa/projections/reducers.py): an object whose tables are
// updated in place, proved against the step relation of Fold and driven to the closed
// form by Rebuild.

module Reducers {
  import opened Prelude
  import opened Vocabulary
  import opened Support
  import opened Fold
  import opened Confluence
  import opened Convergence
  import S = Schedules

  function CountResolving(rows: seq<Edge>): nat {
    if rows == [] then 0 else (if Resolving(rows[0]) then 1 else 0) + CountResolving(rows[1..])
  }

  lemma {:induction false} CountingResolving(rows: seq<Edge>)
    ensures CountResolving(rows) <= |rows|
    ensures CountResolving(rows) == |rows| <==> forall i :: 0 <= i < |rows| ==> Resolving(rows[i])
    ensures CountResolving(rows) >= 1 <==> exists i :: 0 <= i < |rows| && Resolving(rows[i])
  {
    if rows != [] {
      var tail := rows[1..];
      CountingResolving(tail);
      if i :| 0 <= i < |tail| && Resolving(tail[i]) { assert Resolving(rows[i + 1]); }
      if i :| 0 <= i < |rows| && Resolving(rows[i]) { assert i > 0 ==> Resolving(tail[i - 1]); }
      if forall i :: 0 <= i < |rows| ==> Resolving(rows[i]) {
        forall i | 0 <= i < |tail| ensures Resolving(tail[i]) { assert Resolving(rows[i + 1]); }
      }
      if forall i :: 0 <= i < |tail| ==> Resolving(tail[i]) {
        forall i | 1 <= i < |rows| ensures Resolving(rows[i]) { assert Resolving(tail[i - 1]); }
      }
    }
  }

  ghost predicate RowOfWork(row: Edge, edges: map<string, Edge>) { exists d :: d in edges && edges[d] == row }

  // rows lists exactly the edge rows of one work, in some order.
  ghost predicate Lists(rows: seq<Edge>, edges: map<string, Edge>) {
    && (forall i :: 0 <= i < |rows| ==> RowOfWork(rows[i], edges))
    && (forall d :: d in edges ==> edges[d] in rows)
  }

  lemma ReadinessFromRows(rows: seq<Edge>, edges: map<string, Edge>, policy: Policy)
    requires Lists(rows, edges)
    ensures rows == [] <==> edges == map[]
    ensures rows != [] && policy == ANY ==>
            Readiness(edges, policy) == (if CountResolving(rows) >= 1 then IsReady else IsBlocked)
    ensures rows != [] && policy == ALL ==>
            Readiness(edges, policy) == (if CountResolving(rows) == |rows| then IsReady else IsBlocked)
  {
    CountingResolving(rows);
    if rows != [] {
      assert RowOfWork(rows[0], edges);
      var d :| d in edges && edges[d] == rows[0];
      assert edges != map[];
    }
    if d :| d in edges {
      assert edges[d] in rows;
    } else {
      assert edges == map[];
    }
    if d :| d in edges && Resolving(edges[d]) {
      var i :| 0 <= i < |rows| && rows[i] == edges[d];
      assert Resolving(rows[i]);
    }
    if i :| 0 <= i < |rows| && Resolving(rows[i]) {
      assert RowOfWork(rows[i], edges);
      var d :| d in edges && edges[d] == rows[i];
      assert Resolving(edges[d]);
    }
    if i :| 0 <= i < |rows| && !Resolving(rows[i]) {
      assert RowOfWork(rows[i], edges);
      var d :| d in edges && edges[d] == rows[i];
      assert !Resolving(edges[d]);
    }
    if d :| d in edges && !Resolving(edges[d]) {
      var i :| 0 <= i < |rows| && rows[i] == edges[d];
      assert !Resolving(rows[i]);
    }
  }

  class Projector {
    var held: set<string>
    var facts: set<Fact>
    var plans: map<string, PlanRow>
    var works: map<string, WorkRow>
    var deps: map<Dep, Edge>
    var quarantine: map<string, Quarantined>
    var links: map<Link, LinkRow>
    var standings: map<string, Standing>

    ghost function T(): Tables
      reads this
    {
      Tables(held, facts, plans, works, deps, quarantine, links, standings)
    }

    constructor ()
      ensures T() == Tables({}, {}, map[], map[], map[], map[], map[], map[])
    {
      held, facts := {}, {};
      plans, works, deps, quarantine, links, standings := map[], map[], map[], map[], map[], map[];
    }

    method HoldStub(id: string)
      modifies this`held
      ensures T() == old(T()).(held := old(held) + {id})
    {
      held := held + {id};
    }

    method InsertFact(f: Fact)
      modifies this`held, this`facts
      ensures T() == old(T()).(held := old(held) + {f.id}, facts := old(facts) + {f})
    {
      held, facts := held + {f.id}, facts + {f};
    }

    // INSERT one quarantine row per losing consumer, ON CONFLICT (event_id) DO NOTHING.
    method InsertLosers(losers: set<string>, row: Quarantined)
      modifies this`quarantine
      ensures quarantine == (map id | id in losers :: row) + old(quarantine)
    {
      var todo := losers;
      ghost var inserted: set<string> := {};
      while todo != {}
        invariant inserted + todo == losers
        invariant quarantine == (map id | id in inserted :: row) + old(quarantine)
        decreases todo
      {
        var loser :| loser in todo;
        if loser !in quarantine {
          quarantine := quarantine[loser := row];
        }
        todo, inserted := todo - {loser}, inserted + {loser};
      }
      assert inserted == losers;
    }

    // Delete the key's rows, then let every consumer but the earliest lose it.
    method RequarantineOccurrence(w: string, k: string)
      modifies this`quarantine
      ensures quarantine == Requarantined(facts, old(quarantine), w, k)
    {
      var consumers := Consumers(facts, w, k);
      var winner := Earliest(consumers);
      if winner.None? {
        return;
      }
      quarantine := map id | id in quarantine && !(quarantine[id].work == w && quarantine[id].key == k) ::
        quarantine[id];
      InsertLosers(Ids(consumers - {winner.value}), Quarantined(w, k, winner.value.id));
    }

    // SELECT of a work's dependency rows: every row once, in whatever order the store has.
    method DependencyRows(w: string) returns (rows: seq<Edge>)
      ensures Lists(rows, EdgesOf(deps, w))
    {
      var edges := EdgesOf(deps, w);
      var todo := edges.Keys;
      rows := [];
      while todo != {}
        invariant todo <= edges.Keys
        invariant forall i :: 0 <= i < |rows| ==> RowOfWork(rows[i], edges)
        invariant forall d :: d in edges.Keys - todo ==> edges[d] in rows
        decreases todo
      {
        var d :| d in todo;
        assert RowOfWork(edges[d], edges);
        rows, todo := rows + [edges[d]], todo - {d};
      }
    }

    // _recompute_readiness: counts over the rows, the policy off the first one.
    method RecomputeReadiness(w: string)
      requires w in works
      modifies this`works
      ensures works.Keys == old(works).Keys && forall x :: x in works && x != w ==> works[x] == old(works)[x]
      ensures old(works)[w].execution != IsRetired ==>
        var edges := EdgesOf(deps, w);
        if edges == map[] then works[w] == old(works)[w].(execution := Readiness(edges, ALL))
        else exists d :: d in edges && works[w] == old(works)[w].(execution := Readiness(edges, edges[d].policy))
    {
      var rows := DependencyRows(w);
      var total, resolved := |rows|, CountResolving(rows);
      var hasFailed := exists i :: 0 <= i < |rows| && rows[i].state == FailedDep;
      var hasRetired := exists i :: 0 <= i < |rows| && rows[i].state == RetiredDep;
      var policy := if rows != [] then rows[0].policy else ALL;
      CountingResolving(rows);
      assert rows != [] ==> RowOfWork(rows[0], EdgesOf(deps, w));
      ReadinessFromRows(rows, EdgesOf(deps, w), policy);
      var execution;
      if total == 0 {
        execution := IsReady;
      } else if policy == ANY {
        execution := if resolved >= 1 then IsReady else IsBlocked;
      } else if hasRetired || hasFailed {
        execution := IsBlocked;
      } else if resolved == total {
        execution := IsReady;
      } else {
        execution := IsBlocked;
      }
      assert execution == Readiness(EdgesOf(deps, w), policy);
      if works[w].execution != IsRetired {
        works := works[w := works[w].(execution := execution)];
      }
    }

    // recompute_work_state: the one writer of a work row.
    method RecomputeWorkState(w: string)
      modifies this`works
      ensures forall x :: x != w ==> (x in works <==> x in old(works)) && (x in works ==> works[x] == old(works)[x])
      ensures if Latest(Derives(facts, w)).Some? then RowCurrent(facts, quarantine.Keys, deps, works, w)
              else works == old(works)
    {
      var derive := Latest(Derives(facts, w));
      if derive.None? {
        return;
      }
      var retired := RetiredIn(facts, w);
      var result := LatestOutcome(facts, quarantine.Keys, w);
      var execution := if retired then IsRetired else if result.Some? then OwnExecution(result.value) else IsReady;
      var p := derive.value.payload;
      works := works[w := WorkRow(p.plan, p.workKind, p.subject, p.role, execution)];
      if !retired && result.None? {
        RecomputeReadiness(w);
      }
    }

    // One UPDATE over the edges that depend on w: retirement marks them all; otherwise the
    // latest live result, where there is one, overwrites every edge not already retired.
    method ResolveEdges(w: string, only: Option<string>)
      modifies this`deps
      ensures deps == map k | k in old(deps) ::
        if k.dependency == w && (only.None? || k.work == only.value)
          then Resolved(facts, quarantine.Keys, old(deps)[k], w)
        else old(deps)[k]
    {
      if RetiredIn(facts, w) {
        deps := map k | k in deps ::
          if k.dependency == w && (only.None? || k.work == only.value) then deps[k].(state := RetiredDep) else deps[k];
      } else {
        ApplyLatestResultToDependents(w, only);
      }
    }

    method ApplyLatestResultToDependents(w: string, only: Option<string>)
      modifies this`deps
      ensures LatestOutcome(facts, quarantine.Keys, w).None? ==> deps == old(deps)
      ensures LatestOutcome(facts, quarantine.Keys, w).Some? ==>
        deps == (map k | k in old(deps) ::
          if k.dependency == w && (only.None? || k.work == only.value) && old(deps)[k].state != RetiredDep
          then old(deps)[k].(state := DepStateOf(LatestOutcome(facts, quarantine.Keys, w).value)) else old(deps)[k])
    {
      var outcome := LatestOutcome(facts, quarantine.Keys, w);
      if outcome.None? {
        return;
      }
      deps := map k | k in deps ::
        if k.dependency == w && (only.None? || k.work == only.value) && deps[k].state != RetiredDep
        then deps[k].(state := DepStateOf(outcome.value)) else deps[k];
    }

    // _propagate_to_dependents: resolve every edge on w, then refold each dependent.
    method PropagateToDependents(w: string)
      modifies this`deps, this`works
      ensures deps == map k | k in old(deps) ::
                if k.dependency == w then Resolved(facts, quarantine.Keys, old(deps)[k], w) else old(deps)[k]
      ensures WorksStep(facts, quarantine.Keys, deps, old(works), works, Dependents(deps, w))
    {
      ResolveEdges(w, None);
      ghost var resolved := deps;
      var dependents := Dependents(deps, w);
      var todo := dependents;
      while todo != {}
        invariant todo <= dependents && deps == resolved
        invariant WorksStep(facts, quarantine.Keys, deps, old(works), works, dependents - todo)
        decreases todo
      {
        var dependent :| dependent in todo;
        ghost var before := works;
        RecomputeWorkState(dependent);
        forall x | x in dependents - todo && Latest(Derives(facts, x)).Some?
          ensures RowCurrent(facts, quarantine.Keys, deps, works, x)
        {
          RowFrame(facts, quarantine.Keys, quarantine.Keys, deps, deps, before, works, x);
        }
        todo := todo - {dependent};
      }
    }

    // recompute_plan_state: the one writer of a plan row.
    method RecomputePlanState(p: string)
      modifies this`plans
      ensures plans == if PlanOf(facts, p).Some? then old(plans)[p := PlanOf(facts, p).value] else old(plans)
    {
      var created := Latest(Creations(facts, p));
      if created.None? {
        return;
      }
      var latest := Latest(Lifecycles(facts, p));
      if latest.Some? {
        var c, l := created.value.payload, latest.value.payload;
        plans := plans[p := PlanRow(c.project, c.objective, c.rationale, l.lifecycle,
            if l.PlanCreated? then None else l.endReason)];
      }
    }

    // For each target, the sources that support it, in whatever order the links come back.
    method BuildAdjacency(resolved: set<Link>) returns (supportsInto: map<string, seq<string>>)
      ensures Adjacency(supportsInto, resolved)
    {
      supportsInto := map[];
      var todo := resolved;
      while todo != {}
        invariant todo <= resolved
        invariant forall t, i :: t in supportsInto && 0 <= i < |supportsInto[t]| ==>
                  Link(supportsInto[t][i], Supports, t) in resolved
        invariant forall s, t :: Link(s, Supports, t) in resolved - todo ==> t in supportsInto && s in supportsInto[t]
        decreases todo
      {
        var l :| l in todo;
        if l.relation == Supports {
          var into := if l.target in supportsInto then supportsInto[l.target] else [];
          supportsInto := supportsInto[l.target := into + [l.source]];
        }
        todo := todo - {l};
      }
    }

    // _recompute_standing over every claim the payload table holds.
    method RecomputeStanding()
      modifies this`standings
      ensures standings == old(standings) + StandingTable(Claims(facts), Observations(facts), ResolvedLinks(links))
    {
      var claims, observations, resolved := Claims(facts), Observations(facts), ResolvedLinks(links);
      if claims == {} {
        return;
      }
      var superseded := SupersededClaims(claims, resolved);
      var supportsInto := BuildAdjacency(resolved);
      var contradicted := ContradictedClaims(claims, observations, resolved);
      var todo := claims;
      ghost var judged: map<string, Standing> := map[];
      while todo != {}
        invariant todo <= claims
        invariant standings == old(standings) + judged
        invariant judged.Keys == claims - todo && forall c :: c in judged ==>
                  judged[c] == StandingOf(c, claims, observations, resolved)
        decreases todo
      {
        var c :| c in todo;
        var standing := JudgeClaim(c, supportsInto, claims, observations, superseded, contradicted, resolved);
        JoinOne(old(standings), judged, c, standing);
        standings, judged := standings[c := standing], judged[c := standing];
        todo := todo - {c};
      }
      assert judged == StandingTable(claims, observations, resolved);
    }

    static method JudgeClaim(c: string, supportsInto: map<string, seq<string>>, C: set<string>, O: set<string>,
                             superseded: set<string>,
                             contradicted: set<string>, ghost L: set<Link>) returns (standing: Standing)
      requires Adjacency(supportsInto, L) && c in C
      requires forall x :: x in superseded <==> IsSuperseded(x, C, L)
      requires forall x :: x in contradicted <==> IsContradicted(x, C, O, L)
      ensures standing == StandingOf(c, C, O, L)
    {
      if c in superseded {
        standing := SupersededClaim;
      } else {
        var g := IsGrounded(c, supportsInto, C, O, superseded, L);
        var k := c in contradicted;
        standing := if g && k then Contested else if g then GroundedSupported
                    else if k then Contradicted else Unevaluated;
      }
    }

    // The universal backfill and, for a link event, the insert that keeps the first asserter.
    method UpdateLinks(e: Fact) returns (touched: bool)
      modifies this`links
      ensures links == LinksAfter(held, old(links), e)
      ensures Touches(old(links), links, e) <==> touched || e.payload.ObservationRecorded? || e.payload.ClaimRecorded?
    {
      touched := exists l ::
        l in links && ((l.target == e.id && !links[l].resolved) || (l.source == e.id && !links[l].sourceKnown));
      ghost var before := links;
      links := map l | l in links ::
        LinkRow(links[l].resolved || l.target == e.id, links[l].sourceKnown || l.source == e.id);
      assert touched <==> exists l :: l in before && l in links && before[l] != links[l] by {
        if l :| l in before
                && ((l.target == e.id && !before[l].resolved) || (l.source == e.id && !before[l].sourceKnown)) {
          assert l in links && before[l] != links[l];
        }
      }
      if e.payload.LinkAsserted? {
        if e.payload.link !in links {
          links := links[e.payload.link := LinkRow(e.payload.link.target in held, e.payload.link.source in held)];
        }
        touched := true;
      }
    }

    // The plan half of reduce().
    method ReducePlan(e: Fact)
      modifies this`plans
      ensures PlansStep(facts, old(plans), plans, e)
    {
      match e.payload {
        case PlanCreated(p, _, _, _, _) => RecomputePlanState(p);
        case PlanLifecycleChanged(p, _, _) => RecomputePlanState(p);
        case _ =>
      }
    }

    // The work half of reduce(): quarantine, then edges, then rows.
    method ReduceWork(e: Fact)
      modifies this`works, this`deps, this`quarantine
      ensures quarantine == QuarantineAfter(facts, old(quarantine), e)
      ensures deps == DepsAfter(facts, quarantine.Keys, old(deps), e)
      ensures WorksStep(facts, quarantine.Keys, deps, old(works), works, Touched(deps, e))
    {
      match e.payload {
        case WorkDerived(w, _, _, _, _) =>
          RecomputeWorkState(w);
        case WorkDependencyDeclared(w, d, policy) =>
          DeclareDependency(w, d, policy);
          RecomputeWorkState(w);
        case ResultRecorded(w, _, _, key) =>
          if key.Some? {
            RequarantineOccurrence(w, key.value);
          }
          RecomputeAndPropagate(w);
        case WorkRetired(w, _) =>
          RecomputeAndPropagate(w);
        case _ =>
      }
    }

    // Insert the edge if absent, then resolve it from the facts right away.
    method DeclareDependency(w: string, d: string, policy: Policy)
      modifies this`deps
      ensures var edge := if Dep(w, d) in old(deps) then old(deps)[Dep(w, d)] else Edge(policy, Pending);
              deps == old(deps)[Dep(w, d) := Resolved(facts, quarantine.Keys, edge, d)]
    {
      if Dep(w, d) !in deps {
        deps := deps[Dep(w, d) := Edge(policy, Pending)];
      }
      ResolveEdges(d, Some(w));
    }

    // reduce(): one stored event folded into the projections.
    method Reduce(e: Fact)
      requires e in facts
      modifies this`plans, this`works, this`deps, this`quarantine, this`links, this`standings
      ensures Reduced(old(T()), e, T())
    {
      ghost var t := T();
      var touchedLinks := UpdateLinks(e);
      ReducePlan(e);
      ReduceWork(e);
      ReduceEvidence(e, touchedLinks);
      ReducedFromParts(t, e, T());
    }

    // A claim starts unevaluated; standing is refolded when evidence could have moved.
    method ReduceEvidence(e: Fact, touchedLinks: bool)
      requires e in facts
      modifies this`standings
      ensures standings ==
        if touchedLinks || e.payload.ObservationRecorded? || e.payload.ClaimRecorded? then
          old(standings) + StandingTable(Claims(facts), Observations(facts), ResolvedLinks(links))
        else old(standings)
    {
      if e.payload.ClaimRecorded? && e.id !in standings {
        standings := standings[e.id := Unevaluated];
      }
      if touchedLinks || e.payload.ObservationRecorded? || e.payload.ClaimRecorded? {
        RecomputeStanding();
        ClaimCovered(facts, e, ResolvedLinks(links));
      }
    }

    // Incremental application: insert, then reduce. With nothing else pending the
    // projections are in closed form after every delivery.
    method Deliver(f: Fact, ghost done: set<Fact>)
      requires Inv(Config(T(), done)) && f.id !in Ids(facts)
      modifies this
      ensures facts == old(facts) + {f} && held == old(held) + {f.id}
      ensures Inv(Config(T(), done + {f}))
      ensures done == old(facts) ==> ClosedForm(T())
    {
      ghost var c := Config(T(), done);
      InsertFact(f);
      ghost var c1 := Config(T(), done);
      InvInsert(c, f, c1);
      Reduce(f);
      ghost var c2 := Config(T(), done + {f});
      InvReduce(c1, f, c2);
      if done == c.t.facts {
        CompleteIsClosed(c2);
      }
    }

    method Replay(e: Fact, ghost done: set<Fact>)
      requires Inv(Config(T(), done)) && e in facts
      modifies this`plans, this`works, this`deps, this`quarantine, this`links, this`standings
      ensures Inv(Config(T(), done + {e}))
    {
      ghost var c := Config(T(), done);
      Reduce(e);
      InvReduce(c, e, Config(T(), done + {e}));
    }

    method Truncate()
      requires Keyed(facts) && Ids(facts) <= held
      modifies this`plans, this`works, this`deps, this`quarantine, this`links, this`standings
      ensures T() == Emptied(old(T())) && Inv(Config(T(), {}))
    {
      plans, works, deps, quarantine, links, standings := map[], map[], map[], map[], map[], map[];
      InvEmptied(T());
    }

    // Truncate the projections and replay the log in the order it loads.
    method Rebuild(log: seq<Fact>)
      requires Keyed(facts) && Ids(facts) <= held
      requires forall f :: f in log <==> f in facts
      modifies this`plans, this`works, this`deps, this`quarantine, this`links, this`standings
      ensures ClosedForm(T())
    {
      Truncate();
      ghost var done: set<Fact> := {};
      for i := 0 to |log|
        invariant Inv(Config(T(), done)) && done == S.Elements(log[..i])
      {
        Replay(log[i], done);
        ElementsNext(log, i);
        done := done + {log[i]};
      }
      assert log[..|log|] == log;
      AllReplayed(log, done, T());
    }

    method RecomputeAndPropagate(w: string)
      modifies this`deps, this`works
      ensures deps == map k | k in old(deps) ::
                if k.dependency == w then Resolved(facts, quarantine.Keys, old(deps)[k], w) else old(deps)[k]
      ensures WorksStep(facts, quarantine.Keys, deps, old(works), works, {w} + Dependents(deps, w))
    {
      RecomputeWorkState(w);
      ghost var deps0, works0 := deps, works;
      PropagateToDependents(w);
      if w !in Dependents(deps, w) && Latest(Derives(facts, w)).Some? {
        OwnEdgesUnmoved(deps0, deps, w);
        RowFrame(facts, quarantine.Keys, quarantine.Keys, deps0, deps, works0, works, w);
      }
    }
  }

  function Dependents(deps: map<Dep, Edge>, w: string): set<string> { set k | k in deps && k.dependency == w :: k.work }

  lemma JoinOne<X, Y>(a: map<X, Y>, b: map<X, Y>, x: X, y: Y)
    ensures (a + b)[x := y] == a + b[x := y]
  {
  }

  lemma ElementsNext(s: seq<Fact>, i: nat)
    requires i < |s|
    ensures S.Elements(s[..i + 1]) == S.Elements(s[..i]) + {s[i]}
  {
    assert s[..i + 1] == s[..i] + [s[i]];
  }

  lemma AllReplayed(log: seq<Fact>, done: set<Fact>, t: Tables)
    requires Inv(Config(t, done))
    requires forall f :: f in log <==> f in t.facts
    requires done == S.Elements(log)
    ensures ClosedForm(t)
  {
    assert done == t.facts;
    CompleteIsClosed(Config(t, done));
  }

  lemma ReducedFromParts(t: Tables, e: Fact, t': Tables)
    requires t'.held == t.held && t'.facts == t.facts
    requires t'.quarantine == QuarantineAfter(t.facts, t.quarantine, e)
    requires t'.deps == DepsAfter(t.facts, t'.quarantine.Keys, t.deps, e)
    requires WorksStep(t.facts, t'.quarantine.Keys, t'.deps, t.works, t'.works, Touched(t'.deps, e))
    requires PlansStep(t.facts, t.plans, t'.plans, e)
    requires t'.links == LinksAfter(t.held, t.links, e)
    requires t'.standings ==
      if Touches(t.links, t'.links, e)
        then t.standings + StandingTable(Claims(t.facts), Observations(t.facts), ResolvedLinks(t'.links))
      else t.standings
    ensures Reduced(t, e, t')
  {
  }

  lemma ClaimCovered(F: set<Fact>, e: Fact, L: set<Link>)
    requires e in F
    ensures e.payload.ClaimRecorded? ==> e.id in StandingTable(Claims(F), Observations(F), L)
  {
  }

  lemma OwnEdgesUnmoved(deps: map<Dep, Edge>, deps': map<Dep, Edge>, w: string)
    requires deps.Keys == deps'.Keys && w !in Dependents(deps', w)
    requires forall k :: k in deps && k.dependency != w ==> deps'[k] == deps[k]
    ensures EdgesOf(deps, w) == EdgesOf(deps', w)
  {
    forall d ensures d in EdgesOf(deps, w) <==> d in EdgesOf(deps', w)
      ensures d in EdgesOf(deps, w) ==> EdgesOf(deps, w)[d] == EdgesOf(deps', w)[d]
    {
      assert d in EdgesOf(deps, w) <==> Dep(w, d) in deps;
      assert d in EdgesOf(deps', w) <==> Dep(w, d) in deps';
      assert Dep(w, w) in deps' ==> w in Dependents(deps', w);
    }
  }
}
