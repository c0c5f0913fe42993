// The ledger of reductions: over any interleaving of deliveries the reducers see exactly
// the materialized events, each once, so a replica's projections are in closed form.

module Ledger {
  import opened Vocabulary
  import Hlc
  import opened Fold
  import opened Confluence
  import opened Convergence
  import opened Schedules
  import opened Replication

  ghost function Materialized(log: Log): set<Fact> {
    set p | p in log && log[p].payload.Some? && Hlc.Parse(log[p].hlc).Some? :: FactOf(log[p])
  }

  ghost function LogIds(log: Log): set<string> { set p | p in log :: log[p].id }

  function StepIds(history: seq<Step>): set<string> {
    set s | s in history && (s.Insert? || s.HoldStub?) :: if s.Insert? then s.f.id else s.id
  }

  // Every reduction directly follows its own insert, inserts are of fresh ids, and the
  // projections are never truncated along the way.
  ghost predicate WellOrdered(history: seq<Step>) {
    && (forall i :: 0 <= i < |history| ==> !history[i].Truncate?)
    && (forall i :: 0 <= i < |history| && history[i].Reduce? ==> i > 0 && history[i - 1] == Insert(history[i].f))
    && (forall i, j :: 0 <= i < j < |history| && history[i].Insert? && history[j].Insert? ==>
         history[i].f.id != history[j].f.id)
  }

  // Each materialized event was inserted and reduced exactly once, and nothing else was.
  ghost predicate CountsOnce(log: Log, history: seq<Step>) {
    forall f: Fact :: multiset(history)[Reduce(f)] == (if f in Materialized(log) then 1 else 0)
  }

  ghost predicate Inserted(log: Log, history: seq<Step>) {
    forall f: Fact :: Insert(f) in history <==> f in Materialized(log)
  }

  ghost predicate LedgerInv(log: Log, history: seq<Step>) {
    WellOrdered(history) && CountsOnce(log, history) && Inserted(log, history) && StepIds(history) == LogIds(log)
  }

  // ---- identities name positions ----

  lemma IdNamesPosition(log: Log, p: Pos, q: Pos, e: Event)
    requires AllStored(log) && q in log && Stored(p, e) && log[q].id == e.id
    ensures p == q
  {
    assert Stored(q, log[q]);
    IdentityCommits(log[q], e);
    assert Committed(e).origin == Committed(log[q]).origin && Committed(e).seqNo == Committed(log[q]).seqNo;
  }

  lemma FactPosition(log: Log, f: Fact) returns (p: Pos)
    requires f in Materialized(log)
    ensures p in log && log[p].payload.Some? && Hlc.Parse(log[p].hlc).Some? && FactOf(log[p]) == f && log[p].id == f.id
  {
    p :| p in log && log[p].payload.Some? && Hlc.Parse(log[p].hlc).Some? && FactOf(log[p]) == f;
  }

  // ---- storing one more envelope ----

  // p either is new or held a stub, and e is what it holds afterwards.
  ghost predicate Storing(log: Log, p: Pos, e: Event) {
    && AllStored(log) && Stored(p, e)
    && (p in log ==> log[p].IsStub() && !e.IsStub() && log[p].id == e.id)
  }

  lemma FreshId(log: Log, p: Pos, e: Event)
    requires Storing(log, p, e)
    ensures forall f :: f in Materialized(log) ==> f.id != e.id
  {
    forall f | f in Materialized(log) ensures f.id != e.id {
      var q := FactPosition(log, f);
      if f.id == e.id { IdNamesPosition(log, p, q, e); }
    }
  }

  lemma MaterializedAfter(log: Log, p: Pos, e: Event)
    requires Hlc.Parse(e.hlc).Some? && (p in log ==> log[p].IsStub() && log[p].id == e.id)
    ensures Materialized(log[p := e]) == Materialized(log) + if e.payload.Some? then {FactOf(e)} else {}
    ensures LogIds(log[p := e]) == LogIds(log) + {e.id}
  {
    IdsAfter(log, p, e);
    var log' := log[p := e];
    forall f | f in Materialized(log) ensures f in Materialized(log') {
      var q := FactPosition(log, f);
      assert q in log' && log'[q] == log[q];
    }
    forall f | f in Materialized(log') ensures f in Materialized(log) || (e.payload.Some? && f == FactOf(e)) {
      var q := FactPosition(log', f);
      if q != p { assert q in log && log[q] == log'[q]; }
    }
    if e.payload.Some? { assert p in log' && FactOf(log'[p]) in Materialized(log'); }
  }

  lemma IdsAfter(log: Log, p: Pos, e: Event)
    requires p in log ==> log[p].id == e.id
    ensures LogIds(log[p := e]) == LogIds(log) + {e.id}
  {
    var log' := log[p := e];
    forall i | i in LogIds(log) ensures i in LogIds(log') {
      var q :| q in log && log[q].id == i;
      assert q in log' && log'[q].id == i;
    }
    assert p in log' && log'[p].id == e.id;
  }

  lemma OrderedAppend(history: seq<Step>, f: Fact)
    requires WellOrdered(history) && forall g :: Insert(g) in history ==> g.id != f.id
    ensures WellOrdered(history + [Insert(f), Reduce(f)])
  {
    var h := history + [Insert(f), Reduce(f)];
    forall i, j | 0 <= i < j < |h| && h[i].Insert? && h[j].Insert? ensures h[i].f.id != h[j].f.id {
      if j == |history| { assert h[i] in history; }
    }
  }

  lemma CountsFull(log: Log, log': Log, history: seq<Step>, f: Fact)
    requires CountsOnce(log, history) && Materialized(log') == Materialized(log) + {f} && f !in Materialized(log)
    ensures CountsOnce(log', history + [Insert(f), Reduce(f)])
  {
    assert multiset(history + [Insert(f), Reduce(f)]) == multiset(history) + multiset{Insert(f), Reduce(f)};
  }

  lemma InsertedFull(log: Log, log': Log, history: seq<Step>, f: Fact)
    requires Inserted(log, history) && Materialized(log') == Materialized(log) + {f}
    ensures Inserted(log', history + [Insert(f), Reduce(f)])
  {
  }

  lemma IdsFull(history: seq<Step>, f: Fact)
    ensures StepIds(history + [Insert(f), Reduce(f)]) == StepIds(history) + {f.id}
  {
    var h := history + [Insert(f), Reduce(f)];
    assert forall s :: s in h <==> s in history || s == Insert(f) || s == Reduce(f);
  }

  lemma LedgerFull(log: Log, history: seq<Step>, p: Pos, e: Event)
    requires LedgerInv(log, history) && Storing(log, p, e) && e.payload.Some?
    ensures LedgerInv(log[p := e], history + [Insert(FactOf(e)), Reduce(FactOf(e))])
  {
    var f := FactOf(e);
    FreshId(log, p, e);
    MaterializedAfter(log, p, e);
    OrderedAppend(history, f);
    CountsFull(log, log[p := e], history, f);
    InsertedFull(log, log[p := e], history, f);
    IdsFull(history, f);
  }

  lemma StubSteps(log: Log, log': Log, history: seq<Step>, id: string)
    requires CountsOnce(log, history) && Inserted(log, history) && Materialized(log') == Materialized(log)
    ensures CountsOnce(log', history + [HoldStub(id)]) && Inserted(log', history + [HoldStub(id)])
    ensures StepIds(history + [HoldStub(id)]) == StepIds(history) + {id}
  {
    var h := history + [HoldStub(id)];
    assert multiset(h) == multiset(history) + multiset{HoldStub(id)};
    assert forall s :: s in h <==> s in history || s == HoldStub(id);
  }

  lemma StubOrdered(history: seq<Step>, id: string)
    requires WellOrdered(history)
    ensures WellOrdered(history + [HoldStub(id)])
  {
  }

  lemma LedgerStub(log: Log, history: seq<Step>, p: Pos, e: Event)
    requires LedgerInv(log, history) && e.IsStub()
    requires Hlc.Parse(e.hlc).Some? && (p in log ==> log[p].IsStub() && log[p].id == e.id)
    ensures LedgerInv(log[p := e], history + [HoldStub(e.id)])
  {
    StubOrdered(history, e.id);
    MaterializedAfter(log, p, e);
    StubSteps(log, log[p := e], history, e.id);
  }

  lemma LedgerStores(log: Log, history: seq<Step>, p: Pos, e: Event)
    requires LedgerInv(log, history) && Storing(log, p, e)
    ensures LedgerInv(log[p := e], history + Reductions(e))
  {
    if e.payload.Some? { LedgerFull(log, history, p, e); } else { LedgerStub(log, history, p, e); }
  }

  // The row a storing verdict leaves at the event's position.
  function RowAfter(s: Admission, r: Receiver, e: Event): Event {
    var p := Pos(e.origin, e.seqNo);
    match Judge(s, r, e)
    case Upgrade => if p in s.log then Upgraded(s.log[p], e) else e
    case Append(drop) => if drop then Withhold(e) else e
    case _ => e
  }

  predicate Stores(v: Verdict) { v.Upgrade? || v.Append? }

  ghost predicate Effect(s: Admission, s': Admission, p: Pos, row: Event) {
    s'.log == s.log[p := row] && s'.history == s.history + Reductions(row)
  }

  lemma UpgradeEffect(s: Admission, r: Receiver, e: Event)
    requires AllStored(s.log) && Judge(s, r, e).Upgrade?
    ensures Effect(s, Admit(s, r, e), Pos(e.origin, e.seqNo), RowAfter(s, r, e))
    ensures Storing(s.log, Pos(e.origin, e.seqNo), RowAfter(s, r, e))
  {
    var p := Pos(e.origin, e.seqNo);
    UpgradeVerdict(s, r, e);
    assert Stored(p, s.log[p]);
    UpgradedStored(s.log[p], e, p);
  }

  lemma AppendEffect(s: Admission, r: Receiver, e: Event)
    requires LogInv(s.log) && Judge(s, r, e).Append?
    ensures Effect(s, Admit(s, r, e), Pos(e.origin, e.seqNo), RowAfter(s, r, e))
    ensures Storing(s.log, Pos(e.origin, e.seqNo), RowAfter(s, r, e))
  {
    var row := AppendRow(s, r, e);
    HeadFacts(s.log, e.origin);
    assert row == RowAfter(s, r, e);
  }

  lemma NoEffect(s: Admission, r: Receiver, e: Event)
    requires !Stores(Judge(s, r, e))
    ensures Admit(s, r, e).log == s.log && Admit(s, r, e).history == s.history && Admit(s, r, e).admitted == s.admitted
  {
  }

  lemma AdmitKeepsLedger(s: Admission, r: Receiver, e: Event)
    requires LogInv(s.log) && LedgerInv(s.log, s.history)
    ensures LedgerInv(Admit(s, r, e).log, Admit(s, r, e).history)
  {
    if Stores(Judge(s, r, e)) {
      if Judge(s, r, e).Upgrade? { UpgradeEffect(s, r, e); } else { AppendEffect(s, r, e); }
      LedgerStores(s.log, s.history, Pos(e.origin, e.seqNo), RowAfter(s, r, e));
    } else {
      NoEffect(s, r, e);
    }
  }

  lemma UpgradedStored(held: Event, e: Event, p: Pos)
    requires Stored(p, held) && Verify(e) && held.id == e.id
    ensures Stored(p, Upgraded(held, e)) && Upgraded(held, e).id == held.id
  {
    UpgradedVerifies(held, e);
    var row := Upgraded(held, e);
    assert Committed(row).hlc == Committed(held).hlc && Committed(row).origin == Committed(held).origin;
    assert Committed(row).seqNo == Committed(held).seqNo;
  }

  lemma {:induction false} BatchKeepsLedger(s: Admission, r: Receiver, batch: seq<Event>)
    requires LogInv(s.log) && LedgerInv(s.log, s.history)
    ensures LedgerInv(AdmitAll(s, r, batch).log, AdmitAll(s, r, batch).history)
  {
    if batch != [] {
      var before := AdmitAll(s, r, batch[..|batch| - 1]);
      BatchKeepsLog(s, r, batch[..|batch| - 1]);
      BatchKeepsLedger(s, r, batch[..|batch| - 1]);
      AdmitKeepsLedger(before, r, batch[|batch| - 1]);
    }
  }

  // ---- the ledger drives the reducers to the closed form ----

  lemma {:induction false} RunCollects(cs: seq<Config>, steps: seq<Step>, n: nat)
    requires Behavior(cs, steps) && n <= |steps| && forall i :: 0 <= i < |steps| ==> !steps[i].Truncate?
    ensures forall f :: f in cs[n].t.facts <==> Insert(f) in steps[..n]
    ensures forall f :: f in cs[n].done <==> Reduce(f) in steps[..n]
    ensures cs[n].t.held == StepIds(steps[..n])
  {
    if n == 0 {
      assert steps[..0] == [];
    } else {
      RunCollects(cs, steps, n - 1);
      var before, last := steps[..n - 1], steps[n - 1];
      assert steps[..n] == before + [last];
      assert Next(cs[n - 1], last, cs[n]);
      assert forall s :: s in steps[..n] <==> s in before || s == last;
      IdsStep(before, last);
    }
  }

  lemma IdsStep(before: seq<Step>, last: Step)
    ensures StepIds(before + [last]) ==
            StepIds(before) + (if last.Insert? then {last.f.id} else if last.HoldStub? then {last.id} else {})
  {
    assert forall s :: s in before + [last] <==> s in before || s == last;
  }

  // Whatever run of the reducers a ledger describes, its projections hold exactly the
  // materialized events, have reduced them all, and are in closed form.
  lemma LedgerConverges(log: Log, history: seq<Step>, cs: seq<Config>)
    requires LedgerInv(log, history) && Behavior(cs, history)
    ensures var c := cs[|cs| - 1];
      c.t.facts == Materialized(log) && c.t.held == LogIds(log) && Complete(c) && ClosedForm(c.t)
  {
    assert history[..|history|] == history;
    RunCollects(cs, history, |history|);
    var c := cs[|cs| - 1];
    forall f: Fact ensures Reduce(f) in history <==> f in Materialized(log) {
      assert multiset(history)[Reduce(f)] > 0 <==> Reduce(f) in history;
    }
    assert c.done == c.t.facts == Materialized(log);
    EveryScheduleConverges(cs, history);
  }

  // And there is such a run.
  lemma {:induction false} LedgerRuns(history: seq<Step>, n: nat)
    requires WellOrdered(history) && n <= |history|
    ensures Legal(EMPTY, history[..n], "", "")
    ensures forall f :: f in Final(EMPTY, history[..n], "", "").t.facts <==> Insert(f) in history[..n]
  {
    if n == 0 {
      assert history[..0] == [];
    } else {
      LedgerRuns(history, n - 1);
      var before, last := history[..n - 1], history[n - 1];
      assert history[..n] == before + [last];
      FinalAppend(EMPTY, before, [last], "", "");
      var c := Final(EMPTY, before, "", "");
      if last.Insert? {
        forall f | f in c.t.facts ensures f.id != last.f.id {
          var k :| 0 <= k < |before| && before[k] == Insert(f);
          assert history[k] == Insert(f);
        }
      }
      if last.Reduce? { assert before[n - 2] == Insert(last.f); }
      assert Final(c, [last], "", "") == Apply(c, last, "", "");
      assert forall s :: s in history[..n] <==> s in before || s == last;
    }
  }

  lemma LedgerHasRun(log: Log, history: seq<Step>) returns (cs: seq<Config>)
    requires LedgerInv(log, history)
    ensures Behavior(cs, history)
  {
    assert history[..|history|] == history;
    LedgerRuns(history, |history|);
    StatesFollow(EMPTY, history, "", "");
    cs := States(EMPTY, history, "", "");
  }

  // Two replicas that hold the bytes of the same events agree on every projection that is
  // meant to be a function of the facts, however the events reached them.
  lemma ReplicasAgree(log: Log, history: seq<Step>, cs: seq<Config>, log': Log, history': seq<Step>, ds: seq<Config>)
    requires AllStored(log) && AllStored(log')
    requires LedgerInv(log, history) && Behavior(cs, history)
    requires LedgerInv(log', history') && Behavior(ds, history')
    requires Ids(Materialized(log)) == Ids(Materialized(log'))
    ensures var t, u := cs[|cs| - 1].t, ds[|ds| - 1].t;
      && t.facts == u.facts && SameStates(t, u) && t.works.Keys == u.works.Keys
      && forall w :: w in t.works && !PolicySensitive(t.facts, w) ==> t.works[w] == u.works[w]
  {
    LedgerConverges(log, history, cs);
    LedgerConverges(log', history', ds);
    SameIdsSameFacts(log, log');
    SameIdsSameFacts(log', log);
    ArrivalOrderIsIrrelevant(cs, history, ds, history');
  }

  lemma SameIdsSameFacts(log: Log, log': Log)
    requires AllStored(log) && AllStored(log') && Ids(Materialized(log)) <= Ids(Materialized(log'))
    ensures Materialized(log) <= Materialized(log')
  {
    forall f | f in Materialized(log) ensures f in Materialized(log') {
      assert f.id in Ids(Materialized(log));
      var g :| g in Materialized(log') && g.id == f.id;
      var p := FactPosition(log, f);
      var q := FactPosition(log', g);
      assert Stored(p, log[p]) && Stored(q, log'[q]);
      IdentityCommits(log[p], log'[q]);
      assert Committed(log[p]).hlc == Committed(log'[q]).hlc && Committed(log[p]).origin == Committed(log'[q]).origin;
    }
  }
}
