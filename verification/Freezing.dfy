// Fork evidence and the origin freeze (kawa/storage/replication.py, sql/0011): what freezes
// an origin, what a freeze keeps out, and what every evidence row says.

module Freezing {
  import opened Prelude
  import opened Vocabulary
  import opened Replication
  import T = Trust

  // A different event at a held position, passing the whole gate at current standing.
  predicate Rival(log: Log, r: Receiver, e: Event) {
    var p := Pos(e.origin, e.seqNo);
    p in log && log[p].id != e.id && Authentic(r, e, None)
  }

  lemma FreezeVerdict(s: Admission, r: Receiver, e: Event)
    requires LogInv(s.log)
    ensures Judge(s, r, e).Freeze? <==> e.origin !in s.frozen && e.origin !in s.poisoned && Rival(s.log, r, e)
  {
    var p := Pos(e.origin, e.seqNo);
    GapFree(s.log, e.origin, e.seqNo);
  }

  lemma AdmitFreezes(s: Admission, r: Receiver, e: Event, o: string)
    requires LogInv(s.log)
    ensures o in Admit(s, r, e).frozen <==>
            o in s.frozen || (e.origin == o && o !in s.poisoned && Rival(s.log, r, e))
  {
    FreezeVerdict(s, r, e);
  }

  lemma FreezesStep(s: Admission, r: Receiver, batch: seq<Event>, n: nat, o: string)
    requires LogInv(s.log) && n < |batch|
    ensures o in AdmitAll(s, r, batch[..n + 1]).frozen <==>
            o in AdmitAll(s, r, batch[..n]).frozen || FreezesAt(s, r, batch, n, o)
  {
    assert batch[..n + 1][..n] == batch[..n];
    BatchKeepsLog(s, r, batch[..n]);
    AdmitFreezes(AdmitAll(s, r, batch[..n]), r, batch[n], o);
  }

  // An origin comes to be frozen in a batch only through a delivered event that was an
  // authenticated rival while the origin's stream still stood.
  lemma FreezeHasCause(s: Admission, r: Receiver, batch: seq<Event>, n: nat, o: string)
    returns (i: nat)
    requires LogInv(s.log) && n <= |batch| && o !in s.frozen && o in AdmitAll(s, r, batch[..n]).frozen
    ensures i < n && FreezesAt(s, r, batch, i, o)
  {
    var frozenBy := (k: nat) => k <= |batch| && o in AdmitAll(s, r, batch[..k]).frozen;
    i := FirstTurn(frozenBy, n);
    FreezesStep(s, r, batch, i, o);
  }

  // What is false at first and true in the end turns true at some step.
  lemma {:induction false} FirstTurn(p: nat -> bool, n: nat) returns (i: nat)
    requires !p(0) && p(n)
    ensures i < n && !p(i) && p(i + 1)
  {
    if p(n - 1) { i := FirstTurn(p, n - 1); } else { i := n - 1; }
  }

  predicate FreezesAt(s: Admission, r: Receiver, batch: seq<Event>, i: nat, o: string)
    requires i < |batch|
  {
    var before := AdmitAll(s, r, batch[..i]);
    batch[i].origin == o && o !in before.poisoned && Rival(before.log, r, batch[i])
  }

  // While an origin is frozen nothing of it is inserted, upgraded or re-judged.
  ghost predicate Untouched(s: Admission, s': Admission, o: string) {
    && o in s'.frozen
    && (forall p: Pos :: p.origin == o ==> (p in s.log <==> p in s'.log))
    && (forall p: Pos :: p.origin == o && p in s.log ==> s'.log[p] == s.log[p])
    && (forall k: ForkKey :: k.origin == o ==> (k in s.forks <==> k in s'.forks))
    && (forall k: ForkKey :: k.origin == o && k in s.forks ==> s'.forks[k] == s.forks[k])
  }

  // Whatever the verdict, only the event's own position and its origin's rows change.
  lemma PerformIsLocal(s: Admission, r: Receiver, e: Event, v: Verdict, o: string)
    requires o in s.frozen && e.origin != o
    ensures Untouched(s, Perform(s, r, e, v), o)
  {
  }

  lemma FrozenJudged(s: Admission, r: Receiver, e: Event)
    requires e.origin in s.frozen
    ensures Judge(s, r, e) == Refuse(OriginFrozen)
  {
  }

  lemma FrozenAdmit(s: Admission, r: Receiver, e: Event, o: string)
    requires o in s.frozen
    ensures Untouched(s, Admit(s, r, e), o)
  {
    if e.origin == o {
      FrozenJudged(s, r, e);
    } else {
      PerformIsLocal(s, r, e, Judge(s, r, e), o);
    }
  }

  lemma {:induction false} FrozenIsUntouched(s: Admission, r: Receiver, batch: seq<Event>, o: string)
    requires o in s.frozen
    ensures Untouched(s, AdmitAll(s, r, batch), o)
  {
    if batch != [] {
      FrozenIsUntouched(s, r, batch[..|batch| - 1], o);
      FrozenAdmit(AdmitAll(s, r, batch[..|batch| - 1]), r, batch[|batch| - 1], o);
    }
  }

  lemma PerformKeepsFrozen(s: Admission, r: Receiver, e: Event, v: Verdict)
    ensures s.frozen <= Perform(s, r, e, v).frozen
  {
  }

  lemma {:induction false} StaysFrozen(s: Admission, r: Receiver, batch: seq<Event>, m: nat, o: string)
    requires m <= |batch| && o in AdmitAll(s, r, batch[..m]).frozen
    ensures o in AdmitAll(s, r, batch).frozen
  {
    if m == |batch| {
      assert batch[..m] == batch;
    } else {
      var init, e := batch[..|batch| - 1], batch[|batch| - 1];
      assert init[..m] == batch[..m];
      StaysFrozen(s, r, init, m, o);
      var before := AdmitAll(s, r, init);
      PerformKeepsFrozen(before, r, e, Judge(before, r, e));
    }
  }

  // And every such event does freeze it, for the rest of the batch.
  lemma RivalFreezes(s: Admission, r: Receiver, batch: seq<Event>, i: nat, o: string)
    requires LogInv(s.log) && i < |batch| && FreezesAt(s, r, batch, i, o)
    ensures o in AdmitAll(s, r, batch).frozen
  {
    FreezesStep(s, r, batch, i, o);
    StaysFrozen(s, r, batch, i + 1, o);
  }

  // ---- what every evidence row says ----

  predicate RowSound(log: Log, k: ForkKey, row: Fork) {
    var p := Pos(k.origin, k.seqNo);
    && p in log && row.heldId == log[p].id && k.rivalHash != row.heldId
    && (row.frozen ==> row.resolvedBy == None && row.chosenHead == None)
    && (!row.frozen ==> row.resolvedBy.Some? && row.chosenHead == Some(row.heldId))
  }

  predicate SamePoint(j: ForkKey, k: ForkKey) { j.origin == k.origin && j.seqNo == k.seqNo }

  // Resolved rows at one fork point share one chosen head and one receipt.
  ghost predicate OneResolution(forks: Forks) {
    forall j, k :: (
      j in forks && k in forks && SamePoint(j, k) && !forks[j].frozen && !forks[k].frozen ==>
      forks[j].chosenHead == forks[k].chosenHead && forks[j].resolvedBy == forks[k].resolvedBy)
  }

  ghost predicate RowsSound(log: Log, forks: Forks) { forall k :: k in forks ==> RowSound(log, k, forks[k]) }

  ghost predicate ForkInv(log: Log, forks: Forks) { RowsSound(log, forks) && OneResolution(forks) }

  lemma RowsOutliveGrowth(log: Log, log': Log, forks: Forks)
    requires RowsSound(log, forks) && Extends(log, log')
    ensures RowsSound(log', forks)
  {
    forall k | k in forks ensures RowSound(log', k, forks[k]) {
      var p := Pos(k.origin, k.seqNo);
      assert RowSound(log, k, forks[k]);
      assert Committed(log'[p]).id == Committed(log[p]).id;
    }
  }

  lemma FreezeAddsRow(s: Admission, r: Receiver, e: Event)
    requires Judge(s, r, e).Freeze?
    ensures var k := ForkKey(e.origin, e.seqNo, e.selfHash);
      && Pos(e.origin, e.seqNo) in s.log && Verify(e) && s.log[Pos(e.origin, e.seqNo)].id != e.id
      && Admit(s, r, e).log == s.log
      && Admit(s, r, e).forks == if k in s.forks then s.forks
                                 else s.forks[k := Fork(s.log[Pos(e.origin, e.seqNo)].id, e.keyRef, Judge(s, r, e).c,
                                     true, None, None)]
  {
  }

  lemma OtherForks(s: Admission, r: Receiver, e: Event)
    requires !Judge(s, r, e).Freeze?
    ensures Admit(s, r, e).forks == s.forks
  {
    ForksAlone(s, r, e, Judge(s, r, e));
  }

  lemma ForksAlone(s: Admission, r: Receiver, e: Event, v: Verdict)
    requires !v.Freeze?
    ensures Perform(s, r, e, v).forks == s.forks
  {
  }

  lemma RowAdded(log: Log, forks: Forks, k: ForkKey, row: Fork)
    requires ForkInv(log, forks) && k !in forks && row.frozen && RowSound(log, k, row)
    ensures ForkInv(log, forks[k := row])
    ensures FrozenOrigins(forks[k := row]) == FrozenOrigins(forks) + {k.origin}
  {
    var forks' := forks[k := row];
    forall o | o in FrozenOrigins(forks) + {k.origin} ensures o in FrozenOrigins(forks') {
      if o != k.origin {
        var j :| j in forks && forks[j].frozen && j.origin == o;
        assert j in forks' && forks'[j].frozen;
      } else {
        assert k in forks' && forks'[k].frozen;
      }
    }
  }

  lemma AdmitKeepsForks(s: Admission, r: Receiver, e: Event)
    requires LogInv(s.log) && ForkInv(s.log, s.forks)
    ensures ForkInv(Admit(s, r, e).log, Admit(s, r, e).forks)
    ensures FrozenOrigins(s.forks) <= FrozenOrigins(Admit(s, r, e).forks)
  {
    if Judge(s, r, e).Freeze? {
      FreezeAddsRow(s, r, e);
      var p, k := Pos(e.origin, e.seqNo), ForkKey(e.origin, e.seqNo, e.selfHash);
      if k !in s.forks {
        RowAdded(s.log, s.forks, k, Fork(s.log[p].id, e.keyRef, Judge(s, r, e).c, true, None, None));
      }
    } else {
      AdmitKeepsLog(s, r, e);
      OtherForks(s, r, e);
      RowsOutliveGrowth(s.log, Admit(s, r, e).log, s.forks);
    }
  }

  lemma {:induction false} BatchKeepsForks(s: Admission, r: Receiver, batch: seq<Event>)
    requires LogInv(s.log) && ForkInv(s.log, s.forks)
    ensures ForkInv(AdmitAll(s, r, batch).log, AdmitAll(s, r, batch).forks)
    ensures FrozenOrigins(s.forks) <= FrozenOrigins(AdmitAll(s, r, batch).forks)
  {
    if batch != [] {
      BatchKeepsLog(s, r, batch[..|batch| - 1]);
      BatchKeepsForks(s, r, batch[..|batch| - 1]);
      AdmitKeepsForks(AdmitAll(s, r, batch[..|batch| - 1]), r, batch[|batch| - 1]);
    }
  }

  // What one event does to the durable freeze: it grows by the rival's origin, unless this
  // very rival envelope already has a row, which is then left as it was.
  lemma DurableFreeze(s: Admission, r: Receiver, e: Event)
    requires LogInv(s.log) && ForkInv(s.log, s.forks)
    ensures FrozenOrigins(Admit(s, r, e).forks) ==
            FrozenOrigins(s.forks) +
            if Judge(s, r, e).Freeze? && ForkKey(e.origin, e.seqNo, e.selfHash) !in s.forks then {e.origin} else {}
  {
    if Judge(s, r, e).Freeze? {
      FreezeAddsRow(s, r, e);
      var p, k := Pos(e.origin, e.seqNo), ForkKey(e.origin, e.seqNo, e.selfHash);
      if k !in s.forks {
        RowAdded(s.log, s.forks, k, Fork(s.log[p].id, e.keyRef, Judge(s, r, e).c, true, None, None));
      }
    } else {
      OtherForks(s, r, e);
    }
  }

  // The freeze of a batch covers the durable one, and evidence is only ever added.
  ghost predicate RowsKept(forks: Forks, forks': Forks) {
    forall k :: k in forks ==> k in forks' && forks'[k] == forks[k]
  }

  lemma PerformKeepsRows(s: Admission, r: Receiver, e: Event, v: Verdict)
    ensures RowsKept(s.forks, Perform(s, r, e, v).forks) && s.frozen <= Perform(s, r, e, v).frozen
  {
  }

  lemma AdmitDurable(s: Admission, r: Receiver, e: Event)
    requires LogInv(s.log) && ForkInv(s.log, s.forks) && FrozenOrigins(s.forks) <= s.frozen
    ensures FrozenOrigins(Admit(s, r, e).forks) <= Admit(s, r, e).frozen
  {
    DurableFreeze(s, r, e);
    PerformKeepsRows(s, r, e, Judge(s, r, e));
    if Judge(s, r, e).Freeze? { AdmitFreezes(s, r, e, e.origin); FreezeVerdict(s, r, e); }
  }

  lemma {:induction false} BatchFreeze(s: Admission, r: Receiver, batch: seq<Event>)
    requires LogInv(s.log) && ForkInv(s.log, s.forks) && FrozenOrigins(s.forks) <= s.frozen
    ensures FrozenOrigins(AdmitAll(s, r, batch).forks) <= AdmitAll(s, r, batch).frozen
    ensures RowsKept(s.forks, AdmitAll(s, r, batch).forks)
  {
    if batch != [] {
      var n := |batch| - 1;
      BatchFreeze(s, r, batch[..n]);
      BatchKeepsLog(s, r, batch[..n]);
      BatchKeepsForks(s, r, batch[..n]);
      var before := AdmitAll(s, r, batch[..n]);
      AdmitDurable(before, r, batch[n]);
      PerformKeepsRows(before, r, batch[n], Judge(before, r, batch[n]));
    }
  }

  // A row enters the evidence frozen, and its rival key is bound in the registry that judged it.
  predicate EntersSound(row: Fork, trust: T.Registry) {
    row.frozen && row.rivalKey.Some? && row.rivalKey.value in trust.keys
  }

  ghost predicate Entered(forks: Forks, forks': Forks, trust: T.Registry) {
    forall k :: k in forks' && k !in forks ==> EntersSound(forks'[k], trust)
  }

  lemma FreezeEnters(s: Admission, r: Receiver, e: Event)
    requires LogInv(s.log) && Judge(s, r, e).Freeze?
    ensures e.keyRef.Some? && e.keyRef.value in r.trust.keys
  {
    FreezeVerdict(s, r, e);
  }

  lemma AdmitEnters(s: Admission, r: Receiver, e: Event)
    requires LogInv(s.log)
    ensures Entered(s.forks, Admit(s, r, e).forks, r.trust)
  {
    if Judge(s, r, e).Freeze? {
      FreezeAddsRow(s, r, e);
      FreezeEnters(s, r, e);
    } else {
      OtherForks(s, r, e);
    }
  }

  lemma {:induction false} BatchEnters(s: Admission, r: Receiver, batch: seq<Event>)
    requires LogInv(s.log)
    ensures Entered(s.forks, AdmitAll(s, r, batch).forks, r.trust)
  {
    if batch != [] {
      var before := AdmitAll(s, r, batch[..|batch| - 1]);
      BatchEnters(s, r, batch[..|batch| - 1]);
      BatchKeepsLog(s, r, batch[..|batch| - 1]);
      AdmitEnters(before, r, batch[|batch| - 1]);
      PerformKeepsRows(before, r, batch[|batch| - 1], Judge(before, r, batch[|batch| - 1]));
    }
  }

  // Every row's rival key is bound.
  ghost predicate RivalsBound(forks: Forks, trust: T.Registry) {
    forall k :: k in forks ==> forks[k].rivalKey.Some? && forks[k].rivalKey.value in trust.keys
  }
}
