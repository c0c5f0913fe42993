// Whole runs of one node: any interleaving of emits, admitted batches, fork resolutions,
// policy moves and trust administration, from the empty store.

module Runs {
  import opened Prelude
  import opened Vocabulary
  import opened Replication
  import opened Ledger
  import opened Freezing
  import opened Confluence
  import opened Convergence
  import opened Fold
  import E = Emission
  import G = Gate
  import A = Authority
  import T = Trust

  datatype World = World(log: Log, forks: Forks, history: seq<Step>, lineage: G.Lineage, trust: T.Registry)

  datatype Op =
    | Emit(id: E.Identity, draft: E.Draft, stamp: string, live: bool)
    | Deliver(r: Receiver, batch: seq<Event>)
    | Resolve(origin: string, seqNo: int, chosen: string, receiptId: string, keys: A.Keyring,
              refusal: Option<G.Refusal>)
    | Establish(bundle: string, receiptId: string, keys: A.Keyring, result: G.Result<string>)
    | Administer(change: T.Op)

  const START := World(map[], map[], [], map[], T.EMPTY)

  ghost predicate Moves(w: World, op: Op, w': World) {
    match op
    case Emit(id, draft, stamp, live) =>
      (match E.Emit(w.log, id, draft, stamp, live)
       case Emitted(e) => w' == w.(log := w.log[Pos(e.origin, e.seqNo) := e], history := w.history + Reductions(e))
       case _ => w' == w)
    case Deliver(r, batch) =>
      && r.trust == w.trust
      && var s := Committing(Opening(w.log, w.forks, w.history), r, batch);
         w' == w.(log := s.log, forks := s.forks, history := s.history)
    case Resolve(origin, seqNo, chosen, receiptId, keys, refusal) =>
      && G.ResolveStep(w.log, w.forks, w.lineage, w.trust, origin, seqNo, chosen, receiptId, keys, refusal, w'.forks,
                       w'.trust)
      && w' == w.(forks := w'.forks, trust := w'.trust)
    case Establish(bundle, receiptId, keys, result) =>
      && G.EstablishStep(w.log, w.lineage, w.trust, bundle, receiptId, keys, result, w'.lineage)
      && w' == w.(lineage := w'.lineage)
    case Administer(change) => w' == w.(trust := T.After(w.trust, change))
  }

  ghost predicate Inv(w: World) {
    && LogInv(w.log) && LedgerInv(w.log, w.history) && ForkInv(w.log, w.forks)
    && |G.Heads(w.lineage)| <= 1 && T.KeysWf(w.trust) && RivalsBound(w.forks, w.trust)
  }

  ghost predicate Run(ws: seq<World>, ops: seq<Op>) {
    && |ws| == |ops| + 1 && ws[0] == START
    && forall i: nat {:trigger StepAt(ws, ops, i)} :: i < |ops| ==> StepAt(ws, ops, i)
  }

  ghost predicate StepAt(ws: seq<World>, ops: seq<Op>, i: nat)
    requires |ws| == |ops| + 1 && i < |ops|
  {
    Moves(ws[i], ops[i], ws[i + 1])
  }

  lemma StepTaken(ws: seq<World>, ops: seq<Op>, i: nat)
    requires Run(ws, ops) && i < |ops|
    ensures Moves(ws[i], ops[i], ws[i + 1])
  {
    assert StepAt(ws, ops, i);
  }

  // ---- every step keeps every invariant ----

  lemma EmitKeeps(w: World, op: Op, w': World)
    requires Inv(w) && op.Emit? && Moves(w, op, w')
    ensures Inv(w') && Extends(w.log, w'.log)
  {
    if E.Emit(w.log, op.id, op.draft, op.stamp, op.live).Emitted? {
      E.EmitKeepsLog(w.log, w.history, op.id, op.draft, op.stamp, op.live);
      RowsOutliveGrowth(w.log, w'.log, w.forks);
    }
  }

  lemma DeliverKeeps(w: World, op: Op, w': World)
    requires Inv(w) && op.Deliver? && Moves(w, op, w')
    ensures Inv(w') && Extends(w.log, w'.log)
  {
    DeliverKeepsLog(w.log, w.forks, w.history, op.r, op.batch);
    DeliverKeepsForks(w.log, w.forks, w.history, op.r, op.batch);
  }

  lemma DeliverKeepsLog(log: Log, forks: Forks, history: seq<Step>, r: Receiver, batch: seq<Event>)
    requires LogInv(log) && LedgerInv(log, history)
    ensures var s := Committing(Opening(log, forks, history), r, batch);
      LogInv(s.log) && LedgerInv(s.log, s.history) && Extends(log, s.log)
  {
    BatchKeepsLog(Opening(log, forks, history), r, batch);
    BatchKeepsLedger(Opening(log, forks, history), r, batch);
  }

  lemma DeliverKeepsForks(log: Log, forks: Forks, history: seq<Step>, r: Receiver, batch: seq<Event>)
    requires LogInv(log) && ForkInv(log, forks) && RivalsBound(forks, r.trust)
    ensures var s := Committing(Opening(log, forks, history), r, batch);
            ForkInv(s.log, s.forks) && RivalsBound(s.forks, r.trust)
  {
    var s := Opening(log, forks, history);
    BatchKeepsForks(s, r, batch);
    BatchEnters(s, r, batch);
    BatchFreeze(s, r, batch);
    StillBound(forks, AdmitAll(s, r, batch).forks, r.trust);
  }

  lemma StillBound(forks: Forks, forks': Forks, trust: T.Registry)
    requires RivalsBound(forks, trust) && RowsKept(forks, forks') && Entered(forks, forks', trust)
    ensures RivalsBound(forks', trust)
  {
  }

  lemma RevocationForward(r: T.Registry, ks: set<string>, fromSeq: int, key: string, at: Option<int>)
    requires T.KeysWf(r)
    ensures T.KeysWf(G.RevokedAll(r, ks, fromSeq))
    ensures T.NodeOf(G.RevokedAll(r, ks, fromSeq), key) == T.NodeOf(r, key)
    ensures T.StandingAt(r, key, at) == T.Revoked ==> T.StandingAt(G.RevokedAll(r, ks, fromSeq), key, at) == T.Revoked
  {
  }

  lemma ResolveTrust(w: World, op: Op, w': World) returns (ks: set<string>)
    requires op.Resolve? && Moves(w, op, w')
    ensures w'.trust == G.RevokedAll(w.trust, ks, op.seqNo)
  {
    var rows := G.PointRows(w.forks, op.origin, op.seqNo);
    if op.refusal == None {
      ks := G.RivalKeys(w.forks, rows);
    } else if G.WalkRefusal(op.refusal.value) {
      var order :| G.Enumerates(order, rows)
                   && G.Walk(w.forks, order, op.chosen, op.receiptId, op.seqNo, w.trust) ==
                      G.Walked(op.refusal, w'.trust);
      var n := G.WalkStops(w.forks, order, op.chosen, op.receiptId, op.seqNo, w.trust);
      ks := G.RivalKeys(w.forks, set k | k in order[..n]);
    } else {
      ks := {};
      G.RevokedMore(w.trust, {}, "", op.seqNo);
    }
  }

  lemma ResolveBinds(w: World, op: Op, w': World, ks: set<string>)
    requires op.Resolve? && Moves(w, op, w') && RivalsBound(w.forks, w.trust)
    requires w'.trust == G.RevokedAll(w.trust, ks, op.seqNo)
    ensures RivalsBound(w'.forks, w'.trust)
  {
  }

  lemma ResolveKeeps(w: World, op: Op, w': World)
    requires Inv(w) && op.Resolve? && Moves(w, op, w')
    ensures Inv(w') && w'.log == w.log
  {
    var ks := ResolveTrust(w, op, w');
    RevocationForward(w.trust, ks, op.seqNo, "", None);
    ResolveBinds(w, op, w', ks);
    G.ResolveKeepsForks(w.log, w.forks, w.lineage, w.trust, op.origin, op.seqNo, op.chosen, op.receiptId, op.keys,
                        op.refusal, w'.forks, w'.trust);
  }

  lemma EstablishKeeps(w: World, op: Op, w': World)
    requires Inv(w) && op.Establish? && Moves(w, op, w')
    ensures Inv(w') && w'.log == w.log
  {
    var prior := G.CurrentPolicy(w.lineage);
    if op.result.Ok? && prior.value != Some(G.BundleDigest(op.bundle)) {
      G.EstablishKeepsOneHead(w.lineage, op.bundle, op.receiptId, prior.value);
    }
  }

  lemma StepKeepsInv(w: World, op: Op, w': World)
    requires Inv(w) && Moves(w, op, w')
    ensures Inv(w') && Extends(w.log, w'.log)
  {
    match op {
      case Emit(_, _, _, _) => EmitKeeps(w, op, w');
      case Deliver(_, _) => DeliverKeeps(w, op, w');
      case Resolve(_, _, _, _, _, _) => ResolveKeeps(w, op, w');
      case Establish(_, _, _, _) => EstablishKeeps(w, op, w');
      case Administer(change) =>
        T.StepKeysWf(w.trust, change);
        T.KeysGrow(w.trust, change);
    }
  }

  lemma StartInv()
    ensures Inv(START)
  {
    assert G.Heads(START.lineage) == {};
  }

  lemma {:induction false} RunKeepsInv(ws: seq<World>, ops: seq<Op>, i: nat)
    requires Run(ws, ops) && i < |ws|
    ensures Inv(ws[i])
  {
    if i == 0 {
      StartInv();
    } else {
      RunKeepsInv(ws, ops, i - 1);
      NextKeepsInv(ws, ops, i - 1);
    }
  }

  lemma NextKeepsInv(ws: seq<World>, ops: seq<Op>, n: nat)
    requires Run(ws, ops) && n < |ops| && Inv(ws[n])
    ensures Inv(ws[n + 1])
  {
    StepTaken(ws, ops, n);
    StepKeepsInv(ws[n], ops[n], ws[n + 1]);
  }

  // ---- the log over a run ----

  lemma NextExtends(ws: seq<World>, ops: seq<Op>, n: nat)
    requires Run(ws, ops) && n < |ops|
    ensures Extends(ws[n].log, ws[n + 1].log)
  {
    RunKeepsInv(ws, ops, n);
    StepTaken(ws, ops, n);
    StepKeepsInv(ws[n], ops[n], ws[n + 1]);
  }

  // No held envelope changes or vanishes, and bytes once held stay.
  lemma {:induction false} RunIsAppendOnly(ws: seq<World>, ops: seq<Op>, i: nat, j: nat)
    requires Run(ws, ops) && i <= j < |ws|
    ensures Extends(ws[i].log, ws[j].log)
  {
    if i < j {
      RunIsAppendOnly(ws, ops, i, j - 1);
      NextExtends(ws, ops, j - 1);
      ExtendsTransitive(ws[i].log, ws[j - 1].log, ws[j].log);
    }
  }

  function HashAt(log: Log, p: Pos): Option<string> { if p in log then Some(log[p].selfHash) else None }

  // The position is held exactly when it is in 1..head; a held one verifies, names itself,
  // carries its predecessor's hash, and its payload hashes to the committed digest.
  ghost predicate WellHeld(log: Log, p: Pos) {
    && (p in log <==> 1 <= p.seqNo <= Head(log, p.origin))
    && (p in log ==>
        && Verify(log[p]) && log[p].origin == p.origin && log[p].seqNo == p.seqNo
        && log[p].prevHash == HashAt(log, Pos(p.origin, p.seqNo - 1))
        && (log[p].payload.Some? ==> PayloadDigest(log[p].payload.value) == log[p].payloadDigest))
  }

  lemma LogWellHeld(log: Log, p: Pos)
    requires LogInv(log)
    ensures WellHeld(log, p)
  {
    GapFree(log, p.origin, p.seqNo);
    if p in log {
      assert Stored(p, log[p]) && Chained(log, p);
      GapFree(log, p.origin, p.seqNo - 1);
    }
  }

  // At every moment of every run.
  lemma RunHoldsChains(ws: seq<World>, ops: seq<Op>, i: nat, p: Pos)
    requires Run(ws, ops) && i < |ws|
    ensures WellHeld(ws[i].log, p)
  {
    RunKeepsInv(ws, ops, i);
    LogWellHeld(ws[i].log, p);
  }

  // The reducers have seen exactly the materialized events, each once, and every projection
  // they leave is in closed form.
  lemma RunReducesOnce(ws: seq<World>, ops: seq<Op>, i: nat, cs: seq<Config>)
    requires Run(ws, ops) && i < |ws| && Behavior(cs, ws[i].history)
    ensures forall f: Fact :: multiset(ws[i].history)[Reduce(f)] == (if f in Materialized(ws[i].log) then 1 else 0)
    ensures var c := cs[|cs| - 1];
            c.t.facts == Materialized(ws[i].log) && c.t.held == LogIds(ws[i].log) && ClosedForm(c.t)
  {
    RunKeepsInv(ws, ops, i);
    LedgerConverges(ws[i].log, ws[i].history, cs);
  }

  // Two nodes, whatever their runs, agree once they hold the bytes of the same events.
  lemma NodesAgree(ws: seq<World>, ops: seq<Op>, i: nat, cs: seq<Config>, vs: seq<World>, ops': seq<Op>, j: nat,
                   ds: seq<Config>)
    requires Run(ws, ops) && i < |ws| && Behavior(cs, ws[i].history)
    requires Run(vs, ops') && j < |vs| && Behavior(ds, vs[j].history)
    requires Ids(Materialized(ws[i].log)) == Ids(Materialized(vs[j].log))
    ensures var t, u := cs[|cs| - 1].t, ds[|ds| - 1].t;
      && SameStates(t, u) && t.works.Keys == u.works.Keys
      && forall w :: w in t.works && !PolicySensitive(t.facts, w) ==> t.works[w] == u.works[w]
  {
    RunKeepsInv(ws, ops, i);
    RunKeepsInv(vs, ops', j);
    ReplicasAgree(ws[i].log, ws[i].history, cs, vs[j].log, vs[j].history, ds);
  }

  // ---- the freeze over a run ----

  // An origin becomes frozen only when a delivered batch brings an authenticated rival to a
  // held position of a stream that still stands.
  lemma FrozenOnlyByRival(w: World, op: Op, w': World, o: string)
    requires Inv(w) && Moves(w, op, w') && o !in FrozenOrigins(w.forks) && o in FrozenOrigins(w'.forks)
    ensures op.Deliver? && exists i: nat ::
              i < |op.batch| && FreezesAt(Opening(w.log, w.forks, w.history), op.r, op.batch, i, o)
  {
    if op.Resolve? { NoNewFreeze(w, op, w'); }
    if op.Deliver? {
      var s := Opening(w.log, w.forks, w.history);
      BatchFreeze(s, op.r, op.batch);
      assert op.batch[..|op.batch|] == op.batch;
      var i := FreezeHasCause(s, op.r, op.batch, |op.batch|, o);
    }
  }

  lemma NoNewFreeze(w: World, op: Op, w': World)
    requires op.Resolve? && Moves(w, op, w')
    ensures FrozenOrigins(w'.forks) <= FrozenOrigins(w.forks)
  {
    forall o | o in FrozenOrigins(w'.forks) ensures o in FrozenOrigins(w.forks) {
      var k :| k in w'.forks && w'.forks[k].frozen && k.origin == o;
      assert k in w.forks && w.forks[k].frozen;
    }
  }

  lemma DeliverKeepsFrozen(w: World, op: Op, w': World, o: string)
    requires Inv(w) && Moves(w, op, w') && op.Deliver? && o in FrozenOrigins(w.forks)
    ensures o in FrozenOrigins(w'.forks)
  {
    BatchKeepsForks(Opening(w.log, w.forks, w.history), op.r, op.batch);
  }

  // It is released only by a resolution under a held receipt standing VALID for exactly
  // that fork point, that surviving head and the policy in force.
  lemma UnfrozenOnlyByReceipt(w: World, op: Op, w': World, o: string)
    requires Inv(w) && Moves(w, op, w') && o in FrozenOrigins(w.forks) && o !in FrozenOrigins(w'.forks)
    ensures op.Resolve? && op.origin == o && op.refusal == None
    ensures G.Authorized(w.log, w.lineage, w.trust, o, op.seqNo, op.chosen, op.receiptId, op.keys)
  {
    match op {
      case Deliver(_, _) => DeliverKeepsFrozen(w, op, w', o);
      case Resolve(_, _, _, _, _, _) =>
        G.ResolveKeepsForks(w.log, w.forks, w.lineage, w.trust, op.origin, op.seqNo, op.chosen, op.receiptId, op.keys,
                            op.refusal, w'.forks, w'.trust);
      case _ =>
    }
  }

  // While it is frozen no batch inserts, upgrades or records anything of it.
  lemma FrozenIsInert(w: World, op: Op, w': World, o: string)
    requires Moves(w, op, w') && op.Deliver? && o in FrozenOrigins(w.forks)
    ensures forall p: Pos :: p.origin == o ==> (p in w.log <==> p in w'.log) && (p in w.log ==> w'.log[p] == w.log[p])
    ensures forall k: ForkKey :: k.origin == o ==>
              (k in w.forks <==> k in w'.forks) && (k in w.forks ==> w'.forks[k] == w.forks[k])
  {
    FrozenIsUntouched(Opening(w.log, w.forks, w.history), op.r, op.batch, o);
  }

  // ---- rows and dead ends over a run ----

  lemma RowsPersist(w: World, op: Op, w': World, k: ForkKey)
    requires Inv(w) && Moves(w, op, w') && k in w.forks
    ensures k in w'.forks && (!w.forks[k].frozen ==> w'.forks[k] == w.forks[k])
  {
    if op.Deliver? { BatchFreeze(Opening(w.log, w.forks, w.history), op.r, op.batch); }
  }

  lemma OnlyResolveReleases(w: World, op: Op, w': World, k: ForkKey)
    requires Inv(w) && Moves(w, op, w') && !op.Resolve? && k in w.forks
    ensures k in w'.forks && w'.forks[k] == w.forks[k]
  {
    if op.Deliver? { BatchFreeze(Opening(w.log, w.forks, w.history), op.r, op.batch); }
  }

  lemma OtherPoint(w: World, op: Op, w': World, again: ForkKey)
    requires op.Resolve? && Moves(w, op, w') && again in w.forks
    requires (op.origin != again.origin || op.seqNo != again.seqNo)
    ensures again in w'.forks && w'.forks[again] == w.forks[again]
  {
  }

  // ---- trust over a run ----

  lemma TrustStep(w: World, op: Op, w': World, key: string, at: Option<int>)
    requires Inv(w) && Moves(w, op, w')
    ensures T.NodeOf(w.trust, key).Some? ==> T.NodeOf(w'.trust, key) == T.NodeOf(w.trust, key)
    ensures T.StandingAt(w.trust, key, at) == T.Revoked ==> T.StandingAt(w'.trust, key, at) == T.Revoked
  {
    match op {
      case Administer(change) => T.StepForward(w.trust, change, key, at);
      case Resolve(_, _, _, _, _, _) =>
        var ks := ResolveTrust(w, op, w');
        RevocationForward(w.trust, ks, op.seqNo, key, at);
      case _ =>
    }
  }

  lemma NextTrust(ws: seq<World>, ops: seq<Op>, n: nat, key: string, at: Option<int>)
    requires Run(ws, ops) && n < |ops|
    ensures T.NodeOf(ws[n].trust, key).Some? ==> T.NodeOf(ws[n + 1].trust, key) == T.NodeOf(ws[n].trust, key)
    ensures T.StandingAt(ws[n].trust, key, at) == T.Revoked ==> T.StandingAt(ws[n + 1].trust, key, at) == T.Revoked
  {
    RunKeepsInv(ws, ops, n);
    StepTaken(ws, ops, n);
    TrustStep(ws[n], ops[n], ws[n + 1], key, at);
  }

  lemma {:induction false} RunTrustForward(ws: seq<World>, ops: seq<Op>, i: nat, j: nat, key: string, at: Option<int>)
    requires Run(ws, ops) && i <= j < |ws|
    ensures T.NodeOf(ws[i].trust, key).Some? ==> T.NodeOf(ws[j].trust, key) == T.NodeOf(ws[i].trust, key)
    ensures T.StandingAt(ws[i].trust, key, at) == T.Revoked ==> T.StandingAt(ws[j].trust, key, at) == T.Revoked
  {
    if i < j {
      RunTrustForward(ws, ops, i, j - 1, key, at);
      NextTrust(ws, ops, j - 1, key, at);
    }
  }

  lemma ScopedOnly(r: T.Registry, ks: set<string>, fromSeq: int, key: string)
    requires T.KeysWf(r)
    ensures var r' := G.RevokedAll(r, ks, fromSeq);
      && (key !in ks || T.StandingAt(r, key, None) == T.Revoked ==> T.Unmoved(r, r', key))
      && T.NodeOf(r', key) == T.NodeOf(r, key) && T.IncarnationOf(r', key) == T.IncarnationOf(r, key)
      && forall at: int :: at < fromSeq ==> T.StandingAt(r', key, Some(at)) == T.StandingAt(r, key, Some(at))
  {
  }

  // No resolution, carried out or refused, changes what events before the fork point are
  // worth, nor which node and incarnation a key speaks for.
  lemma TrunkIsSpared(w: World, op: Op, w': World, key: string, at: int)
    requires Inv(w) && op.Resolve? && Moves(w, op, w')
    ensures T.NodeOf(w'.trust, key) == T.NodeOf(w.trust, key)
    ensures T.IncarnationOf(w'.trust, key) == T.IncarnationOf(w.trust, key)
    ensures at < op.seqNo ==> T.StandingAt(w'.trust, key, Some(at)) == T.StandingAt(w.trust, key, Some(at))
  {
    var ks := ResolveTrust(w, op, w');
    ScopedOnly(w.trust, ks, op.seqNo, key);
  }

  // The key is the rival of a frozen row at the point.
  ghost predicate Loses(forks: Forks, origin: string, seqNo: int, key: string) {
    exists k ::
      k in forks && k.origin == origin && k.seqNo == seqNo && forks[k].frozen && forks[k].rivalKey == Some(key)
  }

  // A release revokes exactly the losers of its point, from the fork point on; a key already
  // revoked stays as it was, and so does every other key.
  lemma ReleaseRevokesLosers(w: World, op: Op, w': World, key: string)
    requires Inv(w) && op.Resolve? && op.refusal == None && Moves(w, op, w')
    ensures if Loses(w.forks, op.origin, op.seqNo, key) && T.StandingAt(w.trust, key, None) != T.Revoked
            then forall at :: T.StandingAt(w'.trust, key, at) == T.StandingBefore(w.trust, key, at, op.seqNo)
            else T.Unmoved(w.trust, w'.trust, key)
  {
    ReleaseRevokes(w, op, w');
    var ks := G.RivalKeys(w.forks, G.PointRows(w.forks, op.origin, op.seqNo));
    ScopedOnly(w.trust, ks, op.seqNo, key);
    LosersAreRivals(w.forks, w.trust, op.origin, op.seqNo, key);
    if key in ks && T.StandingAt(w.trust, key, None) != T.Revoked { ScopedFrom(w.trust, ks, op.seqNo, key); }
  }

  lemma ReleaseRevokes(w: World, op: Op, w': World)
    requires op.Resolve? && op.refusal == None && Moves(w, op, w')
    ensures w'.trust ==
            G.RevokedAll(w.trust, G.RivalKeys(w.forks, G.PointRows(w.forks, op.origin, op.seqNo)), op.seqNo)
  {
  }

  lemma ScopedFrom(r: T.Registry, ks: set<string>, fromSeq: int, key: string)
    requires T.KeysWf(r) && key in ks && key in r.keys && T.StandingAt(r, key, None) != T.Revoked
    ensures forall at :: T.StandingAt(G.RevokedAll(r, ks, fromSeq), key, at) == T.StandingBefore(r, key, at, fromSeq)
  {
  }

  lemma LosersAreRivals(forks: Forks, trust: T.Registry, origin: string, seqNo: int, key: string)
    requires RivalsBound(forks, trust)
    ensures Loses(forks, origin, seqNo, key) <==> key in G.RivalKeys(forks, G.PointRows(forks, origin, seqNo))
    ensures Loses(forks, origin, seqNo, key) ==> key in trust.keys
  {
    if Loses(forks, origin, seqNo, key) {
      var k :| k in forks && k.origin == origin && k.seqNo == seqNo && forks[k].frozen
               && forks[k].rivalKey == Some(key);
      assert k in G.PointRows(forks, origin, seqNo);
    }
  }

  lemma RevokedIsSilent(r: Receiver, e: Event)
    requires e.keyRef.Some? && T.StandingAt(r.trust, e.keyRef.value, None) == T.Revoked
    ensures !Authentic(r, e, None)
  {
  }

  // The loser of a resolved fork can freeze nothing again: no event under its key is ever
  // an authenticated rival in the rest of the run.
  lemma LoserIsSilenced(ws: seq<World>, ops: seq<Op>, i: nat, j: nat, k: ForkKey, r: Receiver, e: Event)
    requires Run(ws, ops) && i < j < |ws| && ops[i].Resolve? && ops[i].refusal == None
    requires k in G.PointRows(ws[i].forks, ops[i].origin, ops[i].seqNo) && ws[i].forks[k].frozen
    requires e.keyRef == ws[i].forks[k].rivalKey && r.trust == ws[j].trust
    ensures !Authentic(r, e, None)
  {
    LoserStaysRevoked(ws, ops, i, j, k);
    RevokedIsSilent(r, e);
  }

  lemma LoserStaysRevoked(ws: seq<World>, ops: seq<Op>, i: nat, j: nat, k: ForkKey)
    requires Run(ws, ops) && i < j < |ws| && ops[i].Resolve? && ops[i].refusal == None
    requires k in G.PointRows(ws[i].forks, ops[i].origin, ops[i].seqNo) && ws[i].forks[k].frozen
    ensures ws[i].forks[k].rivalKey.Some? && T.StandingAt(ws[j].trust, ws[i].forks[k].rivalKey.value, None) == T.Revoked
  {
    var key := LoserRevokedNext(ws, ops, i, k);
    RunTrustForward(ws, ops, i + 1, j, key, None);
  }

  lemma LoserRevokedNext(ws: seq<World>, ops: seq<Op>, i: nat, k: ForkKey) returns (key: string)
    requires Run(ws, ops) && i < |ops| && ops[i].Resolve? && ops[i].refusal == None
    requires k in G.PointRows(ws[i].forks, ops[i].origin, ops[i].seqNo) && ws[i].forks[k].frozen
    ensures ws[i].forks[k].rivalKey == Some(key) && T.StandingAt(ws[i + 1].trust, key, None) == T.Revoked
  {
    RunBindsRivals(ws, ops, i);
    StepTaken(ws, ops, i);
    LoserIsRevoked(ws[i], ops[i], ws[i + 1], k);
    key := ws[i].forks[k].rivalKey.value;
  }

  lemma RunBindsRivals(ws: seq<World>, ops: seq<Op>, i: nat)
    requires Run(ws, ops) && i < |ws|
    ensures RivalsBound(ws[i].forks, ws[i].trust)
  {
    RunKeepsInv(ws, ops, i);
  }

  lemma LoserIsRevoked(w: World, op: Op, w': World, k: ForkKey)
    requires RivalsBound(w.forks, w.trust) && Moves(w, op, w') && op.Resolve? && op.refusal == None
    requires k in G.PointRows(w.forks, op.origin, op.seqNo) && w.forks[k].frozen
    ensures w.forks[k].rivalKey.Some? && T.StandingAt(w'.trust, w.forks[k].rivalKey.value, None) == T.Revoked
  {
    assert w.forks[k].rivalKey.value in G.RivalKeys(w.forks, G.PointRows(w.forks, op.origin, op.seqNo));
  }
}
