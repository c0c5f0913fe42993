// Refrozen fork points over whole runs: when one can still be released, and the conditions
// under which none ever can be. Also what a refused resolution leaves in the registry.

module DeadEnds {
  import opened Prelude
  import opened Vocabulary
  import opened Replication
  import opened Freezing
  import opened Runs
  import G = Gate
  import A = Authority
  import T = Trust

  // ---- a refused resolution ----

  function Attempt(k: ForkKey, chosen: string, receiptId: string, keys: A.Keyring, refusal: Option<G.Refusal>): Op {
    Resolve(k.origin, k.seqNo, chosen, receiptId, keys, refusal)
  }

  // Some refused attempt changes trust exactly when the receipt authorizes the operation and
  // the point has both a revocable frozen rival against the chosen head and a row that
  // another receipt resolved.
  lemma RefusalCanStrike(w: World, k: ForkKey, chosen: string, receiptId: string, keys: A.Keyring)
    requires Inv(w)
    ensures (exists why, w' :: Moves(w, Attempt(k, chosen, receiptId, keys, Some(why)), w') && w'.trust != w.trust)
            <==> G.Authorized(w.log, w.lineage, w.trust, k.origin, k.seqNo, chosen, receiptId, keys)
                 && G.LeavesTrace(w.forks, k.origin, k.seqNo, chosen, receiptId, w.trust)
  {
    if why, w' :| Moves(w, Attempt(k, chosen, receiptId, keys, Some(why)), w') && w'.trust != w.trust {
      StrikeNeeds(w, k, chosen, receiptId, keys, why, w');
    }
    if G.Authorized(w.log, w.lineage, w.trust, k.origin, k.seqNo, chosen, receiptId, keys)
       && G.LeavesTrace(w.forks, k.origin, k.seqNo, chosen, receiptId, w.trust) {
      var w' := Strike(w, k, chosen, receiptId, keys);
    }
  }

  lemma StrikeNeeds(w: World, k: ForkKey, chosen: string, receiptId: string, keys: A.Keyring, why: G.Refusal, w': World)
    requires Inv(w) && Moves(w, Attempt(k, chosen, receiptId, keys, Some(why)), w') && w'.trust != w.trust
    ensures why == G.ForkAlreadyResolved && w'.forks == w.forks
    ensures G.Authorized(w.log, w.lineage, w.trust, k.origin, k.seqNo, chosen, receiptId, keys)
    ensures G.LeavesTrace(w.forks, k.origin, k.seqNo, chosen, receiptId, w.trust)
  {
    var order :| G.Enumerates(order, G.PointRows(w.forks, k.origin, k.seqNo))
                 && G.Walk(w.forks, order, chosen, receiptId, k.seqNo, w.trust) == G.Walked(Some(why), w'.trust);
    G.TraceOfWalk(w.log, w.forks, k.origin, k.seqNo, chosen, receiptId, w.trust, order);
  }

  lemma Strike(w: World, k: ForkKey, chosen: string, receiptId: string, keys: A.Keyring) returns (w': World)
    requires G.Authorized(w.log, w.lineage, w.trust, k.origin, k.seqNo, chosen, receiptId, keys)
    requires G.LeavesTrace(w.forks, k.origin, k.seqNo, chosen, receiptId, w.trust)
    ensures Moves(w, Attempt(k, chosen, receiptId, keys, Some(G.ForkAlreadyResolved)), w') && w'.trust != w.trust
  {
    var order := G.TraceOrder(w.forks, k.origin, k.seqNo, chosen, receiptId, w.trust);
    w' := w.(trust := G.Walk(w.forks, order, chosen, receiptId, k.seqNo, w.trust).trust);
    G.Stopped(w.log, w.forks, w.lineage, w.trust, k.origin, k.seqNo, chosen, receiptId, keys, order);
  }

  // ---- refrozen points ----

  // One row of a fork point is resolved under a receipt, another is frozen.
  predicate Refrozen(forks: Forks, k: ForkKey, again: ForkKey, receiptId: string) {
    && k in forks && again in forks && SamePoint(k, again)
    && !forks[k].frozen && forks[k].resolvedBy == Some(receiptId) && forks[again].frozen
  }

  // Some step, judged under these keys if it is a resolution, thaws the row.
  ghost predicate ThawsNow(w: World, again: ForkKey, keys: A.Keyring) {
    exists op, w' ::
      Moves(w, op, w') && (op.Resolve? ==> op.keys == keys) && again in w'.forks && !w'.forks[again].frozen
  }

  lemma ThawIsRelease(w: World, op: Op, w': World, k: ForkKey, again: ForkKey, receiptId: string)
    requires Inv(w) && Moves(w, op, w') && Refrozen(w.forks, k, again, receiptId)
    requires again in w'.forks && !w'.forks[again].frozen
    ensures op.Resolve?
    ensures G.Authorized(w.log, w.lineage, w.trust, again.origin, again.seqNo, w.forks[again].heldId, receiptId,
                         op.keys)
  {
    if !op.Resolve? {
      OnlyResolveReleases(w, op, w', again);
    } else if op.origin != again.origin || op.seqNo != again.seqNo {
      OtherPoint(w, op, w', again);
    } else {
      ReleaseAgrees(w, op, w', k);
      ReleaseAgrees(w, op, w', again);
    }
  }

  lemma ReleaseAgrees(w: World, op: Op, w': World, k: ForkKey)
    requires op.Resolve? && Moves(w, op, w') && k in w.forks && op.origin == k.origin && op.seqNo == k.seqNo
    requires w'.forks != w.forks
    ensures G.RowAgrees(w.forks[k], op.chosen, op.receiptId)
    ensures G.Authorized(w.log, w.lineage, w.trust, k.origin, k.seqNo, op.chosen, op.receiptId, op.keys)
  {
    assert k in G.PointRows(w.forks, op.origin, op.seqNo);
  }

  lemma AllAgree(w: World, k: ForkKey, again: ForkKey, receiptId: string)
    requires ForkInv(w.log, w.forks) && Refrozen(w.forks, k, again, receiptId)
    ensures forall x :: x in G.PointRows(w.forks, again.origin, again.seqNo) ==>
            G.RowAgrees(w.forks[x], w.forks[again].heldId, receiptId)
  {
    forall x | x in G.PointRows(w.forks, again.origin, again.seqNo)
      ensures G.RowAgrees(w.forks[x], w.forks[again].heldId, receiptId)
    {
      assert RowSound(w.log, x, w.forks[x]) && RowSound(w.log, again, w.forks[again]);
      assert SamePoint(x, k);
    }
  }

  // A refrozen point can be released now exactly when the receipt that resolved it
  // authorizes, once more, the resolution in favour of the held head.
  lemma ReleasableNow(w: World, k: ForkKey, again: ForkKey, receiptId: string, keys: A.Keyring)
    requires Inv(w) && Refrozen(w.forks, k, again, receiptId)
    ensures ThawsNow(w, again, keys) <==>
            G.Authorized(w.log, w.lineage, w.trust, again.origin, again.seqNo, w.forks[again].heldId, receiptId, keys)
  {
    if op, w' :| Moves(w, op, w') && (op.Resolve? ==> op.keys == keys) && again in w'.forks && !w'.forks[again].frozen {
      ThawIsRelease(w, op, w', k, again, receiptId);
    }
    if G.Authorized(w.log, w.lineage, w.trust, again.origin, again.seqNo, w.forks[again].heldId, receiptId, keys) {
      var w' := Thaw(w, k, again, receiptId, keys);
    }
  }

  lemma Thaw(w: World, k: ForkKey, again: ForkKey, receiptId: string, keys: A.Keyring) returns (w': World)
    requires Inv(w) && Refrozen(w.forks, k, again, receiptId)
    requires G.Authorized(w.log, w.lineage, w.trust, again.origin, again.seqNo, w.forks[again].heldId, receiptId, keys)
    ensures Moves(w, Attempt(again, w.forks[again].heldId, receiptId, keys, None), w') && again in w'.forks
    ensures !w'.forks[again].frozen
  {
    var held, rows := w.forks[again].heldId, G.PointRows(w.forks, again.origin, again.seqNo);
    AllAgree(w, k, again, receiptId);
    assert again in rows;
    G.Released(w.log, w.forks, w.lineage, w.trust, again.origin, again.seqNo, held, receiptId, keys);
    w' := w.(forks := G.Resolved(w.forks, again.origin, again.seqNo, held, receiptId),
             trust := G.RevokedAll(w.trust, G.RivalKeys(w.forks, rows), again.seqNo));
  }

  // ---- over a run ----

  // Authority configurations are held under fresh digests, and one key registry judges.
  ghost predicate UniqueAlong(ws: seq<World>, keys: A.Keyring, ops: seq<Op>) {
    && (forall i :: 0 <= i < |ws| ==> G.UniqueDigests(ws[i].log))
    && (forall i :: 0 <= i < |ops| && ops[i].Resolve? ==> ops[i].keys == keys)
  }

  ghost predicate Trapped(ws: seq<World>, n: nat, k: ForkKey, again: ForkKey, receiptId: string) {
    n < |ws| && Refrozen(ws[n].forks, k, again, receiptId)
  }

  // The resolving receipt did authorize the resolution, at some earlier moment of the run.
  ghost predicate AuthorizedAt(ws: seq<World>, ops: seq<Op>, h: nat, k: ForkKey, chosen: string, receiptId: string)
    requires |ws| == |ops| + 1
  {
    && h < |ops| && ops[h].Resolve?
    && G.Authorized(ws[h].log, ws[h].lineage, ws[h].trust, k.origin, k.seqNo, chosen, receiptId, ops[h].keys)
  }

  lemma ResolvedByRelease(w: World, op: Op, w': World, k: ForkKey)
    requires Inv(w) && Inv(w') && Moves(w, op, w') && k in w'.forks && !w'.forks[k].frozen
    requires (k in w.forks ==> w.forks[k].frozen)
    ensures op.Resolve? && w'.forks[k].resolvedBy == Some(op.receiptId)
    ensures G.Authorized(w.log, w.lineage, w.trust, k.origin, k.seqNo, w'.forks[k].heldId, op.receiptId, op.keys)
  {
    if !op.Resolve? {
      NotResolvedBy(w, op, w', k);
    } else if op.origin != k.origin || op.seqNo != k.seqNo {
      OtherPoint(w, op, w', k);
    } else {
      ReleaseAgrees(w, op, w', k);
      HeadKept(w, op, w', k);
    }
  }

  lemma NotResolvedBy(w: World, op: Op, w': World, k: ForkKey)
    requires Inv(w) && Moves(w, op, w') && !op.Resolve? && k in w'.forks && (k in w.forks ==> w.forks[k].frozen)
    ensures w'.forks[k].frozen
  {
    if k in w.forks {
      OnlyResolveReleases(w, op, w', k);
    } else if op.Deliver? {
      BatchEnters(Opening(w.log, w.forks, w.history), op.r, op.batch);
    }
  }

  lemma HeadKept(w: World, op: Op, w': World, k: ForkKey)
    requires op.Resolve? && Moves(w, op, w') && k in w.forks && w'.forks != w.forks && op.origin == k.origin
    requires op.seqNo == k.seqNo
    ensures k in w'.forks && w'.forks[k].heldId == w.forks[k].heldId
    ensures w.forks[k].frozen ==> w'.forks[k].resolvedBy == Some(op.receiptId) && w'.forks[k].heldId == op.chosen
  {
    assert k in G.PointRows(w.forks, op.origin, op.seqNo);
  }

  predicate IsResolved(forks: Forks, k: ForkKey) { k in forks && !forks[k].frozen }

  // A row resolved after a step was resolved before it, the same way, or is released by it.
  lemma ResolvedNext(ws: seq<World>, ops: seq<Op>, n: nat, k: ForkKey)
    requires Run(ws, ops) && n < |ops| && IsResolved(ws[n + 1].forks, k)
    ensures if IsResolved(ws[n].forks, k) then ws[n + 1].forks[k] == ws[n].forks[k]
            else ws[n + 1].forks[k].resolvedBy.Some?
                 && AuthorizedAt(ws, ops, n, k, ws[n + 1].forks[k].heldId, ws[n + 1].forks[k].resolvedBy.value)
  {
    RunKeepsInv(ws, ops, n);
    RunKeepsInv(ws, ops, n + 1);
    StepTaken(ws, ops, n);
    if IsResolved(ws[n].forks, k) {
      RowsPersist(ws[n], ops[n], ws[n + 1], k);
    } else {
      ResolvedByRelease(ws[n], ops[n], ws[n + 1], k);
    }
  }

  lemma StartsEmpty(ws: seq<World>, ops: seq<Op>)
    requires Run(ws, ops)
    ensures ws[0].forks == map[]
  {
  }

  lemma {:induction false} ResolvedWasAuthorized(ws: seq<World>, ops: seq<Op>, i: nat, k: ForkKey) returns (h: nat)
    requires Run(ws, ops) && i < |ws| && IsResolved(ws[i].forks, k)
    ensures h < i && ws[i].forks[k].resolvedBy.Some?
    ensures AuthorizedAt(ws, ops, h, k, ws[i].forks[k].heldId, ws[i].forks[k].resolvedBy.value)
  {
    StartsEmpty(ws, ops);
    ResolvedNext(ws, ops, i - 1, k);
    if IsResolved(ws[i - 1].forks, k) {
      h := ResolvedWasAuthorized(ws, ops, i - 1, k);
    } else {
      h := i - 1;
    }
  }

  lemma HeldTogether(w: World, k: ForkKey, again: ForkKey)
    requires RowsSound(w.log, w.forks) && k in w.forks && again in w.forks && SamePoint(k, again)
    ensures w.forks[k].heldId == w.forks[again].heldId
  {
    assert RowSound(w.log, k, w.forks[k]) && RowSound(w.log, again, w.forks[again]);
  }

  // Where one registry judges and digests are distinct, a refrozen point can be released now
  // exactly when the resolving receipt's policy is in force, its configuration is the head
  // of its key, and a quorum of its signers is active.
  lemma ReleasableExactly(ws: seq<World>, ops: seq<Op>, i: nat, k: ForkKey, again: ForkKey, receiptId: string,
                          keys: A.Keyring,
                          r: Receipt, store: A.Store)
    requires Run(ws, ops) && UniqueAlong(ws, keys, ops) && Trapped(ws, i, k, again, receiptId)
    requires G.HoldsReceipt(ws[i].log, receiptId, r) && G.Loaded(ws[i].log, store)
    ensures ThawsNow(ws[i], again, keys) <==> G.StillGood(ws[i].lineage, ws[i].trust, r, store, keys)
  {
    RunKeepsInv(ws, ops, i);
    ReleasableNow(ws[i], k, again, receiptId, keys);
    HeldTogether(ws[i], k, again);
    var h := ResolvedWasAuthorized(ws, ops, i, k);
    RunKeepsInv(ws, ops, h);
    RunIsAppendOnly(ws, ops, h, i);
    G.AuthorizedIsStillGood(ws[h].log, ws[h].lineage, ws[h].trust, ws[i].log, ws[i].lineage, ws[i].trust,
                            again.origin, again.seqNo, ws[i].forks[again].heldId, receiptId, keys, r, store);
  }

  // ---- for ever ----

  lemma LineageStep(w: World, op: Op, w': World)
    requires Inv(w) && Moves(w, op, w')
    ensures G.LineageKept(w.lineage, w'.lineage) && w.lineage.Keys <= w'.lineage.Keys
  {
    if op.Establish? && op.result.Ok? {
      var prior := G.CurrentPolicy(w.lineage).value;
      if prior != Some(G.BundleDigest(op.bundle)) {
        forall d | d in w.lineage && w.lineage[d].supersededBy.Some?
          ensures d in w'.lineage && w'.lineage[d] == w.lineage[d]
        {
          G.SupersededStays(w.lineage, op.bundle, op.receiptId, prior, d);
        }
      }
    }
  }

  lemma NextLineage(ws: seq<World>, ops: seq<Op>, n: nat)
    requires Run(ws, ops) && n < |ops|
    ensures G.LineageKept(ws[n].lineage, ws[n + 1].lineage) && ws[n].lineage.Keys <= ws[n + 1].lineage.Keys
  {
    RunKeepsInv(ws, ops, n);
    StepTaken(ws, ops, n);
    LineageStep(ws[n], ops[n], ws[n + 1]);
  }

  lemma {:induction false} RunKeepsLineage(ws: seq<World>, ops: seq<Op>, i: nat, j: nat)
    requires Run(ws, ops) && i <= j < |ws|
    ensures G.LineageKept(ws[i].lineage, ws[j].lineage) && ws[i].lineage.Keys <= ws[j].lineage.Keys
  {
    if i < j {
      RunKeepsLineage(ws, ops, i, j - 1);
      NextLineage(ws, ops, j - 1);
    }
  }

  lemma RunKeepsRevocations(ws: seq<World>, ops: seq<Op>, i: nat, j: nat)
    requires Run(ws, ops) && i <= j < |ws|
    ensures G.RevocationsKept(ws[i].trust, ws[j].trust)
  {
    forall key | T.StandingAt(ws[i].trust, key, None) == T.Revoked
      ensures T.StandingAt(ws[j].trust, key, None) == T.Revoked
    {
      RunTrustForward(ws, ops, i, j, key, None);
    }
  }

  // The receipt is past recovery: its policy superseded, or, where digests are distinct and
  // one registry judges, its configuration no longer the head (succeeded, or blocked by a
  // rival) or its quorum revoked.
  ghost predicate Dead(ws: seq<World>, ops: seq<Op>, i: nat, receiptId: string, keys: A.Keyring)
    requires i < |ws|
  {
    var w := ws[i];
    || G.ReceiptStale(w.log, w.lineage, receiptId)
    || (UniqueAlong(ws, keys, ops)
        && (G.ReceiptLapsed(w.log, receiptId, keys) || G.ReceiptUnmanned(w.log, w.trust, receiptId)))
  }

  lemma DeadStaysDead(ws: seq<World>, ops: seq<Op>, i: nat, n: nat, k: ForkKey, receiptId: string, keys: A.Keyring,
                      chosen: string)
    requires Run(ws, ops) && i <= n < |ops| && k in ws[i].forks && !ws[i].forks[k].frozen
    requires ws[i].forks[k].resolvedBy == Some(receiptId)
    requires Dead(ws, ops, i, receiptId, keys) && ops[n].Resolve?
    ensures !G.Authorized(ws[n].log, ws[n].lineage, ws[n].trust, k.origin, k.seqNo, chosen, receiptId, ops[n].keys)
  {
    RunKeepsInv(ws, ops, i);
    RunKeepsInv(ws, ops, n);
    RunIsAppendOnly(ws, ops, i, n);
    if G.ReceiptStale(ws[i].log, ws[i].lineage, receiptId) {
      RunKeepsLineage(ws, ops, i, n);
      G.StaleReceiptAuthorizesNothing(ws[i].log, ws[i].lineage, ws[n].log, ws[n].lineage, ws[n].trust, k.origin,
                                      k.seqNo, chosen, receiptId, ops[n].keys);
    } else if G.ReceiptUnmanned(ws[i].log, ws[i].trust, receiptId) {
      RunKeepsRevocations(ws, ops, i, n);
      G.UnmannedReceiptAuthorizesNothing(ws[i].log, ws[i].trust, ws[n].log, ws[n].lineage, ws[n].trust, k.origin,
                                         k.seqNo, chosen, receiptId, ops[n].keys);
    } else {
      LapsedStaysLapsed(ws, ops, i, n, k, receiptId, keys, chosen);
    }
  }

  lemma LapsedStaysLapsed(ws: seq<World>, ops: seq<Op>, i: nat, n: nat, k: ForkKey, receiptId: string, keys: A.Keyring,
                          chosen: string)
    requires Run(ws, ops) && i <= n < |ops| && k in ws[i].forks && !ws[i].forks[k].frozen
    requires ws[i].forks[k].resolvedBy == Some(receiptId)
    requires UniqueAlong(ws, keys, ops) && G.ReceiptLapsed(ws[i].log, receiptId, keys) && ops[n].Resolve?
    ensures !G.Authorized(ws[n].log, ws[n].lineage, ws[n].trust, k.origin, k.seqNo, chosen, receiptId, ops[n].keys)
  {
    var h := ResolvedWasAuthorized(ws, ops, i, k);
    RunKeepsInv(ws, ops, h);
    RunKeepsInv(ws, ops, i);
    RunKeepsInv(ws, ops, n);
    RunIsAppendOnly(ws, ops, h, i);
    RunIsAppendOnly(ws, ops, i, n);
    G.LapsedReceiptAuthorizesNothing(ws[h].log, ws[h].lineage, ws[h].trust, k.origin, k.seqNo, ws[i].forks[k].heldId,
                                     ws[i].log, ws[n].log, ws[n].lineage, ws[n].trust, k.origin, k.seqNo, chosen,
                                         receiptId, keys);
  }

  lemma StillTrapped(w: World, op: Op, w': World, k: ForkKey, again: ForkKey, receiptId: string)
    requires Inv(w) && Moves(w, op, w') && Refrozen(w.forks, k, again, receiptId)
    requires op.Resolve? ==>
             !G.Authorized(w.log, w.lineage, w.trust, k.origin, k.seqNo, w.forks[again].heldId, receiptId, op.keys)
    ensures Refrozen(w'.forks, k, again, receiptId)
  {
    RowsPersist(w, op, w', k);
    RowsPersist(w, op, w', again);
    if !w'.forks[again].frozen { ThawIsRelease(w, op, w', k, again, receiptId); }
  }

  lemma TrappedNext(ws: seq<World>, ops: seq<Op>, i: nat, n: nat, k: ForkKey, again: ForkKey, receiptId: string,
                    keys: A.Keyring)
    requires Run(ws, ops) && i <= n < |ops| && Trapped(ws, i, k, again, receiptId) && Dead(ws, ops, i, receiptId, keys)
    requires Trapped(ws, n, k, again, receiptId)
    ensures Trapped(ws, n + 1, k, again, receiptId)
  {
    RunKeepsInv(ws, ops, n);
    StepTaken(ws, ops, n);
    if ops[n].Resolve? { DeadStaysDead(ws, ops, i, n, k, receiptId, keys, ws[n].forks[again].heldId); }
    StillTrapped(ws[n], ops[n], ws[n + 1], k, again, receiptId);
  }

  lemma {:induction false} StaysTrapped(ws: seq<World>, i: nat, j: nat, k: ForkKey, again: ForkKey, receiptId: string)
    requires i <= j < |ws| && Trapped(ws, i, k, again, receiptId)
    requires forall n: nat {:trigger Trapped(ws, n, k, again, receiptId)} ::
               i <= n < |ws| - 1 && Trapped(ws, n, k, again, receiptId) ==> Trapped(ws, n + 1, k, again, receiptId)
    ensures Trapped(ws, j, k, again, receiptId)
  {
    if i < j { StaysTrapped(ws, i, j - 1, k, again, receiptId); }
  }

  // A fork point that was resolved under a receipt now dead, and that another rival has
  // frozen again, stays frozen in every continuation of the run.
  lemma RefrozenForever(ws: seq<World>, ops: seq<Op>, i: nat, j: nat, k: ForkKey, again: ForkKey, receiptId: string,
                        keys: A.Keyring)
    requires Run(ws, ops) && i <= j < |ws| && Trapped(ws, i, k, again, receiptId) && Dead(ws, ops, i, receiptId, keys)
    ensures Trapped(ws, j, k, again, receiptId)
  {
    forall n: nat | i <= n < |ws| - 1 && Trapped(ws, n, k, again, receiptId)
      ensures Trapped(ws, n + 1, k, again, receiptId)
    {
      TrappedNext(ws, ops, i, n, k, again, receiptId, keys);
    }
    StaysTrapped(ws, i, j, k, again, receiptId);
  }

  // For a receipt pinned to a policy, not in force or not the head is already for ever.
  lemma NotNowIsNever(ws: seq<World>, ops: seq<Op>, i: nat, j: nat, k: ForkKey, again: ForkKey, receiptId: string,
                      keys: A.Keyring,
                      r: Receipt, store: A.Store)
    requires Run(ws, ops) && i <= j < |ws| && UniqueAlong(ws, keys, ops) && Trapped(ws, i, k, again, receiptId)
    requires G.HoldsReceipt(ws[i].log, receiptId, r) && G.Loaded(ws[i].log, store) && r.policyDigest.Some?
    requires G.CurrentPolicy(ws[i].lineage) != G.Ok(r.policyDigest) || G.Lapsed(store, r, keys)
    ensures Trapped(ws, j, k, again, receiptId)
  {
    if !G.Lapsed(store, r, keys) { PinnedIsStale(ws, ops, i, k, receiptId, r); }
    RefrozenForever(ws, ops, i, j, k, again, receiptId, keys);
  }

  lemma PinnedIsStale(ws: seq<World>, ops: seq<Op>, i: nat, k: ForkKey, receiptId: string, r: Receipt)
    requires Run(ws, ops) && i < |ws| && k in ws[i].forks && !ws[i].forks[k].frozen
    requires ws[i].forks[k].resolvedBy == Some(receiptId)
    requires G.HoldsReceipt(ws[i].log, receiptId, r) && r.policyDigest.Some?
    requires G.CurrentPolicy(ws[i].lineage) != G.Ok(r.policyDigest)
    ensures G.ReceiptStale(ws[i].log, ws[i].lineage, receiptId)
  {
    var h := ResolvedWasAuthorized(ws, ops, i, k);
    RunKeepsInv(ws, ops, h);
    RunKeepsInv(ws, ops, i);
    RunIsAppendOnly(ws, ops, h, i);
    RunKeepsLineage(ws, ops, h, i);
    G.AuthorizedPolicy(ws[h].log, ws[h].lineage, ws[h].trust, k.origin, k.seqNo, ws[i].forks[k].heldId, receiptId,
                       ops[h].keys, ws[i].log, r);
    G.HeldOrRetired(ws[i].lineage, r.policyDigest.value);
  }
}
