// One node's store: the write path, the admission loop and the two authority operations
// over the same tables, each keeping every invariant of the store.

module Node {
  import opened Prelude
  import opened Vocabulary
  import opened Replication
  import opened Ledger
  import opened Freezing
  import opened Confluence
  import Hlc
  import E = Emission
  import G = Gate
  import A = Authority
  import T = Trust
  import N = Newest

  // ---- the head cache one batch keeps ----

  datatype Top = Top(seqNo: int, hash: string)

  function CachedSeq(heads: map<string, Top>, o: string): int { if o in heads then heads[o].seqNo else 0 }

  function CachedHash(heads: map<string, Top>, o: string): Option<string> {
    if o in heads then Some(heads[o].hash) else None
  }

  ghost predicate CacheTrue(heads: map<string, Top>, log: Log) {
    forall o {:trigger Head(log, o)} {:trigger CachedSeq(heads, o)} ::
      CachedSeq(heads, o) == Head(log, o) && CachedHash(heads, o) == HeadHash(log, o)
  }

  function Origins(log: Log): set<string> { set p | p in log :: p.origin }

  function Tops(log: Log): (heads: map<string, Top>)
    requires LogInv(log)
    ensures CacheTrue(heads, log)
  {
    var heads := map o | o in Origins(log) :: Top(Head(log, o), log[Pos(o, Head(log, o))].selfHash);
    assert forall o :: o in Origins(log) <==> Holds(log, o);
    forall o
      ensures CachedSeq(heads, o) == Head(log, o) && CachedHash(heads, o) == HeadHash(log, o)
    {
      HeadFacts(log, o);
    }
    heads
  }

  lemma HeadAfterAppend(log: Log, p: Pos, e: Event, o: string)
    requires LogInv(log) && LogInv(log[p := e]) && p !in log && p.seqNo == Head(log, p.origin) + 1
    ensures Head(log[p := e], o) == if o == p.origin then p.seqNo else Head(log, o)
    ensures HeadHash(log[p := e], o) == if o == p.origin then Some(e.selfHash) else HeadHash(log, o)
  {
    var log' := log[p := e];
    HeadFacts(log, o);
    HeadFacts(log', o);
    if o == p.origin {
      GapFree(log', o, p.seqNo);
      assert Pos(o, Head(log', o)) in log';
      GapFree(log, o, Head(log', o));
    } else {
      SameHead(log, log', o);
    }
  }

  lemma SameHead(log: Log, log': Log, o: string)
    requires LogInv(log) && LogInv(log') && forall k :: Pos(o, k) in log <==> Pos(o, k) in log'
    ensures Head(log', o) == Head(log, o)
  {
    HeadFacts(log, o);
    HeadFacts(log', o);
    GapFree(log, o, Head(log', o));
    GapFree(log', o, Head(log, o));
  }

  lemma CacheAfterAppend(heads: map<string, Top>, log: Log, p: Pos, e: Event)
    requires LogInv(log) && LogInv(log[p := e]) && p !in log && p.seqNo == Head(log, p.origin) + 1
    requires CacheTrue(heads, log)
    ensures CacheTrue(heads[p.origin := Top(p.seqNo, e.selfHash)], log[p := e])
  {
    var heads' := heads[p.origin := Top(p.seqNo, e.selfHash)];
    forall o ensures CachedSeq(heads', o) == Head(log[p := e], o) && CachedHash(heads', o) == HeadHash(log[p := e], o) {
      assert CachedSeq(heads, o) == Head(log, o);
      HeadAfterAppend(log, p, e, o);
    }
  }

  lemma CacheAfterUpgrade(heads: map<string, Top>, log: Log, p: Pos, e: Event)
    requires LogInv(log) && LogInv(log[p := e]) && p in log && e.selfHash == log[p].selfHash && CacheTrue(heads, log)
    ensures CacheTrue(heads, log[p := e])
  {
    forall o ensures CachedSeq(heads, o) == Head(log[p := e], o) && CachedHash(heads, o) == HeadHash(log[p := e], o) {
      assert CachedSeq(heads, o) == Head(log, o);
      SameHead(log, log[p := e], o);
    }
  }

  // ---- happens-before ----

  ghost predicate Past(clock: Hlc.Clock, hlc: string)
    reads clock
  {
    Hlc.Parse(hlc).Some?
    && Hlc.After(clock.physical, clock.logical, Hlc.Parse(hlc).value.physical, Hlc.Parse(hlc).value.logical)
  }

  // The event outranks, in the order every projection folds by, each materialized event whose
  // stamp the reading had reached.
  ghost predicate Outranks(e: Event, log: Log, physical: nat, logical: nat) {
    && e.payload.Some? && Hlc.Parse(e.hlc).Some?
    && forall g :: g in Materialized(log) && !Hlc.After(g.physical, g.logical, physical, logical) ==>
         N.Newer(FactOf(e), g) && !N.Newer(g, FactOf(e))
  }

  lemma StampOutranks(e: Event, log: Log, p: nat, l: nat, physical: nat, logical: nat, node: string)
    requires e.payload.Some? && Hlc.Parse(e.hlc).Some? && e.hlc == Hlc.Render(Hlc.Stamp(p, l, node))
    requires Hlc.After(p, l, physical, logical)
    ensures Outranks(e, log, physical, logical)
  {
    Hlc.RoundTrip(Hlc.Stamp(p, l, node));
    forall g | g in Materialized(log) && !Hlc.After(g.physical, g.logical, physical, logical)
      ensures N.Newer(FactOf(e), g) && !N.Newer(g, FactOf(e))
    {
      N.StampedAfter(FactOf(e), g);
    }
  }

  class Store {
    var log: Log
    var forks: Forks
    var lineage: G.Lineage
    ghost var history: seq<Step>

    ghost predicate Valid()
      reads this`log, this`history, this`forks
    {
      LogInv(log) && LedgerInv(log, history) && ForkInv(log, forks)
    }

    constructor ()
      ensures Valid() && log == map[] && forks == map[] && lineage == map[] && history == []
    {
      log, forks, lineage, history := map[], map[], map[], [];
      new;
      assert LedgerInv(log, history);
    }

    // APPEND one minted envelope and reduce it, as the service does in one transaction.
    method Record(e: Event)
      requires Valid() && Verify(e) && Hlc.Parse(e.hlc).Some?
      requires e.seqNo == Head(log, e.origin) + 1 && e.prevHash == HeadHash(log, e.origin)
      modifies this`log, this`history
      ensures Valid() && Extends(old(log), log)
      ensures log == old(log)[Pos(e.origin, e.seqNo) := e] && history == old(history) + Reductions(e)
    {
      E.StoreMinted(log, history, Pos(e.origin, e.seqNo), e);
      RowsOutliveGrowth(log, log[Pos(e.origin, e.seqNo) := e], forks);
      log, history := log[Pos(e.origin, e.seqNo) := e], history + Reductions(e);
    }

    // IDENTIFY, ATTEST, SERIALIZE and VERIFY, and whether the reduction could order the
    // stamp: nothing is written yet.
    method Mint(id: E.Identity, d: E.Draft, stamp: string, live: bool) returns (o: E.Outcome)
      ensures o == E.Emit(log, id, d, stamp, live)
    {
      var seqNo, prev := Head(log, id.node) + 1, HeadHash(log, id.node);
      if E.VersionOf(d) == 1 && d.scope.Some? {
        return E.ScopeOnVersionOne;
      }
      if id.credential.None? && live {
        return E.Unattested;
      }
      var e := E.Sealed(id, E.Unsealed(id, d, seqNo, prev, stamp));
      assert e == E.Minted(log, id, d, stamp);
      if !Verify(e) {
        return E.Inconsistent;
      }
      if Hlc.Parse(stamp).None? {
        return E.Unorderable;
      }
      o := E.Emitted(e);
    }

    // One emit. The stamp is past everything this clock has given out or merged.
    method EmitAndReduce(id: E.Identity, d: E.Draft, clock: Hlc.Clock, now: nat, live: bool) returns (o: E.Outcome)
      requires Valid() && clock.node == id.node
      modifies this`log, this`history, clock
      ensures Valid() && Extends(old(log), log)
      ensures Hlc.After(clock.physical, clock.logical, old(clock.physical), old(clock.logical))
      ensures o == E.Emit(old(log), id, d, Hlc.Render(Hlc.Stamp(clock.physical, clock.logical, clock.node)), live)
      ensures !o.Emitted? ==> log == old(log) && history == old(history)
      ensures o.Emitted? ==>
                && o.event.origin == id.node && o.event.seqNo == Head(old(log), id.node) + 1
                && log == old(log)[Pos(o.event.origin, o.event.seqNo) := o.event]
                && history == old(history) + Reductions(o.event)
      ensures o.Emitted? ==> Outranks(o.event, old(log), old(clock.physical), old(clock.logical))
    {
      var stamp := clock.Tick(now);
      o := Mint(id, d, stamp, live);
      if o.Emitted? {
        E.EmittedEvent(log, id, d, stamp, live);
        StampOutranks(o.event, log, clock.physical, clock.logical, old(clock.physical), old(clock.logical), clock.node);
        Record(o.event);
      }
    }

    // The gate on one delivered event, against the cached heads.
    method JudgeOne(ghost s: Admission, r: Receiver, e: Event, heads: map<string, Top>, poisoned: set<string>,
                    frozen: set<string>)
      returns (v: Verdict)
      requires s.log == log && s.poisoned == poisoned && s.frozen == frozen && CacheTrue(heads, log)
      ensures v == Judge(s, r, e)
    {
      if e.origin in frozen {
        return Refuse(OriginFrozen);
      }
      if e.origin in poisoned {
        return Refuse(PredecessorRejected);
      }
      var headSeq, headHash := CachedSeq(heads, e.origin), CachedHash(heads, e.origin);
      assert headSeq == Head(log, e.origin) && headHash == HeadHash(log, e.origin);
      if e.seqNo <= headSeq {
        v := JudgeRow(r, e);
        return;
      }
      if e.seqNo != headSeq + 1 {
        return Refuse(ChainGap);
      }
      if e.prevHash != headHash {
        return Refuse(ChainBreak);
      }
      v := JudgeGate(r, e);
    }

    method JudgeRow(r: Receiver, e: Event) returns (v: Verdict)
      ensures v == JudgeHeld(log, r, e)
    {
      var p := Pos(e.origin, e.seqNo);
      if p in log && log[p].id == e.id {
        if log[p].IsStub() && e.payload.Some? {
          if Unrequested(r, e) {
            return Report(ScopeUnrequested);
          }
          if !Verify(e) {
            return Report(UpgradeDigestMismatch);
          }
          return if log[p].scopeRef.Some? then Raise else Upgrade;
        }
        return Redelivered;
      }
      if p in log && Authentic(r, e, None) {
        return Freeze(Classify(r, log[p], e));
      }
      v := Refuse(Collision);
    }

    method JudgeGate(r: Receiver, e: Event) returns (v: Verdict)
      ensures v == JudgeNext(r, e)
    {
      var late := Temporal(r, e.hlc);
      if late.Some? {
        return Refuse(late.value);
      }
      if e.scopeRef.Some? && e.scopeDigest != Some(ScopeDigest(e.scopeRef.value)) {
        return Refuse(ScopeDigestMismatch);
      }
      if !Verify(e) {
        return Refuse(EnvelopeInvalid);
      }
      if !IsSigned(e) {
        return Refuse(Unsigned);
      }
      if !Provenance(r, e) {
        return Refuse(ProvenanceInvalid);
      }
      var standing := T.StandingAt(r.trust, e.keyRef.value, Some(e.seqNo));
      if standing != T.Active {
        return Refuse(Distrusted(standing));
      }
      if T.NodeOf(r.trust, e.keyRef.value) != Some(e.origin) {
        return Refuse(ForgedOrigin);
      }
      v := Append(Unrequested(r, e) && !e.IsStub());
    }

    // Every clock merge of a batch reads the wall clock; `wall` stands for those readings.
    method Merge(clock: Hlc.Clock?, hlc: string, wall: nat)
      requires Hlc.Parse(hlc).Some?
      modifies clock
      ensures clock != null ==> Past(clock, hlc) && NotBehind(clock, old(clock.physical), old(clock.logical))
    {
      if clock != null {
        var stamp := clock.Update(hlc, wall);
      }
    }

    // What a verdict writes, in the tables and in the cache.
    method Carry(ghost s: Admission, r: Receiver, e: Event, v: Verdict, heads: map<string, Top>, poisoned: set<string>,
                 frozen: set<string>,
                 clock: Hlc.Clock?, wall: nat)
      returns (heads': map<string, Top>, poisoned': set<string>, frozen': set<string>, admitted: seq<string>,
               rejected: seq<Rejection>, raised: bool)
      requires LogInv(log) && CacheTrue(heads, log) && Fits(log, e, v)
      requires s.log == log && s.forks == forks && s.history == history && s.poisoned == poisoned && s.frozen == frozen
      requires !s.raised
      modifies this`log, this`forks, this`history, clock
      ensures Admission(log, forks, history, poisoned', frozen', s.admitted + admitted, s.rejected + rejected,
                  raised) == Perform(s, r, e, v)
      ensures CacheTrue(heads', log)
      ensures clock != null ==> NotBehind(clock, old(clock.physical), old(clock.logical))
      ensures clock != null ==> forall p :: p in log && p !in old(log) ==> Past(clock, log[p].hlc)
    {
      heads', poisoned', frozen', admitted, rejected, raised := heads, poisoned, frozen, [], [], false;
      var p := Pos(e.origin, e.seqNo);
      match v {
        case Refuse(reason) =>
          rejected, poisoned' := [Rejected(e, reason)], poisoned + {e.origin};
        case Freeze(c) =>
          var k := ForkKey(e.origin, e.seqNo, e.selfHash);
          if k !in forks {
            forks := forks[k := Fork(log[p].id, e.keyRef, c, true, None, None)];
          }
          frozen' := frozen + {e.origin};
          rejected, poisoned' := [Rejected(e, ForkEvidence(c))], poisoned + {e.origin};
        case Report(reason) =>
          rejected := [Rejected(e, reason)];
        case Redelivered =>
        case Raise =>
          raised := true;
        case Upgrade =>
          var row := Upgraded(log[p], e);
          CacheAfterUpgrade(heads, log, p, row);
          log, history := log[p := row], history + Reductions(row);
          admitted := [e.id];
        case Append(drop) =>
          var row := if drop then Withhold(e) else e;
          CacheAfterAppend(heads, log, p, row);
          if drop {
            rejected := [Rejected(e, ScopeUnrequested)];
          }
          log, history := log[p := row], history + Reductions(row);
          heads' := heads[e.origin := Top(e.seqNo, e.selfHash)];
          Merge(clock, e.hlc, wall);
          admitted := [e.id];
      }
    }

    method AdmitOne(ghost s: Admission, r: Receiver, e: Event, heads: map<string, Top>, poisoned: set<string>,
                    frozen: set<string>,
                    clock: Hlc.Clock?, wall: nat)
      returns (heads': map<string, Top>, poisoned': set<string>, frozen': set<string>, admitted: seq<string>,
               rejected: seq<Rejection>, raised: bool)
      requires LogInv(log) && CacheTrue(heads, log)
      requires s.log == log && s.forks == forks && s.history == history && s.poisoned == poisoned && s.frozen == frozen
      requires !s.raised
      modifies this`log, this`forks, this`history, clock
      ensures Admission(log, forks, history, poisoned', frozen', s.admitted + admitted, s.rejected + rejected,
                  raised) == Admit(s, r, e)
      ensures CacheTrue(heads', log)
      ensures clock != null ==> NotBehind(clock, old(clock.physical), old(clock.logical))
      ensures clock != null ==> forall p :: p in log && p !in old(log) ==> Past(clock, log[p].hlc)
    {
      var v := JudgeOne(s, r, e, heads, poisoned, frozen);
      VerdictFits(s, r, e);
      heads', poisoned', frozen', admitted, rejected, raised := Carry(s, r, e, v, heads, poisoned, frozen, clock, wall);
    }

    // The loop over one batch, up to the first write the store refuses. `wall` is what the
    // wall clock reads at each event.
    method AdmitEach(ghost opening: Admission, batch: seq<Event>, r: Receiver, clock: Hlc.Clock?, wall: nat -> nat)
      returns (admitted: seq<string>, rejected: seq<Rejection>, raised: bool)
      requires LogInv(log) && opening == Opening(log, forks, history)
      modifies this`log, this`forks, this`history, clock
      ensures raised <==> AdmitAll(opening, r, batch).raised
      ensures !raised ==> var s := AdmitAll(opening, r, batch);
        log == s.log && forks == s.forks && history == s.history && admitted == s.admitted && rejected == s.rejected
      ensures clock != null ==> NotBehind(clock, old(clock.physical), old(clock.logical))
      ensures !raised && clock != null ==> forall p :: p in log && p !in old(log) ==> Past(clock, log[p].hlc)
    {
      var heads := Tops(log);
      var poisoned, frozen := {}, FrozenOrigins(forks);
      admitted, rejected, raised := [], [], false;
      assert batch[..0] == [] && batch[..|batch|] == batch;
      for i := 0 to |batch|
        invariant Admission(log, forks, history, poisoned, frozen, admitted, rejected, false) ==
                  AdmitAll(opening, r, batch[..i])
        invariant LogInv(log) && CacheTrue(heads, log)
        invariant clock != null ==> NotBehind(clock, old(clock.physical), old(clock.logical))
        invariant clock != null ==> forall p :: p in log && p !in old(log) ==> Past(clock, log[p].hlc)
      {
        ghost var s := AdmitAll(opening, r, batch[..i]);
        label before:
        var more, refused;
        heads, poisoned, frozen, more, refused, raised := AdmitOne(s, r, batch[i], heads, poisoned, frozen, clock,
                                                                   wall(i));
        AdmitNext(opening, r, batch, i);
        if raised {
          RaisedLater(opening, r, batch, i + 1);
          return;
        }
        admitted, rejected := admitted + more, rejected + refused;
        AdmitKeepsLog(s, r, batch[i]);
        if clock != null {
          forall p | p in log && p !in old(log) ensures Past(clock, log[p].hlc) {
            if p in old@before(log) { StillPast(old@before(log), log, p); }
          }
        }
      }
    }

    // One batch within one transaction: when the store refuses a write the tables are
    // rolled back and the caller gets an error. The clock keeps what it has merged.
    method AdmitBatch(batch: seq<Event>, r: Receiver, clock: Hlc.Clock?, wall: nat -> nat)
      returns (admitted: seq<string>, rejected: seq<Rejection>, raised: bool)
      requires Valid()
      modifies this`log, this`forks, this`history, clock
      ensures Valid() && Extends(old(log), log)
      ensures var s := Committing(Opening(old(log), old(forks), old(history)), r, batch);
        && log == s.log && forks == s.forks && history == s.history && raised == s.raised
        && admitted == s.admitted && rejected == s.rejected
      ensures clock != null ==> NotBehind(clock, old(clock.physical), old(clock.logical))
      ensures clock != null ==> forall p :: p in log && p !in old(log) ==> Past(clock, log[p].hlc)
    {
      var logBefore, forksBefore := log, forks;
      ghost var historyBefore, opening := history, Opening(log, forks, history);
      admitted, rejected, raised := AdmitEach(opening, batch, r, clock, wall);
      if raised {
        log, forks, history := logBefore, forksBefore, historyBefore;
        admitted, rejected := [], [];
      } else {
        BatchKeepsLog(opening, r, batch);
        BatchKeepsLedger(opening, r, batch);
        BatchKeepsForks(opening, r, batch);
      }
    }

    // Release a frozen fork point. The evidence rows come in no particular order.
    method ResolveFork(trust: T.TrustRegistry, origin: string, seqNo: int, chosen: string, receiptId: string,
                       keys: A.Keyring)
      returns (refusal: Option<G.Refusal>)
      requires Valid()
      modifies this`forks, trust
      ensures Valid()
      ensures G.ResolveStep(log, old(forks), lineage, old(trust.R()), origin, seqNo, chosen, receiptId, keys, refusal,
                            forks, trust.R())
    {
      refusal := Authorize(trust.R(), origin, seqNo, chosen, receiptId, keys);
      if refusal.None? {
        refusal := Release(trust, origin, seqNo, chosen, receiptId, keys);
      }
    }

    // The walk over the evidence rows, and the release once all of them agree.
    method Release(trust: T.TrustRegistry, origin: string, seqNo: int, chosen: string, receiptId: string,
                   ghost keys: A.Keyring)
      returns (refusal: Option<G.Refusal>)
      requires Valid() && G.PointRows(forks, origin, seqNo) != {}
      requires G.Authorized(log, lineage, trust.R(), origin, seqNo, chosen, receiptId, keys)
      modifies this`forks, trust
      ensures Valid()
      ensures G.ResolveStep(log, old(forks), lineage, old(trust.R()), origin, seqNo, chosen, receiptId, keys, refusal,
                            forks, trust.R())
    {
      ghost var order;
      refusal, order := WalkRows(trust, G.PointRows(forks, origin, seqNo), origin, seqNo, chosen, receiptId);
      if refusal.Some? {
        G.Stopped(log, forks, lineage, old(trust.R()), origin, seqNo, chosen, receiptId, keys, order);
        return;
      }
      G.Released(log, forks, lineage, old(trust.R()), origin, seqNo, chosen, receiptId, keys);
      G.ReleaseKeepsForkInv(log, forks, origin, seqNo, chosen, receiptId);
      forks := G.Resolved(forks, origin, seqNo, chosen, receiptId);
    }

    // Everything judged before the evidence rows are walked.
    method Authorize(trust: T.Registry, origin: string, seqNo: int, chosen: string, receiptId: string, keys: A.Keyring)
      returns (refusal: Option<G.Refusal>)
      ensures refusal.Some? ==> !G.WalkRefusal(refusal.value) && G.Refusable(log, forks, lineage, trust, origin, seqNo,
                  chosen, receiptId, keys, refusal.value)
      ensures refusal.None? ==> G.PointRows(forks, origin, seqNo) != {} && G.Authorized(log, lineage, trust, origin,
                  seqNo, chosen, receiptId, keys)
    {
      if G.PointRows(forks, origin, seqNo) == {} {
        return Some(G.NoForkEvidence);
      }
      var receipt := G.LoadReceipt(log, receiptId);
      if receipt.None? {
        return Some(G.ReceiptIncomplete);
      }
      var current := G.CurrentPolicy(lineage);
      if current.Err? {
        var any := G.LoadProofStore(log);
        assert G.ExerciseRefuses(lineage, trust, origin, seqNo, chosen, keys, receipt.value, any, current.why);
        return Some(current.why);
      }
      var operation := G.ForkOperation(origin, seqNo, chosen, receipt.value.configurationDigest, current.value);
      var store;
      refusal, store := G.ExerciseGate(log, lineage, receipt.value, G.FORK_RESOLUTION_KEY, operation, keys, trust);
      if refusal.Some? {
        assert G.ExerciseRefuses(lineage, trust, origin, seqNo, chosen, keys, receipt.value, store, refusal.value);
      } else {
        assert G.Exercised(lineage, trust, origin, seqNo, chosen, keys, receipt.value, store);
      }
    }

    // The rows come in whatever order the table gives them; `order` records it.
    method WalkRows(trust: T.TrustRegistry, rows: set<ForkKey>, origin: string, seqNo: int, chosen: string,
                    receiptId: string)
      returns (refusal: Option<G.Refusal>, ghost order: seq<ForkKey>)
      requires rows == G.PointRows(forks, origin, seqNo)
      modifies trust
      ensures G.Enumerates(order, rows)
      ensures G.Walk(forks, order, chosen, receiptId, seqNo, old(trust.R())) == G.Walked(refusal, trust.R())
      ensures refusal.None? ==> forall k :: k in rows ==> G.RowAgrees(forks[k], chosen, receiptId)
      ensures refusal.None? ==> trust.R() == G.RevokedAll(old(trust.R()), G.RivalKeys(forks, rows), seqNo)
    {
      var todo := rows;
      order := [];
      while todo != {}
        invariant todo <= rows && G.Enumerates(order, rows - todo) && G.AllAgree(forks, order, chosen, receiptId)
        invariant G.Walk(forks, order, chosen, receiptId, seqNo, old(trust.R())) == G.Walked(None, trust.R())
      {
        var k :| k in todo;
        var row := forks[k];
        if !row.frozen {
          if row.chosenHead != Some(chosen) || row.resolvedBy != Some(receiptId) {
            order := G.StopsAt(forks, rows, order, todo, k, chosen, receiptId, seqNo, old(trust.R()));
            return Some(G.ForkAlreadyResolved), order;
          }
        } else {
          if chosen != row.heldId {
            order := G.StopsAt(forks, rows, order, todo, k, chosen, receiptId, seqNo, old(trust.R()));
            return Some(G.RivalAdoptionDeferred), order;
          }
          if row.rivalKey.Some? {
            trust.Revoke(row.rivalKey.value, Some(seqNo));
          }
        }
        G.GoesOn(forks, rows, order, todo, k, chosen, receiptId, seqNo, old(trust.R()));
        order := order + [k];
        todo := todo - {k};
      }
      G.WalkAgreeing(forks, order, chosen, receiptId, seqNo, old(trust.R()));
      assert (set k | k in order) == rows;
      refusal := None;
    }

    // Establish a policy bundle, superseding the current head if there is one.
    method EstablishPolicy(trust: T.Registry, bundle: string, receiptId: string, keys: A.Keyring)
      returns (r: G.Result<string>)
      requires Valid()
      modifies this`lineage
      ensures Valid() && (|G.Heads(old(lineage))| <= 1 ==> |G.Heads(lineage)| <= 1)
      ensures G.EstablishStep(log, old(lineage), trust, bundle, receiptId, keys, r, lineage)
    {
      var d := G.BundleDigest(bundle);
      var prior := G.CurrentPolicy(lineage);
      if prior.Err? {
        return G.Err(prior.why);
      }
      if prior.value == Some(d) {
        return G.Ok(d);
      }
      r := Supersede(trust, bundle, receiptId, keys, prior.value);
    }

    // A bundle other than the current head, receipt first.
    method Supersede(trust: T.Registry, bundle: string, receiptId: string, keys: A.Keyring, prior: Option<string>)
      returns (r: G.Result<string>)
      requires G.CurrentPolicy(lineage) == G.Ok(prior) && prior != Some(G.BundleDigest(bundle))
      modifies this`lineage
      ensures |G.Heads(lineage)| <= 1
      ensures G.EstablishStep(log, old(lineage), trust, bundle, receiptId, keys, r, lineage)
    {
      var d := G.BundleDigest(bundle);
      var refusal := AuthorizePolicy(trust, d, prior, receiptId, keys);
      if refusal.Some? {
        G.StepRefused(log, lineage, trust, bundle, receiptId, keys, prior, refusal.value);
        return G.Err(refusal.value);
      }
      G.StepTaken(log, lineage, trust, bundle, receiptId, keys, prior);
      MoveHead(bundle, receiptId, prior);
      r := G.Ok(d);
    }

    method AuthorizePolicy(trust: T.Registry, d: string, ghost prior: Option<string>, receiptId: string,
                           keys: A.Keyring)
      returns (refusal: Option<G.Refusal>)
      requires G.CurrentPolicy(lineage) == G.Ok(prior)
      ensures refusal == None ==> G.PolicyAuthorized(log, lineage, trust, d, prior, receiptId, keys)
      ensures refusal.Some? ==> G.PolicyBlocked(log, lineage, trust, d, receiptId, keys, refusal.value)
    {
      var receipt := G.LoadReceipt(log, receiptId);
      if receipt.None? {
        return Some(G.ReceiptIncomplete);
      }
      var operation := G.PolicyOperation(d, G.CurrentPolicy(lineage).value, receipt.value.configurationDigest);
      var store;
      refusal, store := G.ExerciseGate(log, lineage, receipt.value, G.POLICY_KEY, operation, keys, trust);
      if refusal.Some? {
        assert G.PolicyRefused(lineage, trust, d, keys, receipt.value, store, refusal.value);
      } else {
        assert G.PolicyExercised(lineage, trust, d, prior, keys, receipt.value, store);
      }
    }

    // Supersede the old head first, then insert the new one unless the bundle is already there.
    method MoveHead(bundle: string, receiptId: string, prior: Option<string>)
      requires prior.Some? ==> prior.value in lineage
      modifies this`lineage
      ensures lineage == G.Established(old(lineage), bundle, receiptId, prior)
    {
      var d := G.BundleDigest(bundle);
      if prior.Some? {
        lineage := lineage[prior.value := lineage[prior.value].(supersededBy := Some(d))];
      }
      if d !in lineage {
        lineage := lineage[d := G.Entry(bundle, receiptId, prior, None)];
      }
    }
  }

  lemma StillPast(log: Log, log': Log, p: Pos)
    requires Extends(log, log') && p in log
    ensures p in log' && log'[p].hlc == log[p].hlc
  {
    assert Committed(log'[p]).hlc == Committed(log[p]).hlc;
  }

  ghost predicate Fits(log: Log, e: Event, v: Verdict) {
    var p := Pos(e.origin, e.seqNo);
    match v
    case Freeze(_) => p in log
    case Upgrade => p in log && LogInv(log[p := Upgraded(log[p], e)])
    case Append(drop) =>
      && p !in log && e.seqNo == Head(log, e.origin) + 1 && Hlc.Parse(e.hlc).Some?
      && LogInv(log[p := if drop then Withhold(e) else e])
    case _ => true
  }

  lemma AppendFits(s: Admission, r: Receiver, e: Event)
    requires LogInv(s.log) && Judge(s, r, e).Append?
    ensures Fits(s.log, e, Judge(s, r, e))
  {
    AppendVerdict(s, r, e);
    HeadFacts(s.log, e.origin);
    NextStored(r, e);
    KeepsAppend(s.log, Pos(e.origin, e.seqNo), if Judge(s, r, e).drop then Withhold(e) else e);
  }

  lemma VerdictFits(s: Admission, r: Receiver, e: Event)
    requires LogInv(s.log)
    ensures Fits(s.log, e, Judge(s, r, e))
  {
    match Judge(s, r, e) {
      case Freeze(_) => FreezeAddsRow(s, r, e);
      case Upgrade =>
        UpgradeVerdict(s, r, e);
        KeepsUpgrade(s.log, Pos(e.origin, e.seqNo), e);
      case Append(_) => AppendFits(s, r, e);
      case _ =>
    }
  }

  ghost predicate NotBehind(clock: Hlc.Clock, physical: nat, logical: nat)
    reads clock
  {
    (clock.physical == physical && clock.logical == logical)
    || Hlc.After(clock.physical, clock.logical, physical, logical)
  }
}
