// What it takes for a delivered envelope to be held, its bytes to be kept, and a rival to
// become evidence, said on signatures, standings, stamps and scopes; batch by batch, and
// over whole runs.

module Admitting {
  import opened Prelude
  import opened Vocabulary
  import opened Replication
  import opened Freezing
  import opened Runs
  import Hlc
  import A = Authority
  import T = Trust
  import E = Emission

  // ---- the terms ----

  // Attested by a key that stands active, at the given position or now, for the very node
  // the event claims as its origin.
  predicate Vouched(r: Receiver, e: Event, at: Option<int>) {
    && e.signature.Some? && e.keyRef.Some? && e.scheme == Some("ed25519")
    && A.Attestation(e.selfHash, e.signature.value, e.keyRef.value, "ed25519") in r.keys
    && T.StandingAt(r.trust, e.keyRef.value, at) == T.Active
    && T.NodeOf(r.trust, e.keyRef.value) == Some(e.origin)
  }

  // Its stamp can be ordered and lies no further ahead than the receiver allows.
  predicate Timely(r: Receiver, e: Event) {
    Hlc.Parse(e.hlc).Some? && Hlc.Parse(e.hlc).value.physical <= r.now + r.skew
  }

  predicate ScopeHonest(e: Event) { e.scopeRef.Some? ==> e.scopeDigest == Some(ScopeDigest(e.scopeRef.value)) }

  predicate Admissible(r: Receiver, e: Event) {
    Verify(e) && Vouched(r, e, Some(e.seqNo)) && Timely(r, e) && ScopeHonest(e)
  }

  // Its bytes were asked for, or could not be withheld.
  predicate Wanted(r: Receiver, e: Event) {
    match r.requested
    case None => true
    case Some(scopes) => e.version < 2 || (e.scopeRef.Some? && e.scopeRef.value in scopes)
  }

  // The row is this envelope: everything its hash commits to, and its attestation.
  predicate CameFrom(row: Event, e: Event) {
    Committed(row) == Committed(e) && row.signature == e.signature && row.keyRef == e.keyRef && row.scheme == e.scheme
  }

  function PosOf(e: Event): Pos { Pos(e.origin, e.seqNo) }

  lemma GateOpens(r: Receiver, e: Event)
    ensures JudgeNext(r, e).Append? <==> Admissible(r, e)
    ensures JudgeNext(r, e).Append? ==> (JudgeNext(r, e).drop <==> !Wanted(r, e) && e.payload.Some?)
  {
  }

  // ---- one event ----

  // At the next position of a stream that stands, an envelope that chains is held exactly
  // when it is admissible, with its bytes exactly when they are wanted.
  lemma NextIsHeldExactly(s: Admission, r: Receiver, e: Event)
    requires LogInv(s.log) && e.origin !in s.frozen && e.origin !in s.poisoned
    requires e.seqNo == Head(s.log, e.origin) + 1 && e.prevHash == HeadHash(s.log, e.origin)
    ensures PosOf(e) !in s.log && (PosOf(e) in Admit(s, r, e).log <==> Admissible(r, e))
    ensures Admissible(r, e) ==>
      var row := Admit(s, r, e).log[PosOf(e)];
      CameFrom(row, e) && row.payload == (if Wanted(r, e) then e.payload else None)
  {
    HeadFacts(s.log, e.origin);
    GateOpens(r, e);
    NextVerdict(s, r, e);
    NextPerformed(s, r, e, JudgeNext(r, e));
  }

  lemma NextVerdict(s: Admission, r: Receiver, e: Event)
    requires e.origin !in s.frozen && e.origin !in s.poisoned
    requires e.seqNo == Head(s.log, e.origin) + 1 && e.prevHash == HeadHash(s.log, e.origin)
    ensures Judge(s, r, e) == JudgeNext(r, e)
    ensures JudgeNext(r, e).Append? || JudgeNext(r, e).Refuse?
  {
  }

  lemma NextPerformed(s: Admission, r: Receiver, e: Event, v: Verdict)
    requires v.Append? || v.Refuse?
    ensures v.Refuse? ==> Perform(s, r, e, v).log == s.log
    ensures v.Append? ==>
      && PosOf(e) in Perform(s, r, e, v).log && CameFrom(Perform(s, r, e, v).log[PosOf(e)], e)
      && Perform(s, r, e, v).log[PosOf(e)].payload == (if v.drop then None else e.payload)
  {
  }

  // A position that becomes held is the delivered event's own, and that event is admissible.
  lemma EnteredByGate(s: Admission, r: Receiver, e: Event, p: Pos)
    requires LogInv(s.log) && p !in s.log && p in Admit(s, r, e).log
    ensures PosOf(e) == p && Admissible(r, e) && CameFrom(Admit(s, r, e).log[p], e)
  {
    var v := Judge(s, r, e);
    OnlyAppendEnters(s, r, e, v, p);
    AppendVerdict(s, r, e);
    GateOpens(r, e);
    NextPerformed(s, r, e, v);
  }

  lemma OnlyAppendEnters(s: Admission, r: Receiver, e: Event, v: Verdict, p: Pos)
    requires p !in s.log && p in Perform(s, r, e, v).log
    ensures v.Append? && PosOf(e) == p
  {
  }

  // ---- a batch ----

  // The delivered event at i accounts for the row.
  predicate Accounts(r: Receiver, batch: seq<Event>, i: nat, row: Event, p: Pos) {
    i < |batch| && PosOf(batch[i]) == p && Admissible(r, batch[i]) && CameFrom(row, batch[i])
  }

  // Every position newly held after a batch is the position of a delivered event that was
  // admissible, and holds that very envelope.
  lemma NewRowWasAdmissible(s: Admission, r: Receiver, batch: seq<Event>, p: Pos) returns (i: nat)
    requires LogInv(s.log) && p !in s.log && p in AdmitAll(s, r, batch).log
    ensures Accounts(r, batch, i, AdmitAll(s, r, batch).log[p], p)
  {
    var held := (k: nat) => k <= |batch| && p in AdmitAll(s, r, batch[..k]).log;
    assert batch[..|batch|] == batch && batch[..0] == [];
    i := FirstTurn(held, |batch|);
    RowEntered(s, r, batch, i, p);
    LogGrowsFrom(s, r, batch, i + 1);
    StillCameFrom(AdmitAll(s, r, batch[..i + 1]).log[p], AdmitAll(s, r, batch).log[p], batch[i]);
  }

  lemma RowEntered(s: Admission, r: Receiver, batch: seq<Event>, i: nat, p: Pos)
    requires LogInv(s.log) && i < |batch|
    requires p !in AdmitAll(s, r, batch[..i]).log && p in AdmitAll(s, r, batch[..i + 1]).log
    ensures Accounts(r, batch, i, AdmitAll(s, r, batch[..i + 1]).log[p], p)
  {
    AdmitNext(s, r, batch, i);
    BatchKeepsLog(s, r, batch[..i]);
    EnteredByGate(AdmitAll(s, r, batch[..i]), r, batch[i], p);
  }

  lemma StillCameFrom(row: Event, row': Event, e: Event)
    requires Preserved(row, row') && CameFrom(row, e)
    ensures CameFrom(row', e)
  {
  }

  // So it is of what a batch leaves behind, whether or not it was taken back.
  lemma CommittedWasAdmissible(s: Admission, r: Receiver, batch: seq<Event>, p: Pos) returns (i: nat)
    requires LogInv(s.log) && p !in s.log && p in Committing(s, r, batch).log
    ensures Accounts(r, batch, i, Committing(s, r, batch).log[p], p)
  {
    i := NewRowWasAdmissible(s, r, batch, p);
  }

  // ---- bytes ----

  predicate Lacks(log: Log, p: Pos) { p in log ==> log[p].payload == None }

  // Bytes that become held are those of a delivered, verified event of that identity whose
  // bytes were wanted.
  predicate Brings(r: Receiver, e: Event, row: Event) {
    Verify(e) && e.id == row.id && e.payload == row.payload && Wanted(r, e)
  }

  lemma BytesBrought(s: Admission, r: Receiver, e: Event, p: Pos)
    requires LogInv(s.log) && Lacks(s.log, p) && p in Admit(s, r, e).log && Admit(s, r, e).log[p].payload.Some?
    ensures Brings(r, e, Admit(s, r, e).log[p])
  {
    var v := Judge(s, r, e);
    StoresBytes(s, r, e, v, p);
    if v.Upgrade? {
      UpgradeVerdict(s, r, e);
    } else {
      AppendVerdict(s, r, e);
      GateOpens(r, e);
    }
  }

  lemma StoresBytes(s: Admission, r: Receiver, e: Event, v: Verdict, p: Pos)
    requires Lacks(s.log, p) && p in Perform(s, r, e, v).log && Perform(s, r, e, v).log[p].payload.Some?
    ensures v.Upgrade? || (v.Append? && !v.drop)
    ensures var row := Perform(s, r, e, v).log[p];
      p == PosOf(e) && row.payload == e.payload && row.id == (if v.Upgrade? && p in s.log then s.log[p].id else e.id)
  {
  }

  lemma NewBytesWereWanted(s: Admission, r: Receiver, batch: seq<Event>, p: Pos) returns (i: nat)
    requires LogInv(s.log) && !Has(s.log, p) && Has(AdmitAll(s, r, batch).log, p)
    ensures i < |batch| && Brings(r, batch[i], AdmitAll(s, r, batch).log[p])
  {
    i := FirstBytes(s, r, batch, p);
    BytesEntered(s, r, batch, i, p);
    LogGrowsFrom(s, r, batch, i + 1);
    StillBrings(r, batch[i], AdmitAll(s, r, batch[..i + 1]).log[p], AdmitAll(s, r, batch).log[p]);
  }

  lemma FirstBytes(s: Admission, r: Receiver, batch: seq<Event>, p: Pos) returns (i: nat)
    requires !Has(s.log, p) && Has(AdmitAll(s, r, batch).log, p)
    ensures i < |batch| && !Has(AdmitAll(s, r, batch[..i]).log, p) && Has(AdmitAll(s, r, batch[..i + 1]).log, p)
  {
    var has := (k: nat) => k <= |batch| && Has(AdmitAll(s, r, batch[..k]).log, p);
    assert batch[..|batch|] == batch && batch[..0] == [];
    i := FirstTurn(has, |batch|);
  }

  lemma BytesEntered(s: Admission, r: Receiver, batch: seq<Event>, i: nat, p: Pos)
    requires LogInv(s.log) && i < |batch|
    requires !Has(AdmitAll(s, r, batch[..i]).log, p) && Has(AdmitAll(s, r, batch[..i + 1]).log, p)
    ensures Brings(r, batch[i], AdmitAll(s, r, batch[..i + 1]).log[p])
  {
    AdmitNext(s, r, batch, i);
    BatchKeepsLog(s, r, batch[..i]);
    BytesBrought(AdmitAll(s, r, batch[..i]), r, batch[i], p);
  }

  lemma StillBrings(r: Receiver, e: Event, row: Event, row': Event)
    requires Brings(r, e, row) && Preserved(row, row') && row.payload.Some?
    ensures Brings(r, e, row')
  {
  }

  predicate Has(log: Log, p: Pos) { p in log && log[p].payload.Some? }

  // ---- evidence ----

  // Which voices the two envelopes speak with: two known incarnations, or not.
  predicate TwoIncarnations(r: Receiver, held: Event, rival: Event) {
    && held.keyRef.Some? && rival.keyRef.Some?
    && T.IncarnationOf(r.trust, held.keyRef.value) != None && T.IncarnationOf(r.trust, rival.keyRef.value) != None
    && T.IncarnationOf(r.trust, held.keyRef.value) != T.IncarnationOf(r.trust, rival.keyRef.value)
  }

  // A verified event, vouched for as things stand now, of another identity than the one held.
  predicate Accuses(r: Receiver, e: Event, k: ForkKey, row: Fork, held: Event) {
    && Verify(e) && Vouched(r, e, None) && k == ForkKey(e.origin, e.seqNo, e.selfHash) && held.id != e.id
    && row.heldId == held.id && row.rivalKey == e.keyRef && row.frozen
    && (row.classification == RestoreFork <==> TwoIncarnations(r, held, e))
  }

  lemma AuthenticIsVouched(r: Receiver, e: Event, at: Option<int>)
    ensures Authentic(r, e, at) <==> Verify(e) && Vouched(r, e, at)
  {
  }

  lemma ClassifiedByIncarnation(r: Receiver, held: Event, rival: Event)
    requires rival.keyRef.Some?
    ensures Classify(r, held, rival) == RestoreFork <==> TwoIncarnations(r, held, rival)
  {
  }

  lemma FreezeJudged(s: Admission, r: Receiver, e: Event)
    requires LogInv(s.log) && Judge(s, r, e).Freeze?
    ensures PosOf(e) in s.log && Authentic(r, e, None) && s.log[PosOf(e)].id != e.id
    ensures Judge(s, r, e).c == Classify(r, s.log[PosOf(e)], e)
  {
  }

  lemma AccusedByEvent(s: Admission, r: Receiver, e: Event, k: ForkKey)
    requires LogInv(s.log) && k !in s.forks && k in Admit(s, r, e).forks
    ensures Pos(k.origin, k.seqNo) in s.log && Admit(s, r, e).log == s.log
    ensures Accuses(r, e, k, Admit(s, r, e).forks[k], s.log[Pos(k.origin, k.seqNo)])
  {
    if Judge(s, r, e).Freeze? {
      FreezeAddsRow(s, r, e);
      FreezeJudged(s, r, e);
      AuthenticIsVouched(r, e, None);
      ClassifiedByIncarnation(r, s.log[PosOf(e)], e);
    } else {
      OtherForks(s, r, e);
    }
  }

  // Every evidence row a batch adds names a delivered event that accuses what is held there.
  lemma {:induction false} NewEvidenceWasVouched(s: Admission, r: Receiver, batch: seq<Event>, k: ForkKey)
    returns (i: nat)
    requires LogInv(s.log) && k !in s.forks && k in AdmitAll(s, r, batch).forks
    ensures i < |batch| && Pos(k.origin, k.seqNo) in AdmitAll(s, r, batch).log
    ensures Accuses(r, batch[i], k, AdmitAll(s, r, batch).forks[k], AdmitAll(s, r, batch).log[Pos(k.origin, k.seqNo)])
  {
    var init, e := batch[..|batch| - 1], batch[|batch| - 1];
    var before := AdmitAll(s, r, init);
    BatchKeepsLog(s, r, init);
    AdmitKeepsLog(before, r, e);
    PerformKeepsRows(before, r, e, Judge(before, r, e));
    if k in before.forks {
      i := NewEvidenceWasVouched(s, r, init, k);
      var p := Pos(k.origin, k.seqNo);
      StillAccuses(r, init[i], k, before.forks[k], before.log[p], AdmitAll(s, r, batch).log[p]);
    } else {
      i := |batch| - 1;
      AccusedByEvent(before, r, e, k);
    }
  }

  lemma StillAccuses(r: Receiver, e: Event, k: ForkKey, row: Fork, held: Event, held': Event)
    requires Accuses(r, e, k, row, held) && Preserved(held, held')
    ensures Accuses(r, e, k, row, held')
  {
    assert Committed(held').id == Committed(held).id;
  }

  // ---- refusals ----

  // What each reported reason says of the event it is reported for.
  predicate Warranted(s: Admission, r: Receiver, e: Event, reason: Reason) {
    var p := PosOf(e);
    match reason
    case OriginFrozen => e.origin in s.frozen
    case PredecessorRejected => e.origin in s.poisoned
    case ForkEvidence(c) => p in s.log && s.log[p].id != e.id && Verify(e) && Vouched(r, e, None)
    case Collision =>
      && e.seqNo <= Head(s.log, e.origin)
      && (p in s.log ==> s.log[p].id != e.id && !(Verify(e) && Vouched(r, e, None)))
    case ChainGap => e.seqNo > Head(s.log, e.origin) + 1
    case ChainBreak => e.seqNo == Head(s.log, e.origin) + 1 && e.prevHash != HeadHash(s.log, e.origin)
    case HlcMalformed => Hlc.Parse(e.hlc) == None
    case HlcForwardSkew => Hlc.Parse(e.hlc).Some? && Hlc.Parse(e.hlc).value.physical > r.now + r.skew
    case ScopeDigestMismatch => !ScopeHonest(e)
    case EnvelopeInvalid => !Verify(e)
    case Unsigned => e.signature == None || e.keyRef == None || e.scheme == None
    case ProvenanceInvalid =>
      && e.signature.Some? && e.keyRef.Some? && e.scheme.Some?
      && !(e.scheme == Some("ed25519")
           && A.Attestation(e.selfHash, e.signature.value, e.keyRef.value, "ed25519") in r.keys)
    case Distrusted(standing) =>
      e.keyRef.Some? && standing == T.StandingAt(r.trust, e.keyRef.value, Some(e.seqNo)) != T.Active
    case ForgedOrigin => e.keyRef.Some? && T.NodeOf(r.trust, e.keyRef.value) != Some(e.origin)
    case ScopeUnrequested => e.payload.Some? && !Wanted(r, e)
    case UpgradeDigestMismatch => p in s.log && s.log[p].id == e.id && s.log[p].payload == None && !Verify(e)
  }

  // An event is reported at most once, under its own name, for a reason that holds of it.
  lemma ReasonsHold(s: Admission, r: Receiver, e: Event)
    requires LogInv(s.log)
    ensures Admit(s, r, e).rejected == s.rejected || exists reason ::
              && Admit(s, r, e).rejected == s.rejected + [Rejection(e.id, e.origin, e.seqNo, reason)]
              && Warranted(s, r, e, reason)
  {
    var v := Judge(s, r, e);
    HeadFacts(s.log, e.origin);
    match v {
      case Refuse(reason) => RefusalHolds(s, r, e, reason);
      case Report(reason) => ReportHolds(s, r, e, reason);
      case Freeze(c) =>
        FreezeJudged(s, r, e);
        AuthenticIsVouched(r, e, None);
        assert Warranted(s, r, e, ForkEvidence(c));
      case Append(drop) =>
        AppendVerdict(s, r, e);
        GateOpens(r, e);
        if drop { assert Warranted(s, r, e, ScopeUnrequested); }
      case _ =>
    }
  }

  lemma RefusalHolds(s: Admission, r: Receiver, e: Event, reason: Reason)
    requires Judge(s, r, e) == Refuse(reason)
    ensures Warranted(s, r, e, reason)
  {
    if e.origin in s.frozen || e.origin in s.poisoned {
    } else if e.seqNo <= Head(s.log, e.origin) {
      HeldRefusalHolds(s, r, e, reason);
    } else if e.seqNo == Head(s.log, e.origin) + 1 && e.prevHash == HeadHash(s.log, e.origin) {
      GateRefusalHolds(s, r, e, reason);
    }
  }

  lemma HeldRefusalHolds(s: Admission, r: Receiver, e: Event, reason: Reason)
    requires JudgeHeld(s.log, r, e) == Refuse(reason) && e.seqNo <= Head(s.log, e.origin)
    ensures Warranted(s, r, e, reason)
  {
    AuthenticIsVouched(r, e, None);
  }

  lemma GateRefusalHolds(s: Admission, r: Receiver, e: Event, reason: Reason)
    requires JudgeNext(r, e) == Refuse(reason)
    ensures Warranted(s, r, e, reason)
  {
  }

  lemma ReportHolds(s: Admission, r: Receiver, e: Event, reason: Reason)
    requires Judge(s, r, e) == Report(reason)
    ensures Warranted(s, r, e, reason)
  {
  }

  // ---- over a run ----

  // The row at p was minted here by the emit at n, or delivered by the batch at n to a
  // receiver judging with the registry of that moment.
  ghost predicate EnteredAt(ws: seq<World>, ops: seq<Op>, n: nat, p: Pos, row: Event)
    requires |ws| == |ops| + 1 && n < |ops|
  {
    match ops[n]
    case Emit(id, draft, stamp, live) =>
      exists e :: E.Emit(ws[n].log, id, draft, stamp, live) == E.Emitted(e) && PosOf(e) == p && CameFrom(row, e)
    case Deliver(r, batch) => r.trust == ws[n].trust && exists i: nat :: Accounts(r, batch, i, row, p)
    case _ => false
  }

  lemma StepEnters(w: World, op: Op, w': World, p: Pos)
    requires Inv(w) && Moves(w, op, w') && p !in w.log && p in w'.log
    ensures op.Emit? || op.Deliver?
    ensures op.Emit? ==> exists e :: (
                && E.Emit(w.log, op.id, op.draft, op.stamp, op.live) == E.Emitted(e) && PosOf(e) == p
                && CameFrom(w'.log[p], e))
    ensures op.Deliver? ==> op.r.trust == w.trust && exists i: nat :: Accounts(op.r, op.batch, i, w'.log[p], p)
  {
    if op.Deliver? {
      var i := CommittedWasAdmissible(Opening(w.log, w.forks, w.history), op.r, op.batch, p);
    }
  }

  // Every row held at any moment of any run was minted here, or delivered in a batch and
  // admissible to the receiver that judged it.
  lemma HeldWasMintedOrAdmitted(ws: seq<World>, ops: seq<Op>, j: nat, p: Pos) returns (n: nat)
    requires Run(ws, ops) && j < |ws| && p in ws[j].log
    ensures n < j && EnteredAt(ws, ops, n, p, ws[j].log[p])
  {
    var held := (k: nat) => k < |ws| && p in ws[k].log;
    n := FirstTurn(held, j);
    HeldLater(ws, ops, n, p);
    RunIsAppendOnly(ws, ops, n + 1, j);
    StillEntered(ws, ops, n, p, ws[n + 1].log[p], ws[j].log[p]);
  }

  // A row held after a step was held before it, or entered with it.
  lemma HeldLater(ws: seq<World>, ops: seq<Op>, n: nat, p: Pos)
    requires Run(ws, ops) && n < |ops| && p in ws[n + 1].log
    ensures if p in ws[n].log then Preserved(ws[n].log[p], ws[n + 1].log[p])
            else EnteredAt(ws, ops, n, p, ws[n + 1].log[p])
  {
    RunKeepsInv(ws, ops, n);
    StepTaken(ws, ops, n);
    if p in ws[n].log {
      NextExtends(ws, ops, n);
    } else {
      StepEnters(ws[n], ops[n], ws[n + 1], p);
    }
  }

  lemma StillEntered(ws: seq<World>, ops: seq<Op>, n: nat, p: Pos, row: Event, row': Event)
    requires |ws| == |ops| + 1 && n < |ops| && EnteredAt(ws, ops, n, p, row) && Preserved(row, row')
    ensures EnteredAt(ws, ops, n, p, row')
  {
    match ops[n] {
      case Emit(id, draft, stamp, live) =>
        var e :| E.Emit(ws[n].log, id, draft, stamp, live) == E.Emitted(e) && PosOf(e) == p && CameFrom(row, e);
        StillCameFrom(row, row', e);
      case Deliver(r, batch) =>
        var i: nat :| Accounts(r, batch, i, row, p);
        StillCameFrom(row, row', batch[i]);
        assert Accounts(r, batch, i, row', p);
      case _ =>
    }
  }

  // ---- the report ----

  // An event is reported admitted exactly when its row is new or gained its bytes.
  lemma AdmittedIsStored(s: Admission, r: Receiver, e: Event)
    requires LogInv(s.log)
    ensures Admit(s, r, e).admitted == if Admit(s, r, e).log != s.log then s.admitted + [e.id] else s.admitted
  {
    var v := Judge(s, r, e);
    match v {
      case Append(_) =>
        AppendVerdict(s, r, e);
        HeadFacts(s.log, e.origin);
        StoresReported(s, r, e, v);
      case Upgrade =>
        UpgradeVerdict(s, r, e);
        StoresReported(s, r, e, v);
      case _ => KeepsReported(s, r, e, v);
    }
  }

  lemma StoresReported(s: Admission, r: Receiver, e: Event, v: Verdict)
    requires v.Append? || v.Upgrade?
    requires v.Append? ==> PosOf(e) !in s.log
    requires v.Upgrade? ==> PosOf(e) in s.log && s.log[PosOf(e)].IsStub() && !e.IsStub()
    ensures Perform(s, r, e, v).admitted == s.admitted + [e.id] && Perform(s, r, e, v).log != s.log
  {
    var p, after := PosOf(e), Perform(s, r, e, v).log;
    assert p in after && (p in s.log ==> after[p].payload != s.log[p].payload);
  }

  lemma KeepsReported(s: Admission, r: Receiver, e: Event, v: Verdict)
    requires !v.Append? && !v.Upgrade?
    ensures Perform(s, r, e, v).admitted == s.admitted && Perform(s, r, e, v).log == s.log
  {
  }

  // Only a payload that is refused leaves its stream standing.
  predicate EndsStream(reason: Reason) { reason != ScopeUnrequested && reason != UpgradeDigestMismatch }

  lemma RejectionEndsStream(s: Admission, r: Receiver, e: Event, reason: Reason)
    requires Admit(s, r, e).rejected == s.rejected + [Rejection(e.id, e.origin, e.seqNo, reason)] && EndsStream(reason)
    ensures e.origin in Admit(s, r, e).poisoned || e.origin in Admit(s, r, e).frozen
  {
    RejectingPoisons(s, r, e, Judge(s, r, e), reason);
  }

  lemma RejectingPoisons(s: Admission, r: Receiver, e: Event, v: Verdict, reason: Reason)
    requires Perform(s, r, e, v).rejected == s.rejected + [Rejection(e.id, e.origin, e.seqNo, reason)]
    requires EndsStream(reason) && (v.Report? ==> !EndsStream(v.reason))
    ensures e.origin in Perform(s, r, e, v).poisoned
  {
    var before, after := s.rejected, Perform(s, r, e, v).rejected;
    assert after[|before|].reason == reason;
  }

  // A stream that no longer stands stays as it is for the rest of the batch.
  ghost predicate Standstill(s: Admission, s': Admission, o: string) {
    && o in s'.poisoned + s'.frozen
    && (forall p: Pos :: p.origin == o ==> (p in s.log <==> p in s'.log) && (p in s.log ==> s'.log[p] == s.log[p]))
  }

  lemma FallenIsJudged(s: Admission, r: Receiver, e: Event, o: string)
    requires o in s.poisoned + s.frozen
    ensures Standstill(s, Admit(s, r, e), o)
  {
    if e.origin == o {
      assert Judge(s, r, e).Refuse?;
    } else {
      ElsewhereOnly(s, r, e, Judge(s, r, e), o);
    }
  }

  lemma ElsewhereOnly(s: Admission, r: Receiver, e: Event, v: Verdict, o: string)
    requires o in s.poisoned + s.frozen && e.origin != o
    ensures Standstill(s, Perform(s, r, e, v), o)
  {
  }

  lemma {:induction false} FallenStaysFallen(s: Admission, r: Receiver, batch: seq<Event>, o: string)
    requires o in s.poisoned + s.frozen
    ensures Standstill(s, AdmitAll(s, r, batch), o)
  {
    if batch != [] {
      FallenStaysFallen(s, r, batch[..|batch| - 1], o);
      FallenIsJudged(AdmitAll(s, r, batch[..|batch| - 1]), r, batch[|batch| - 1], o);
    }
  }
}
