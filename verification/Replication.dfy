// Trust-gated admission (kawa/storage/replication.py): what one delivered event does to
// the held log, the fork evidence and the reducers, and what every batch preserves.

module Replication {
  import opened Prelude
  import opened Vocabulary
  import Hlc
  import opened Fold
  import opened Confluence
  import T = Trust
  import A = Authority

  datatype Pos = Pos(origin: string, seqNo: int)

  // The `events` table with its payload rows: a row without a payload is a stub.
  type Log = map<Pos, Event>

  datatype Classification = Equivocation | RestoreFork
  datatype ForkKey = ForkKey(origin: string, seqNo: int, rivalHash: string)
  datatype Fork = Fork(heldId: string, rivalKey: Option<string>, classification: Classification,
                       frozen: bool, resolvedBy: Option<string>, chosenHead: Option<string>)
  type Forks = map<ForkKey, Fork>

  datatype Reason =
    | OriginFrozen | PredecessorRejected | ForkEvidence(c: Classification) | Collision | ChainGap | ChainBreak
    | HlcMalformed | HlcForwardSkew | ScopeDigestMismatch | EnvelopeInvalid | Unsigned | ProvenanceInvalid
    | Distrusted(standing: T.Standing) | ForgedOrigin | ScopeUnrequested | UpgradeDigestMismatch

  datatype Rejection = Rejection(id: string, origin: string, seqNo: int, reason: Reason)

  // What the receiver judges with: its registries, its scope request, its clock.
  datatype Receiver = Receiver(keys: A.Keyring, trust: T.Registry, requested: Option<set<string>>, skew: int, now: int)

  // ---- the log ----

  ghost predicate IsMax(s: set<int>, m: int) { m in s && forall x :: x in s ==> x <= m }

  lemma {:induction false} MaxExists(s: set<int>, x: int)
    requires x in s
    ensures exists m :: IsMax(s, m)
    decreases |s|
  {
    var rest := s - {x};
    if y :| y in rest {
      MaxExists(rest, y);
      var m :| IsMax(rest, m);
      assert forall z :: z in s ==> z == x || z in rest;
      if m > x { assert IsMax(s, m); } else { assert IsMax(s, x); }
    } else {
      forall z | z in s ensures z <= x {
        assert z != x ==> z in rest;
      }
      assert IsMax(s, x);
    }
  }

  predicate Holds(log: Log, origin: string) { exists p :: p in log && p.origin == origin }

  predicate IsTop(log: Log, origin: string, p: Pos) {
    p in log && p.origin == origin && forall q :: q in log && q.origin == origin ==> q.seqNo <= p.seqNo
  }

  // max(origin_seq), with 0 for an origin nothing is held of.
  function Head(log: Log, origin: string): (h: int)
    ensures !Holds(log, origin) ==> h == 0
    ensures Holds(log, origin) ==> Pos(origin, h) in log && forall p :: p in log && p.origin == origin ==> p.seqNo <= h
  {
    if !Holds(log, origin) then 0
    else
      assert exists p :: p in log && IsTop(log, origin, p) by {
        var p :| p in log && p.origin == origin;
        var s := set q | q in log && q.origin == origin :: q.seqNo;
        assert p.seqNo in s;
        MaxExists(s, p.seqNo);
        var m :| IsMax(s, m);
        var top :| top in log && top.origin == origin && top.seqNo == m;
        forall q | q in log && q.origin == origin ensures q.seqNo <= top.seqNo { assert q.seqNo in s; }
        assert IsTop(log, origin, top);
      }
      assert forall p, q :: IsTop(log, origin, p) && IsTop(log, origin, q) ==> p == q;
      var p :| p in log && IsTop(log, origin, p);
      assert p == Pos(origin, p.seqNo);
      p.seqNo
  }

  function HeadHash(log: Log, origin: string): Option<string> {
    var p := Pos(origin, Head(log, origin));
    if p in log then Some(log[p].selfHash) else None
  }

  // ---- the gates ----

  // TemporalPolicy.admissible
  function Temporal(r: Receiver, hlc: string): Option<Reason> {
    match Hlc.Parse(hlc)
    case None => Some(HlcMalformed)
    case Some(s) => if s.physical > r.now + r.skew then Some(HlcForwardSkew) else None
  }

  predicate IsSigned(e: Event) { e.signature.Some? && e.keyRef.Some? && e.scheme.Some? }

  predicate Provenance(r: Receiver, e: Event)
    requires IsSigned(e)
  {
    e.scheme.value == "ed25519"
    && A.Attestation(e.selfHash, e.signature.value, e.keyRef.value, e.scheme.value) in r.keys
  }

  // A verified event by a key that is trusted now and speaks for the claimed origin.
  predicate Authentic(r: Receiver, e: Event, at: Option<int>) {
    && Verify(e) && IsSigned(e) && Provenance(r, e)
    && T.StandingAt(r.trust, e.keyRef.value, at) == T.Active
    && T.NodeOf(r.trust, e.keyRef.value) == Some(e.origin)
  }

  // The RETAIN half of the grant algebra: this payload was not asked for.
  predicate Unrequested(r: Receiver, e: Event) {
    r.requested.Some? && e.version >= 2 && (e.scopeRef.None? || e.scopeRef.value !in r.requested.value)
  }

  function Withhold(e: Event): Event {
    if e.IsStub() then e else e.(payload := None, scopeRef := None)
  }

  function Classify(r: Receiver, held: Event, rival: Event): Classification
    requires rival.keyRef.Some?
  {
    var heldInc := if held.keyRef.Some? then T.IncarnationOf(r.trust, held.keyRef.value) else None;
    var rivalInc := T.IncarnationOf(r.trust, rival.keyRef.value);
    if heldInc.Some? && rivalInc.Some? && heldInc != rivalInc then RestoreFork else Equivocation
  }

  // ---- one event ----

  // `raised`: the store has refused a write, and the transaction cannot commit.
  datatype Admission = Admission(log: Log, forks: Forks, history: seq<Step>, poisoned: set<string>, frozen: set<string>,
                                 admitted: seq<string>, rejected: seq<Rejection>, raised: bool)

  datatype Verdict =
    | Refuse(reason: Reason)            // rejected, and the rest of the stream with it
    | Freeze(c: Classification)         // authenticated rival: durable evidence, origin frozen
    | Report(reason: Reason)            // rejected without touching the stream
    | Redelivered
    | Upgrade
    | Raise                             // the append-only trigger refuses the upgrade: the row already has a scope
    | Append(drop: bool)                // drop: the payload was not requested, keep the envelope

  function JudgeHeld(log: Log, r: Receiver, e: Event): Verdict {
    var p := Pos(e.origin, e.seqNo);
    if p in log && log[p].id == e.id then
      if log[p].IsStub() && !e.IsStub() then
        if Unrequested(r, e) then Report(ScopeUnrequested)
        else if !Verify(e) then Report(UpgradeDigestMismatch)
        else if log[p].scopeRef.Some? then Raise
        else Upgrade
      else Redelivered
    else if p in log && Authentic(r, e, None) then Freeze(Classify(r, log[p], e))
    else Refuse(Collision)
  }

  function JudgeNext(r: Receiver, e: Event): Verdict {
    if Temporal(r, e.hlc).Some? then Refuse(Temporal(r, e.hlc).value)
    else if e.scopeRef.Some? && e.scopeDigest != Some(ScopeDigest(e.scopeRef.value)) then Refuse(ScopeDigestMismatch)
    else if !Verify(e) then Refuse(EnvelopeInvalid)
    else if !IsSigned(e) then Refuse(Unsigned)
    else if !Provenance(r, e) then Refuse(ProvenanceInvalid)
    else if T.StandingAt(r.trust, e.keyRef.value, Some(e.seqNo)) != T.Active then
      Refuse(Distrusted(T.StandingAt(r.trust, e.keyRef.value, Some(e.seqNo))))
    else if T.NodeOf(r.trust, e.keyRef.value) != Some(e.origin) then Refuse(ForgedOrigin)
    else Append(Unrequested(r, e) && !e.IsStub())
  }

  function Judge(s: Admission, r: Receiver, e: Event): Verdict {
    if e.origin in s.frozen then Refuse(OriginFrozen)
    else if e.origin in s.poisoned then Refuse(PredecessorRejected)
    else
      var head := Head(s.log, e.origin);
      if e.seqNo <= head then JudgeHeld(s.log, r, e)
      else if e.seqNo != head + 1 then Refuse(ChainGap)
      else if e.prevHash != HeadHash(s.log, e.origin) then Refuse(ChainBreak)
      else JudgeNext(r, e)
  }

  function FactOf(e: Event): Fact
    requires e.payload.Some? && Hlc.Parse(e.hlc).Some?
  {
    var s := Hlc.Parse(e.hlc).value;
    Fact(e.id, s.physical, s.logical, e.origin, e.payload.value)
  }

  // The reducer work one stored envelope causes.
  function Reductions(e: Event): seq<Step> {
    if e.payload.Some? && Hlc.Parse(e.hlc).Some? then [Insert(FactOf(e)), Reduce(FactOf(e))] else [HoldStub(e.id)]
  }

  function Upgraded(held: Event, e: Event): Event { held.(payload := e.payload, scopeRef := e.scopeRef) }

  function Rejected(e: Event, reason: Reason): Rejection { Rejection(e.id, e.origin, e.seqNo, reason) }

  function Perform(s: Admission, r: Receiver, e: Event, v: Verdict): Admission {
    var p := Pos(e.origin, e.seqNo);
    match v
    case Refuse(reason) => s.(rejected := s.rejected + [Rejected(e, reason)], poisoned := s.poisoned + {e.origin})
    case Freeze(c) =>
      var k := ForkKey(e.origin, e.seqNo, e.selfHash);
      s.(forks := if k in s.forks || p !in s.log then s.forks
                  else s.forks[k := Fork(s.log[p].id, e.keyRef, c, true, None, None)],
         frozen := s.frozen + {e.origin},
         rejected := s.rejected + [Rejected(e, ForkEvidence(c))], poisoned := s.poisoned + {e.origin})
    case Report(reason) => s.(rejected := s.rejected + [Rejected(e, reason)])
    case Redelivered => s
    case Raise => s.(raised := true)
    case Upgrade =>
      if p in s.log then
        s.(log := s.log[p := Upgraded(s.log[p], e)], history := s.history + Reductions(Upgraded(s.log[p], e)),
           admitted := s.admitted + [e.id])
      else s
    case Append(drop) =>
      var stored := if drop then Withhold(e) else e;
      s.(log := s.log[p := stored], history := s.history + Reductions(stored), admitted := s.admitted + [e.id],
         rejected := if drop then s.rejected + [Rejected(e, ScopeUnrequested)] else s.rejected)
  }

  function Admit(s: Admission, r: Receiver, e: Event): Admission { Perform(s, r, e, Judge(s, r, e)) }

  function AdmitAll(s: Admission, r: Receiver, batch: seq<Event>): Admission {
    if batch == [] then s else Admit(AdmitAll(s, r, batch[..|batch| - 1]), r, batch[|batch| - 1])
  }

  function FrozenOrigins(forks: Forks): set<string> { set k | k in forks && forks[k].frozen :: k.origin }

  function Opening(log: Log, forks: Forks, history: seq<Step>): Admission {
    Admission(log, forks, history, {}, FrozenOrigins(forks), [], [], false)
  }

  // What a batch leaves behind: one transaction, so a refused write takes all of it back.
  function Committing(s: Admission, r: Receiver, batch: seq<Event>): Admission {
    var t := AdmitAll(s, r, batch);
    if t.raised then s.(raised := true) else t
  }

  // ---- what holds of every held log ----

  // The envelope at a position verifies, names that position and can be ordered.
  ghost predicate Stored(p: Pos, e: Event) {
    e.origin == p.origin && e.seqNo == p.seqNo && p.seqNo >= 1 && Verify(e) && Hlc.Parse(e.hlc).Some?
  }

  // It carries its predecessor's hash, and the predecessor is held.
  ghost predicate Chained(log: Log, p: Pos)
    requires p in log
  {
    && (p.seqNo <= 1 ==> log[p].prevHash == None)
    && (p.seqNo > 1 ==>
       Pos(p.origin, p.seqNo - 1) in log && log[p].prevHash == Some(log[Pos(p.origin, p.seqNo - 1)].selfHash))
  }

  ghost predicate AllStored(log: Log) { forall p {:trigger Stored(p, log[p])} :: p in log ==> Stored(p, log[p]) }

  ghost predicate AllChained(log: Log) { forall p {:trigger Chained(log, p)} :: p in log ==> Chained(log, p) }

  ghost predicate LogInv(log: Log) { AllStored(log) && AllChained(log) }

  lemma {:induction false} DownToOne(log: Log, origin: string, n: int, k: int)
    requires AllChained(log) && Pos(origin, n) in log && 1 <= k <= n
    ensures Pos(origin, k) in log
    decreases n - k
  {
    if k < n {
      DownToOne(log, origin, n, k + 1);
      assert Chained(log, Pos(origin, k + 1));
    }
  }

  // An origin's held positions are exactly 1..head.
  lemma GapFree(log: Log, origin: string, k: int)
    requires LogInv(log)
    ensures Pos(origin, k) in log <==> 1 <= k <= Head(log, origin)
  {
    var h := Head(log, origin);
    if Pos(origin, k) in log {
      assert Stored(Pos(origin, k), log[Pos(origin, k)]);
    }
    if 1 <= k <= h {
      DownToOne(log, origin, h, k);
    }
  }

  // Nothing held is ever rewritten: the committed envelope and its attestation stay, and
  // cleartext scope and bytes once present stay.
  predicate Preserved(e: Event, e': Event) {
    && Committed(e') == Committed(e)
    && (e.scopeRef.Some? ==> e'.scopeRef == e.scopeRef)
    && e'.signature == e.signature && e'.keyRef == e.keyRef && e'.scheme == e.scheme
    && (e.payload.Some? ==> e' == e)
  }

  ghost predicate Extends(log: Log, log': Log) {
    forall p :: p in log ==> p in log' && Preserved(log[p], log'[p])
  }

  lemma ExtendsTransitive(a: Log, b: Log, c: Log)
    requires Extends(a, b) && Extends(b, c)
    ensures Extends(a, c)
  {
  }

  // ---- the log invariant survives every event ----

  lemma WithheldVerifies(e: Event)
    requires Verify(e) && e.version >= 2
    ensures Verify(Withhold(e)) && Committed(Withhold(e)) == Committed(e)
  {
  }

  lemma UpgradedVerifies(held: Event, e: Event)
    requires Verify(held) && Verify(e) && held.id == e.id
    ensures Verify(Upgraded(held, e)) && Committed(Upgraded(held, e)) == Committed(held) == Committed(e)
  {
    IdentityCommits(held, e);
  }

  lemma StoreStored(log: Log, p: Pos, e: Event)
    requires AllStored(log) && Stored(p, e)
    ensures AllStored(log[p := e])
  {
  }

  lemma ReplaceChained(log: Log, p: Pos, e: Event)
    requires AllChained(log) && p in log && Preserved(log[p], e)
    ensures AllChained(log[p := e]) && Extends(log, log[p := e])
  {
    var log' := log[p := e];
    assert Committed(e).prevHash == Committed(log[p]).prevHash && Committed(e).selfHash == Committed(log[p]).selfHash;
    forall q | q in log' ensures Chained(log', q) {
      assert Chained(log, q);
    }
  }

  lemma AppendChained(log: Log, p: Pos, e: Event)
    requires AllChained(log) && p !in log
    requires p.seqNo <= 1 ==> e.prevHash == None
    requires p.seqNo > 1 ==>
             Pos(p.origin, p.seqNo - 1) in log && e.prevHash == Some(log[Pos(p.origin, p.seqNo - 1)].selfHash)
    ensures AllChained(log[p := e]) && Extends(log, log[p := e])
  {
    var log' := log[p := e];
    forall q | q in log' ensures Chained(log', q) {
      if q != p { assert Chained(log, q); }
    }
  }

  // The next position of an origin, and the hash it must chain onto.
  lemma HeadFacts(log: Log, origin: string)
    requires LogInv(log)
    ensures Head(log, origin) >= 0 && Pos(origin, Head(log, origin) + 1) !in log
    ensures Head(log, origin) == 0 ==> HeadHash(log, origin) == None
    ensures var top := Pos(origin, Head(log, origin));
      Head(log, origin) > 0 ==> top in log && HeadHash(log, origin) == Some(log[top].selfHash)
  {
    if Holds(log, origin) {
      assert Stored(Pos(origin, Head(log, origin)), log[Pos(origin, Head(log, origin))]);
    }
  }

  lemma NextStored(r: Receiver, e: Event)
    requires JudgeNext(r, e).Append? && e.seqNo >= 1
    ensures var stored := if JudgeNext(r, e).drop then Withhold(e) else e;
      Stored(Pos(e.origin, e.seqNo), stored) && stored.prevHash == e.prevHash && Committed(stored) == Committed(e)
  {
    if JudgeNext(r, e).drop { WithheldVerifies(e); }
  }

  lemma KeepsUpgrade(log: Log, p: Pos, e: Event)
    requires LogInv(log) && p in log && log[p].IsStub() && log[p].scopeRef == None && Verify(e) && e.id == log[p].id
    ensures LogInv(log[p := Upgraded(log[p], e)]) && Extends(log, log[p := Upgraded(log[p], e)])
  {
    assert Stored(p, log[p]);
    UpgradedVerifies(log[p], e);
    var row := Upgraded(log[p], e);
    assert Committed(row).hlc == Committed(log[p]).hlc && Committed(row).origin == Committed(log[p]).origin;
    assert Committed(row).seqNo == Committed(log[p]).seqNo;
    StoreStored(log, p, row);
    ReplaceChained(log, p, row);
  }

  lemma KeepsAppend(log: Log, p: Pos, e: Event)
    requires LogInv(log) && Stored(p, e) && p.seqNo == Head(log, p.origin) + 1 && e.prevHash == HeadHash(log, p.origin)
    ensures p !in log && LogInv(log[p := e]) && Extends(log, log[p := e])
  {
    HeadFacts(log, p.origin);
    StoreStored(log, p, e);
    AppendChained(log, p, e);
  }

  // What each storing verdict has established about the event.
  lemma UpgradeVerdict(s: Admission, r: Receiver, e: Event)
    requires Judge(s, r, e).Upgrade?
    ensures var p := Pos(e.origin, e.seqNo);
      && e.origin !in s.frozen && e.origin !in s.poisoned
      && p in s.log && s.log[p].IsStub() && s.log[p].scopeRef == None
      && !e.IsStub() && Verify(e) && e.id == s.log[p].id && !Unrequested(r, e)
  {
  }

  lemma AppendVerdict(s: Admission, r: Receiver, e: Event)
    requires Judge(s, r, e).Append?
    ensures e.origin !in s.frozen && e.origin !in s.poisoned
    ensures e.seqNo == Head(s.log, e.origin) + 1 && e.prevHash == HeadHash(s.log, e.origin)
    ensures Judge(s, r, e) == JudgeNext(r, e)
  {
  }

  lemma PerformAppends(s: Admission, r: Receiver, e: Event, v: Verdict)
    requires v.Append?
    ensures var row := if v.drop then Withhold(e) else e;
      Perform(s, r, e, v).log == s.log[Pos(e.origin, e.seqNo) := row] && Perform(s, r, e,
              v).history == s.history + Reductions(row)
  {
  }

  lemma NextRow(log: Log, r: Receiver, e: Event, v: Verdict)
    requires LogInv(log) && v == JudgeNext(r, e) && v.Append?
    requires e.seqNo == Head(log, e.origin) + 1 && e.prevHash == HeadHash(log, e.origin)
    ensures var row := if v.drop then Withhold(e) else e;
            Stored(Pos(e.origin, e.seqNo), row) && row.prevHash == HeadHash(log, e.origin)
  {
    HeadFacts(log, e.origin);
    NextStored(r, e);
  }

  // The row an append stores, and that it is stored where the event says.
  lemma AppendRow(s: Admission, r: Receiver, e: Event) returns (row: Event)
    requires LogInv(s.log) && Judge(s, r, e).Append?
    ensures row == if Judge(s, r, e).drop then Withhold(e) else e
    ensures Stored(Pos(e.origin, e.seqNo), row) && e.seqNo == Head(s.log, e.origin) + 1
    ensures row.prevHash == HeadHash(s.log, e.origin)
    ensures Admit(s, r, e).log == s.log[Pos(e.origin, e.seqNo) := row]
    ensures Admit(s, r, e).history == s.history + Reductions(row)
  {
    AppendVerdict(s, r, e);
    NextRow(s.log, r, e, Judge(s, r, e));
    PerformAppends(s, r, e, Judge(s, r, e));
    row := if Judge(s, r, e).drop then Withhold(e) else e;
  }

  lemma AppendKeepsLog(s: Admission, r: Receiver, e: Event)
    requires LogInv(s.log) && Judge(s, r, e).Append?
    ensures LogInv(Admit(s, r, e).log) && Extends(s.log, Admit(s, r, e).log) && Pos(e.origin, e.seqNo) !in s.log
  {
    var row := AppendRow(s, r, e);
    KeepsAppend(s.log, Pos(e.origin, e.seqNo), row);
  }

  lemma UpgradeKeepsLog(s: Admission, r: Receiver, e: Event)
    requires LogInv(s.log) && Judge(s, r, e).Upgrade?
    ensures LogInv(Admit(s, r, e).log) && Extends(s.log, Admit(s, r, e).log)
  {
    UpgradeVerdict(s, r, e);
    KeepsUpgrade(s.log, Pos(e.origin, e.seqNo), e);
  }

  lemma AdmitKeepsLog(s: Admission, r: Receiver, e: Event)
    requires LogInv(s.log)
    ensures LogInv(Admit(s, r, e).log) && Extends(s.log, Admit(s, r, e).log)
  {
    match Judge(s, r, e) {
      case Upgrade => UpgradeKeepsLog(s, r, e);
      case Append(_) => AppendKeepsLog(s, r, e);
      case _ =>
    }
  }

  lemma {:induction false} BatchKeepsLog(s: Admission, r: Receiver, batch: seq<Event>)
    requires LogInv(s.log)
    ensures LogInv(AdmitAll(s, r, batch).log) && Extends(s.log, AdmitAll(s, r, batch).log)
  {
    if batch != [] {
      var before := AdmitAll(s, r, batch[..|batch| - 1]);
      BatchKeepsLog(s, r, batch[..|batch| - 1]);
      AdmitKeepsLog(before, r, batch[|batch| - 1]);
      ExtendsTransitive(s.log, before.log, AdmitAll(s, r, batch).log);
    }
  }

  lemma AdmitNext(s: Admission, r: Receiver, batch: seq<Event>, i: nat)
    requires i < |batch|
    ensures AdmitAll(s, r, batch[..i + 1]) == Admit(AdmitAll(s, r, batch[..i]), r, batch[i])
  {
    assert batch[..i + 1][..i] == batch[..i];
  }

  // ---- rollback ----

  lemma RaisedStays(s: Admission, r: Receiver, e: Event, v: Verdict)
    requires s.raised
    ensures Perform(s, r, e, v).raised
  {
  }

  lemma {:induction false} RaisedLater(s: Admission, r: Receiver, batch: seq<Event>, m: nat)
    requires m <= |batch| && AdmitAll(s, r, batch[..m]).raised
    ensures AdmitAll(s, r, batch).raised
  {
    if m == |batch| {
      assert batch[..m] == batch;
    } else {
      var init, e := batch[..|batch| - 1], batch[|batch| - 1];
      assert init[..m] == batch[..m];
      RaisedLater(s, r, init, m);
      var before := AdmitAll(s, r, init);
      RaisedStays(before, r, e, Judge(before, r, e));
    }
  }

  // From any point of a batch on, the log only grows.
  lemma {:induction false} LogGrowsFrom(s: Admission, r: Receiver, batch: seq<Event>, m: nat)
    requires LogInv(s.log) && m <= |batch|
    ensures LogInv(AdmitAll(s, r, batch[..m]).log) && Extends(AdmitAll(s, r, batch[..m]).log, AdmitAll(s, r, batch).log)
  {
    BatchKeepsLog(s, r, batch[..m]);
    if m == |batch| {
      assert batch[..m] == batch;
    } else {
      var init, e := batch[..|batch| - 1], batch[|batch| - 1];
      assert init[..m] == batch[..m];
      LogGrowsFrom(s, r, init, m);
      BatchKeepsLog(s, r, init);
      AdmitKeepsLog(AdmitAll(s, r, init), r, e);
      ExtendsTransitive(AdmitAll(s, r, batch[..m]).log, AdmitAll(s, r, init).log, AdmitAll(s, r, batch).log);
    }
  }

  // Whatever happens on the way, what is committed keeps the log and only ever extends it.
  lemma CommittingKeepsLog(s: Admission, r: Receiver, batch: seq<Event>)
    requires LogInv(s.log)
    ensures LogInv(Committing(s, r, batch).log) && Extends(s.log, Committing(s, r, batch).log)
  {
    BatchKeepsLog(s, r, batch);
  }
}
