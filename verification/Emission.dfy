// The single durable write path (kawa/storage/emit.py): a locally minted envelope takes the
// next position of its origin's chain, or nothing is written.

module Emission {
  import opened Prelude
  import opened Vocabulary
  import opened Replication
  import opened Ledger
  import opened Confluence
  import Hlc

  datatype Credential = Credential(keyRef: string, scheme: string, sign: string -> string)

  datatype Identity = Identity(node: string, actor: string, credential: Option<Credential>)

  // What the caller asks to have recorded.
  datatype Draft = Draft(payload: Payload, subject: Option<string>, policyDigest: Option<string>,
                         scope: Option<string>, version: Option<int>)

  // Unorderable: the reduction cannot order the stamp, and the transaction is rolled back.
  datatype Outcome = Emitted(event: Event) | ScopeOnVersionOne | Unattested | Inconsistent | Unorderable

  function KindOf(p: Payload): string {
    match p
    case PlanCreated(_, _, _, _, _) => "plan.created"
    case PlanLifecycleChanged(_, _, _) => "plan.lifecycle_changed"
    case WorkDerived(_, _, _, _, _) => "work.derived"
    case WorkDependencyDeclared(_, _, _) => "work.dependency_declared"
    case ResultRecorded(_, _, _, _) => "result.recorded"
    case LinkAsserted(_) => "link.asserted"
    case ObservationRecorded(_, _) => "observation.recorded"
    case ClaimRecorded(_) => "claim.recorded"
    case WorkRetired(_, _) => "work.retired"
    case AuthorityConfiguration(_) => "authority.configuration"
    case AuthorityReceipt(_) => "authority.receipt"
  }

  function VersionOf(d: Draft): int {
    match d.version case Some(v) => v case None => if d.scope.Some? then 2 else 1
  }

  function Unsealed(id: Identity, d: Draft, seqNo: int, prev: Option<string>, stamp: string): Event {
    Event("", id.node, seqNo, stamp, KindOf(d.payload), d.subject, id.actor, d.policyDigest, PayloadDigest(d.payload),
        prev, "",
          VersionOf(d), d.scope, (match d.scope case Some(s) => Some(ScopeDigest(s)) case None => None),
          None, None, None, Some(d.payload))
  }

  function Sealed(id: Identity, e: Event): Event {
    var hash := EventHash(e, e.payloadDigest);
    var minted := e.(id := hash, selfHash := hash);
    match id.credential
    case None => minted
    case Some(c) => minted.(signature := Some(c.sign(hash)), keyRef := Some(c.keyRef), scheme := Some(c.scheme))
  }

  // The next envelope of this node's chain.
  function Minted(log: Log, id: Identity, d: Draft, stamp: string): Event {
    Sealed(id, Unsealed(id, d, Head(log, id.node) + 1, HeadHash(log, id.node), stamp))
  }

  // `live`: the process has named a real database.
  function Emit(log: Log, id: Identity, d: Draft, stamp: string, live: bool): Outcome {
    if VersionOf(d) == 1 && d.scope.Some? then ScopeOnVersionOne
    else if id.credential.None? && live then Unattested
    else
      var e := Minted(log, id, d, stamp);
      if !Verify(e) then Inconsistent else if Hlc.Parse(stamp).None? then Unorderable else Emitted(e)
  }

  predicate ReservedScope(s: string) { s != [] && s[0] == RESERVED_SCOPE_PREFIX }

  // What a caller can be told before the call: the draft is recorded exactly when its
  // version is known, only v2 carries a scope, the scope is not in the reserved namespace,
  // a live target is only written under a credential, and the stamp can be ordered.
  lemma EmitSucceeds(log: Log, id: Identity, d: Draft, stamp: string, live: bool)
    ensures Emit(log, id, d, stamp, live).Emitted? <==>
            && (d.version == None || d.version == Some(1) || d.version == Some(2))
            && (d.scope.Some? ==> d.version != Some(1) && !ReservedScope(d.scope.value))
            && (live ==> id.credential.Some?) && Hlc.Parse(stamp).Some?
  {
    MintedVerifies(id, d, Head(log, id.node) + 1, HeadHash(log, id.node), stamp);
  }

  // What is sealed hashes to itself; only the version and the scope can be refused.
  lemma MintedVerifies(id: Identity, d: Draft, seqNo: int, prev: Option<string>, stamp: string)
    ensures Verify(Sealed(id, Unsealed(id, d, seqNo, prev, stamp))) <==>
            && (VersionOf(d) == 1 || VersionOf(d) == 2) && (VersionOf(d) == 1 ==> d.scope == None)
            && (d.scope.Some? ==> !ReservedScope(d.scope.value))
  {
    var e := Sealed(id, Unsealed(id, d, seqNo, prev, stamp));
    assert EventHash(e, e.payloadDigest) == e.selfHash;
  }

  lemma EmittedEvent(log: Log, id: Identity, d: Draft, stamp: string, live: bool)
    requires Emit(log, id, d, stamp, live).Emitted?
    ensures var e := Emit(log, id, d, stamp, live).event;
      && Verify(e) && e.payload == Some(d.payload) && e.hlc == stamp && Hlc.Parse(stamp).Some?
      && e.origin == id.node && e.seqNo == Head(log, e.origin) + 1 && e.prevHash == HeadHash(log, e.origin)
      && (live ==> IsSigned(e))
  {
  }

  // What the envelope says: who, about what, under which policy and scope; and, where there
  // is a credential, its attestation of the envelope's own hash.
  lemma EmittedSays(log: Log, id: Identity, d: Draft, stamp: string, live: bool)
    requires Emit(log, id, d, stamp, live).Emitted?
    ensures var e := Emit(log, id, d, stamp, live).event;
      && e.actor == id.actor && e.subject == d.subject && e.policyDigest == d.policyDigest && e.scopeRef == d.scope
      && (d.version == None ==> e.version == if d.scope.Some? then 2 else 1)
      && (d.version.Some? ==> e.version == d.version.value)
      && (id.credential.Some? ==>
          && e.signature == Some(id.credential.value.sign(e.selfHash)) && e.keyRef == Some(id.credential.value.keyRef)
          && e.scheme == Some(id.credential.value.scheme))
      && (id.credential.None? ==> e.signature == None && e.keyRef == None && e.scheme == None)
  {
  }

  // The minted envelope extends the origin's chain by one and is materialized where it was
  // born; recording it and reducing it keeps every invariant of the log and of the ledger.
  lemma EmitKeepsLog(log: Log, history: seq<Step>, id: Identity, d: Draft, stamp: string, live: bool)
    requires LogInv(log) && LedgerInv(log, history)
    requires Emit(log, id, d, stamp, live).Emitted?
    ensures var e := Emit(log, id, d, stamp, live).event; var p := Pos(e.origin, e.seqNo);
      p !in log && LogInv(log[p := e]) && Extends(log, log[p := e]) && LedgerInv(log[p := e], history + Reductions(e))
  {
    EmittedEvent(log, id, d, stamp, live);
    HeadFacts(log, id.node);
    var e := Emit(log, id, d, stamp, live).event;
    var p := Pos(e.origin, e.seqNo);
    StoreMinted(log, history, p, e);
  }

  lemma StoreMinted(log: Log, history: seq<Step>, p: Pos, e: Event)
    requires LogInv(log) && LedgerInv(log, history) && Verify(e) && Hlc.Parse(e.hlc).Some?
    requires p == Pos(e.origin, e.seqNo) && e.seqNo == Head(log, e.origin) + 1 && e.prevHash == HeadHash(log, e.origin)
    ensures p !in log && LogInv(log[p := e]) && Extends(log, log[p := e])
    ensures LedgerInv(log[p := e], history + Reductions(e))
  {
    HeadFacts(log, e.origin);
    KeepsAppend(log, p, e);
    LedgerStores(log, history, p, e);
  }
}
