// The typed event vocabulary (kawa/domain/events.py): payload kinds, the envelope, and
// the versioned hash preimages that give an event its identity.

module Vocabulary {
  import opened Prelude
  import opened Canonical

  datatype Lifecycle = Draft | Reviewing | Ready | Running | Blocked | Ended
  datatype EndReason = Completed | Cancelled | Failed | Replaced
  datatype Outcome = Success | Failure | Conflicted | ExecutionUnknown
  datatype Policy = ALL | ANY
  datatype Relation =
    | Supports | Contradicts | BasedOn | ReasonFor | Addresses | Reviews
    | Corrects | Resolves | Supersedes | CausedBy | Satisfies

  datatype Link = Link(source: string, relation: Relation, target: string)

  // An accountable proof: the signer set rides with the signatures. `Absent` is a null or
  // empty proof, `Malformed` one that does not parse to the two lists, and a signature
  // that is not text is `None`.
  datatype Proof =
    | Absent
    | Malformed(text: string)
    | Signed(signers: seq<string>, signatures: seq<Option<string>>)

  datatype Configuration = Configuration(
    authorityKey: string, digest: string, epoch: int, members: seq<string>, quorum: int,
    prior: Option<string>, proof: Proof)

  datatype Receipt = Receipt(
    authorityKey: string, operationDigest: string, configurationDigest: string, epoch: int,
    priorReceipt: Option<string>, policyDigest: Option<string>, proof: Proof)

  datatype Payload =
    | PlanCreated(plan: string, project: string, objective: string, rationale: Option<string>,
                  lifecycle: Lifecycle)
    | PlanLifecycleChanged(plan: string, lifecycle: Lifecycle, endReason: Option<EndReason>)
    | WorkDerived(work: string, plan: string, workKind: string, subject: Option<string>,
                  role: Option<string>)
    | WorkDependencyDeclared(work: string, dependency: string, policy: Policy)
    | ResultRecorded(work: string, outcome: Outcome, resultRef: string,
                     occurrenceKey: Option<string>)
    | LinkAsserted(link: Link)
    | ObservationRecorded(predicateText: string, valueText: string)
    | ClaimRecorded(proposition: string)
    | WorkRetired(work: string, reason: string)
    | AuthorityConfiguration(configuration: Configuration)
    | AuthorityReceipt(receipt: Receipt)

  datatype Event = Event(
    id: string, origin: string, seqNo: int, hlc: string, kind: string, subject: Option<string>,
    actor: string, policyDigest: Option<string>, payloadDigest: string,
    prevHash: Option<string>, selfHash: string,
    version: int, scopeRef: Option<string>, scopeDigest: Option<string>,
    signature: Option<string>, keyRef: Option<string>, scheme: Option<string>,
    payload: Option<Payload>)
  {
    predicate IsStub() { payload == None }
  }

  // ---- canonical documents ----

  function LifecycleCode(l: Lifecycle): int {
    match l case Draft => 0 case Reviewing => 1 case Ready => 2 case Running => 3 case Blocked => 4 case Ended => 5
  }

  function EndReasonJson(r: Option<EndReason>): Json {
    match r
    case None => Null
    case Some(Completed) => Number(0)
    case Some(Cancelled) => Number(1)
    case Some(Failed) => Number(2)
    case Some(Replaced) => Number(3)
  }

  function OutcomeCode(o: Outcome): int {
    match o case Success => 0 case Failure => 1 case Conflicted => 2 case ExecutionUnknown => 3
  }

  function RelationCode(r: Relation): int {
    match r
    case Supports => 0 case Contradicts => 1 case BasedOn => 2 case ReasonFor => 3
    case Addresses => 4 case Reviews => 5 case Corrects => 6 case Resolves => 7
    case Supersedes => 8 case CausedBy => 9 case Satisfies => 10
  }

  function Strings(s: seq<string>): Json {
    if s == [] then Nil else Cons(Str(s[0]), Strings(s[1..]))
  }

  function Options(s: seq<Option<string>>): Json {
    if s == [] then Nil else Cons(OptionJson(s[0]), Options(s[1..]))
  }

  function ProofJson(p: Proof): Json {
    match p
    case Absent => Null
    case Malformed(t) => Str(t)
    case Signed(signers, signatures) => Cons(Strings(signers), Options(signatures))
  }

  function ConfigurationJson(c: Configuration): Json {
    Cons(Str(c.authorityKey), Cons(Str(c.digest), Cons(Number(c.epoch), Cons(Strings(c.members),
      Cons(Number(c.quorum), Cons(OptionJson(c.prior), ProofJson(c.proof)))))))
  }

  function ReceiptJson(r: Receipt): Json {
    Cons(Str(r.authorityKey), Cons(Str(r.operationDigest), Cons(Str(r.configurationDigest), Cons(Number(r.epoch),
      Cons(OptionJson(r.priorReceipt), Cons(OptionJson(r.policyDigest), ProofJson(r.proof)))))))
  }

  // The kind tag first, then the fields.
  function PayloadJson(p: Payload): Json {
    match p
    case PlanCreated(plan, project, objective, rationale, lifecycle) =>
      Cons(Number(0),
           Cons(Str(plan), Cons(Str(project), Cons(Str(objective), Cons(OptionJson(rationale),
           Number(LifecycleCode(lifecycle)))))))
    case PlanLifecycleChanged(plan, lifecycle, endReason) =>
      Cons(Number(1), Cons(Str(plan), Cons(Number(LifecycleCode(lifecycle)), EndReasonJson(endReason))))
    case WorkDerived(work, plan, workKind, subject, role) =>
      Cons(Number(2),
           Cons(Str(work), Cons(Str(plan), Cons(Str(workKind), Cons(OptionJson(subject), OptionJson(role))))))
    case WorkDependencyDeclared(work, dependency, policy) =>
      Cons(Number(3), Cons(Str(work), Cons(Str(dependency), Number(if policy == ALL then 0 else 1))))
    case ResultRecorded(work, outcome, resultRef, key) =>
      Cons(Number(4), Cons(Str(work), Cons(Number(OutcomeCode(outcome)), Cons(Str(resultRef), OptionJson(key)))))
    case LinkAsserted(link) =>
      Cons(Number(5), Cons(Str(link.source), Cons(Number(RelationCode(link.relation)), Str(link.target))))
    case ObservationRecorded(predicateText, valueText) =>
      Cons(Number(6), Cons(Str(predicateText), Str(valueText)))
    case ClaimRecorded(proposition) => Cons(Number(7), Str(proposition))
    case WorkRetired(work, reason) => Cons(Number(8), Cons(Str(work), Str(reason)))
    case AuthorityConfiguration(c) => Cons(Number(9), ConfigurationJson(c))
    case AuthorityReceipt(r) => Cons(Number(10), ReceiptJson(r))
  }

  function PayloadDigest(p: Payload): string { Digest(PayloadJson(p)) }

  lemma {:induction false} StringsInjective(a: seq<string>, b: seq<string>)
    requires Strings(a) == Strings(b)
    ensures a == b
  {
    if a != [] && b != [] {
      StringsInjective(a[1..], b[1..]);
      assert a == [a[0]] + a[1..] && b == [b[0]] + b[1..];
    }
  }

  lemma {:induction false} OptionsInjective(a: seq<Option<string>>, b: seq<Option<string>>)
    requires Options(a) == Options(b)
    ensures a == b
  {
    if a != [] && b != [] {
      OptionsInjective(a[1..], b[1..]);
      assert a == [a[0]] + a[1..] && b == [b[0]] + b[1..];
    }
  }

  lemma ProofInjective(a: Proof, b: Proof)
    requires ProofJson(a) == ProofJson(b)
    ensures a == b
  {
    if a.Signed? {
      StringsInjective(a.signers, b.signers);
      OptionsInjective(a.signatures, b.signatures);
    }
  }

  // A payload is recoverable from its committed digest: no two payloads share one.
  lemma PayloadDigestInjective(a: Payload, b: Payload)
    requires PayloadDigest(a) == PayloadDigest(b)
    ensures a == b
  {
    DigestInjective(PayloadJson(a), PayloadJson(b));
    match a {
      case AuthorityConfiguration(c) =>
        StringsInjective(c.members, b.configuration.members);
        ProofInjective(c.proof, b.configuration.proof);
      case AuthorityReceipt(r) =>
        ProofInjective(r.proof, b.receipt.proof);
      case _ =>
    }
  }

  // ---- event identity (ids.event_hash): one derivation, two sealed preimages ----

  // The nine sealed fields, closed by what the version adds.
  function Fields(e: Event, payloadDigest: string, rest: Json): Json {
    Cons(Str(e.origin), Cons(Number(e.seqNo),
      Cons(Str(e.hlc), Cons(Str(e.kind), Cons(OptionJson(e.subject), Cons(Str(e.actor),
      Cons(OptionJson(e.policyDigest), Cons(Str(payloadDigest), Cons(OptionJson(e.prevHash), rest)))))))))
  }

  function Preimage(e: Event, payloadDigest: string): Json {
    Fields(e, payloadDigest, if e.version == 1 then Nil else Cons(Number(2), OptionJson(e.scopeDigest)))
  }

  function EventHash(e: Event, payloadDigest: string): string { Digest(Preimage(e, payloadDigest)) }

  function ScopeDigest(scope: string): string { Digest(Str(scope)) }

  const RESERVED_SCOPE_PREFIX := '$'

  // Event.verify: an unknown version, a v1 envelope with a scope, a reserved or lying
  // cleartext scope, and any digest mismatch are all refused. A stub's payload digest is
  // taken as committed.
  predicate Verify(e: Event) {
    && (e.version == 1 || e.version == 2)
    && (e.version == 1 ==> e.scopeRef == None && e.scopeDigest == None)
    && (match e.scopeRef
        case None => true
        case Some(s) => !(s != [] && s[0] == RESERVED_SCOPE_PREFIX) && e.scopeDigest == Some(ScopeDigest(s)))
    && var pd := match e.payload case Some(p) => PayloadDigest(p) case None => e.payloadDigest;
    && pd == e.payloadDigest
    && EventHash(e, pd) == e.selfHash == e.id
  }

  // What the hash commits to: everything but the attestation, the cleartext scope and the bytes.
  function Committed(e: Event): Event {
    e.(scopeRef := None, signature := None, keyRef := None, scheme := None, payload := None)
  }

  // Two verified envelopes with one identity agree on every committed field, so a v2
  // envelope re-presented as v1 (or moved to another position) is another identity.
  lemma IdentityCommits(a: Event, b: Event)
    requires Verify(a) && Verify(b) && a.id == b.id
    ensures Committed(a) == Committed(b)
    ensures a.payload.Some? && b.payload.Some? ==> a.payload == b.payload
    ensures a.scopeRef.Some? && b.scopeRef.Some? ==> a.scopeRef == b.scopeRef
  {
    DigestInjective(Preimage(a, a.payloadDigest), Preimage(b, b.payloadDigest));
    if a.payload.Some? && b.payload.Some? {
      PayloadDigestInjective(a.payload.value, b.payload.value);
    }
    if a.scopeRef.Some? && b.scopeRef.Some? {
      DigestInjective(Str(a.scopeRef.value), Str(b.scopeRef.value));
    }
  }
}
