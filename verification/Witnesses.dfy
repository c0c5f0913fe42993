// Concrete histories. One run of a node, from the empty store, in which a fork point is
// resolved, frozen again, and cannot be released: the claims about such points are not
// claims about nothing.

module Witnesses {
  import opened Prelude
  import opened Vocabulary
  import opened Canonical
  import opened Replication
  import opened Freezing
  import opened Runs
  import opened DeadEnds
  import Hlc
  import E = Emission
  import G = Gate
  import A = Authority
  import T = Trust

  // ---- moves that can always be made ----

  function Stamp(): string { Hlc.Render(Hlc.Stamp(0, 0, "x")) }

  function Plain(p: Payload): E.Draft { E.Draft(p, None, None, None, None) }

  function Unsigned(node: string): E.Identity { E.Identity(node, node, None) }

  lemma StampParses()
    ensures Hlc.Parse(Stamp()) == Some(Hlc.Stamp(0, 0, "x"))
  {
    Hlc.RoundTrip(Hlc.Stamp(0, 0, "x"));
  }

  function EmitOf(node: string, p: Payload): Op { Emit(Unsigned(node), Plain(p), Stamp(), false) }

  ghost predicate Wrote(w: World, w': World, at: Pos, e: Event) {
    && at !in w.log && w' == w.(log := w.log[at := e], history := w'.history)
    && Verify(e) && e.origin == at.origin && e.seqNo == at.seqNo
  }

  lemma EmitWrites(log: Log, node: string, p: Payload) returns (e: Event)
    requires LogInv(log)
    ensures E.Emit(log, Unsigned(node), Plain(p), Stamp(), false) == E.Emitted(e) && e.payload == Some(p) && Verify(e)
    ensures e.origin == node && e.seqNo == Head(log, node) + 1 && Pos(node, e.seqNo) !in log
  {
    StampParses();
    E.EmitSucceeds(log, Unsigned(node), Plain(p), Stamp(), false);
    E.EmittedEvent(log, Unsigned(node), Plain(p), Stamp(), false);
    e := E.Emit(log, Unsigned(node), Plain(p), Stamp(), false).event;
    GapFree(log, node, e.seqNo);
  }

  lemma EmitMove(w: World, node: string, p: Payload) returns (w': World, e: Event)
    requires LogInv(w.log)
    ensures E.Emit(w.log, Unsigned(node), Plain(p), Stamp(), false) == E.Emitted(e)
    ensures Moves(w, EmitOf(node, p), w') && Wrote(w, w', Pos(node, Head(w.log, node) + 1), e) && e.payload == Some(p)
  {
    e := EmitWrites(w.log, node, p);
    w' := w.(log := w.log[Pos(e.origin, e.seqNo) := e], history := w.history + Reductions(e));
  }

  function EnrollOf(node: string, key: string): Op { Administer(T.Enroll(node, key, None, [])) }

  lemma EnrollMove(w: World, node: string, key: string) returns (w': World)
    requires key !in w.trust.keys
    requires T.Genesis(node) in w.trust.incarnations ==> w.trust.incarnations[T.Genesis(node)].node == node
    ensures Moves(w, EnrollOf(node, key), w') && w' == w.(trust := w'.trust)
    ensures w'.trust.keys == w.trust.keys[key := T.KeyEntry(node, T.Active, T.Genesis(node), None, None)]
    ensures w'.trust.incarnations == T.SetDefault(w.trust.incarnations, T.Genesis(node), T.Incarnation(node, None))
  {
    w' := w.(trust := T.After(w.trust, T.Enroll(node, key, None, [])));
  }

  function RowOf(w: World, e: Event, c: Classification): Forks
    requires Pos(e.origin, e.seqNo) in w.log
  {
    w.forks[ForkKey(e.origin, e.seqNo, e.selfHash) := Fork(w.log[Pos(e.origin, e.seqNo)].id, e.keyRef, c, true,
                                                             None, None)]
  }

  lemma RivalMove(w: World, r: Receiver, e: Event) returns (w': World, c: Classification)
    requires Inv(w) && r.trust == w.trust && e.origin !in FrozenOrigins(w.forks) && Rival(w.log, r, e)
    requires ForkKey(e.origin, e.seqNo, e.selfHash) !in w.forks
    ensures Moves(w, Deliver(r, [e]), w') && w' == w.(forks := RowOf(w, e, c))
  {
    var s := Opening(w.log, w.forks, w.history);
    FreezeVerdict(s, r, e);
    FreezeAddsRow(s, r, e);
    c := Judge(s, r, e).c;
    w' := w.(forks := RowOf(w, e, c));
    assert [e][..0] == [];
    assert AdmitAll(s, r, [e]) == Perform(s, r, e, Freeze(c));
  }

  lemma ReleaseMove(w: World, k: ForkKey, chosen: string, receiptId: string, keys: A.Keyring) returns (w': World)
    requires k in w.forks && forall x :: x in G.PointRows(w.forks, k.origin, k.seqNo) ==>
             G.RowAgrees(w.forks[x], chosen, receiptId)
    requires G.Authorized(w.log, w.lineage, w.trust, k.origin, k.seqNo, chosen, receiptId, keys)
    ensures Moves(w, Attempt(k, chosen, receiptId, keys, None), w')
    ensures w' == w.(forks := G.Resolved(w.forks, k.origin, k.seqNo, chosen, receiptId),
                     trust := G.RevokedAll(w.trust, G.RivalKeys(w.forks, G.PointRows(w.forks, k.origin, k.seqNo)),
                                             k.seqNo))
  {
    assert k in G.PointRows(w.forks, k.origin, k.seqNo);
    G.Released(w.log, w.forks, w.lineage, w.trust, k.origin, k.seqNo, chosen, receiptId, keys);
    w' := w.(forks := G.Resolved(w.forks, k.origin, k.seqNo, chosen, receiptId),
             trust := G.RevokedAll(w.trust, G.RivalKeys(w.forks, G.PointRows(w.forks, k.origin, k.seqNo)), k.seqNo));
  }

  lemma RunMore(ws: seq<World>, ops: seq<Op>, op: Op, w: World)
    requires Run(ws, ops) && Moves(ws[|ws| - 1], op, w)
    ensures Run(ws + [w], ops + [op])
  {
    var vs, more := ws + [w], ops + [op];
    forall i: nat | i < |more| ensures StepAt(vs, more, i) { StepMore(ws, ops, op, w, i); }
  }

  lemma StepMore(ws: seq<World>, ops: seq<Op>, op: Op, w: World, i: nat)
    requires Run(ws, ops) && Moves(ws[|ws| - 1], op, w) && i <= |ops|
    ensures StepAt(ws + [w], ops + [op], i)
  {
    if i < |ops| { StepTaken(ws, ops, i); }
  }

  // ---- what a log holds after one more row ----

  lemma StillHolds(log: Log, at: Pos, e: Event, id: string, r: Receipt)
    requires at !in log && G.HoldsReceipt(log, id, r)
    ensures G.HoldsReceipt(log[at := e], id, r)
  {
    var p :| p in log && log[p].id == id && log[p].payload == Some(AuthorityReceipt(r));
    assert log[at := e][p] == log[p];
  }

  lemma NowHolds(log: Log, at: Pos, e: Event, r: Receipt)
    requires e.payload == Some(AuthorityReceipt(r))
    ensures G.HoldsReceipt(log[at := e], e.id, r)
  {
    assert log[at := e][at] == e;
  }

  // The configurations a log holds are exactly these.
  ghost predicate Configured(log: Log, cs: set<Configuration>) { forall c :: G.HoldsConfiguration(log, c) <==> c in cs }

  lemma ConfiguredMore(log: Log, cs: set<Configuration>, at: Pos, e: Event)
    requires Configured(log, cs) && at !in log && e.payload.Some?
    ensures Configured(log[at := e],
                       cs + if e.payload.value.AuthorityConfiguration? then {e.payload.value.configuration} else {})
  {
    var after := log[at := e];
    forall c
      ensures G.HoldsConfiguration(after, c) <==>
              G.HoldsConfiguration(log, c) || e.payload == Some(AuthorityConfiguration(c))
    {
      if G.HoldsConfiguration(log, c) {
        var p :| p in log && log[p].payload == Some(AuthorityConfiguration(c));
        assert after[p] == log[p];
      }
      assert after[at] == e;
    }
  }

  // ---- the actors ----

  const MEMBERS: seq<string> := ["m"]
  const PROOF: Proof := Signed(["m"], [Some("s")])

  function Founding(): Configuration {
    var c := Configuration(G.FORK_RESOLUTION_KEY, "", 0, MEMBERS, 1, None, PROOF);
    c.(digest := A.Coordinate(c))
  }

  function Succeeding(): Configuration {
    var c := Configuration(G.FORK_RESOLUTION_KEY, "", 1, MEMBERS, 1, Some(Founding().digest), PROOF);
    c.(digest := A.Coordinate(c))
  }

  function Operation(chosen: string): string { G.ForkOperation("o", 1, chosen, Founding().digest, None) }

  function ReceiptFor(chosen: string, tag: string): Receipt {
    Receipt(G.FORK_RESOLUTION_KEY, Operation(chosen), Founding().digest, 0, Some(tag), None, PROOF)
  }

  // A rival first event of origin o, attested by the key.
  function RivalEvent(text: string, key: string): Event {
    var id := E.Identity("o", "o", Some(E.Credential(key, "ed25519", (hash: string) => "s")));
    E.Sealed(id, E.Unsealed(id, Plain(ClaimRecorded(text)), 1, None, Stamp()))
  }

  function Vouched(statement: string, key: string): A.Attestation { A.Attestation(statement, "s", key, "ed25519") }

  function Keys(chosen: string): A.Keyring {
    {Vouched(Founding().digest, "m"), Vouched(Succeeding().digest, "m"), Vouched(Operation(chosen), "m"),
     Vouched(RivalEvent("b", "k1").selfHash, "k1"), Vouched(RivalEvent("b", "k1").selfHash, "k2"),
         Vouched(RivalEvent("c", "k2").selfHash, "k2")}
  }

  lemma Signing(p: Proof, statement: string, keys: A.Keyring)
    requires p == PROOF && Vouched(statement, "m") in keys
    ensures A.ValidSigners(p, statement, MEMBERS, keys) == Some({"m"})
  {
    assert PROOF.signers[0] == "m" && PROOF.signatures[0] == Some("s") && MEMBERS[0] == "m";
    assert A.Counts(PROOF, statement, MEMBERS, keys, "m");
    assert A.ValidSigners(PROOF, statement, MEMBERS, keys).value == {"m"};
  }

  lemma FoundingStands(chosen: string)
    ensures A.FacialGenesis(Founding(), Keys(chosen)) && A.Bound(Founding())
  {
    Signing(PROOF, Founding().digest, Keys(chosen));
    assert (set m | m in MEMBERS) == {"m"};
  }

  lemma SucceedingStands(chosen: string)
    ensures A.FacialSuccessor(Succeeding(), Founding(), Keys(chosen)) && Succeeding().digest != Founding().digest
  {
    Signing(PROOF, Succeeding().digest, Keys(chosen));
    if Succeeding().digest == Founding().digest { A.CoordinateBinds(Succeeding(), Founding()); }
  }

  lemma RivalFacts(text: string, key: string)
    ensures var e := RivalEvent(text, key);
      && Verify(e) && e.origin == "o" && e.seqNo == 1 && e.payload == Some(ClaimRecorded(text))
      && e.keyRef == Some(key) && e.signature == Some("s") && e.scheme == Some("ed25519")
  {
  }

  // Verified envelopes with different payloads have different identities.
  lemma PayloadsTell(a: Event, b: Event)
    requires Verify(a) && Verify(b) && a.payload.Some? && b.payload.Some? && a.payload != b.payload
    ensures a.id != b.id && a.selfHash != b.selfHash
  {
    if a.id == b.id { IdentityCommits(a, b); }
  }

  lemma FoundingIsCurrent(store: A.Store, chosen: string)
    requires store == map[Founding().digest := Founding()]
    ensures A.IsCurrent(store, G.FORK_RESOLUTION_KEY, Founding().digest, Keys(chosen))
    ensures A.GenesisOf(store, G.FORK_RESOLUTION_KEY, Keys(chosen)) == {Founding().digest}
  {
    var d := Founding().digest;
    FoundingStands(chosen);
    assert A.GenesisOf(store, G.FORK_RESOLUTION_KEY, Keys(chosen)) == {d};
    assert A.SuccessorsOf(store, store[d], Keys(chosen)) == {};
    assert A.CompleteLine(store, G.FORK_RESOLUTION_KEY, [d], Keys(chosen)) && [d][0] == d;
  }

  lemma ReceiptIsValid(store: A.Store, chosen: string, tag: string, trust: T.Registry)
    requires store == map[Founding().digest := Founding()] && T.StandingAt(trust, "m", None) == T.Active
    ensures A.ReceiptStanding(store, ReceiptFor(chosen, tag), Keys(chosen), Some(trust)) == A.VALID
  {
    var r := ReceiptFor(chosen, tag);
    FoundingIsCurrent(store, chosen);
    Signing(r.proof, r.operationDigest, Keys(chosen));
    OneIsEnough(r, Founding(), Keys(chosen), trust);
  }

  lemma OneIsEnough(r: Receipt, c: Configuration, keys: A.Keyring, trust: T.Registry)
    requires A.ValidSigners(r.proof, r.operationDigest, c.members, keys) == Some({"m"}) && c.quorum == 1
    requires T.StandingAt(trust, "m", None) == T.Active
    ensures A.QuorumMet(r, c, keys, Some(trust))
  {
    assert A.Exercising({"m"}, Some(trust)) == {"m"};
  }

  lemma ReceiptAuthorizes(log: Log, chosen: string, tag: string, id: string, trust: T.Registry)
    requires Configured(log, {Founding()}) && G.HoldsReceipt(log, id, ReceiptFor(chosen, tag))
    requires T.StandingAt(trust, "m", None) == T.Active
    ensures G.Authorized(log, map[], trust, "o", 1, chosen, id, Keys(chosen))
  {
    var store := map[Founding().digest := Founding()];
    assert G.HoldsConfiguration(log, Founding());
    assert G.Loaded(log, store);
    ReceiptIsValid(store, chosen, tag, trust);
    assert G.Heads(map[]) == {};
    assert G.Exercised(map[], trust, "o", 1, chosen, Keys(chosen), ReceiptFor(chosen, tag), store);
  }

  // ---- a run, step by step ----

  ghost predicate Apart(cs: set<Configuration>) { forall a, b :: a in cs && b in cs && a.digest == b.digest ==> a == b }

  ghost predicate Stage(ws: seq<World>, ops: seq<Op>, keys: A.Keyring, cs: set<Configuration>) {
    Run(ws, ops) && UniqueAlong(ws, keys, ops) && Configured(ws[|ops|].log, cs)
  }

  lemma StageMore(ws: seq<World>, ops: seq<Op>, keys: A.Keyring, cs: set<Configuration>, op: Op, w: World,
                  cs': set<Configuration>)
    requires Stage(ws, ops, keys, cs) && Moves(ws[|ops|], op, w) && (op.Resolve? ==> op.keys == keys)
    requires Configured(w.log, cs') && Apart(cs')
    ensures Stage(ws + [w], ops + [op], keys, cs')
  {
    RunMore(ws, ops, op, w);
    assert G.UniqueDigests(w.log);
  }

  // Some run under these keys ends in this world.
  ghost predicate Reached(w: World, keys: A.Keyring, cs: set<Configuration>) {
    exists ws, ops :: Stage(ws, ops, keys, cs) && ws[|ops|] == w
  }

  lemma ReachMore(w: World, keys: A.Keyring, cs: set<Configuration>, op: Op, w': World, cs': set<Configuration>)
    requires Reached(w, keys, cs) && Moves(w, op, w') && (op.Resolve? ==> op.keys == keys)
    requires Configured(w'.log, cs') && Apart(cs')
    ensures Reached(w', keys, cs')
  {
    var ws, ops :| Stage(ws, ops, keys, cs) && ws[|ops|] == w;
    StageMore(ws, ops, keys, cs, op, w', cs');
    assert (ws + [w'])[|ops + [op]|] == w';
  }

  lemma ReachInv(w: World, keys: A.Keyring, cs: set<Configuration>)
    requires Reached(w, keys, cs)
    ensures Inv(w) && Configured(w.log, cs)
  {
    var ws, ops :| Stage(ws, ops, keys, cs) && ws[|ops|] == w;
    RunKeepsInv(ws, ops, |ops|);
  }

  lemma ReachLog(w: World, keys: A.Keyring, cs: set<Configuration>)
    requires Reached(w, keys, cs)
    ensures LogInv(w.log) && Configured(w.log, cs)
  {
    ReachInv(w, keys, cs);
  }

  lemma EmitReach(w: World, keys: A.Keyring, cs: set<Configuration>, node: string, p: Payload, cs': set<Configuration>)
    returns (w': World, e: Event)
    requires Reached(w, keys, cs) && Apart(cs')
    requires cs' == cs + (if p.AuthorityConfiguration? then {p.configuration} else {})
    ensures Reached(w', keys, cs') && Wrote(w, w', Pos(node, Head(w.log, node) + 1), e) && e.payload == Some(p)
    ensures E.Emit(w.log, Unsigned(node), Plain(p), Stamp(), false) == E.Emitted(e)
  {
    ReachLog(w, keys, cs);
    w', e := EmitMove(w, node, p);
    ConfiguredMore(w.log, cs, Pos(node, Head(w.log, node) + 1), e);
    ReachMore(w, keys, cs, EmitOf(node, p), w', cs');
  }

  predicate Stands(trust: T.Registry, key: string, node: string) {
    T.StandingAt(trust, key, None) == T.Active && T.NodeOf(trust, key) == Some(node)
  }

  // m speaks for n, and k1 and k2 for o.
  predicate Staff(trust: T.Registry) { Stands(trust, "m", "n") && Stands(trust, "k1", "o") && Stands(trust, "k2", "o") }

  lemma Staffed(keys: A.Keyring) returns (w: World)
    ensures Reached(w, keys, {}) && w == START.(trust := w.trust) && Staff(w.trust)
  {
    assert T.Genesis("n")[4] == 'n' && T.Genesis("o")[4] == 'o';
    var a := EnrollMove(START, "n", "m");
    var b := EnrollMove(a, "o", "k1");
    w := EnrollMove(b, "o", "k2");
    Started(keys);
    ReachMore(START, keys, {}, EnrollOf("n", "m"), a, {});
    ReachMore(a, keys, {}, EnrollOf("o", "k1"), b, {});
    ReachMore(b, keys, {}, EnrollOf("o", "k2"), w, {});
  }

  lemma Started(keys: A.Keyring)
    ensures Reached(START, keys, {})
  {
    assert Stage([START], [], keys, {});
  }

  // The envelope that will be held at o's first position.
  ghost predicate IsFirst(e: Event) {
    && E.Emit(map[], Unsigned("o"), Plain(ClaimRecorded("a")), Stamp(), false) == E.Emitted(e)
    && Verify(e) && e.payload == Some(ClaimRecorded("a")) && e.origin == "o" && e.seqNo == 1
  }

  lemma First() returns (e: Event)
    ensures IsFirst(e)
  {
    e := EmitWrites(map[], "o", ClaimRecorded("a"));
  }

  // What the log and the lineage hold from here on: o's first envelope and two receipts
  // for the resolution in its favour.
  ghost predicate Scene(w: World, e: Event, r1: string, r2: string) {
    && w.lineage == map[] && Pos("o", 1) in w.log && w.log[Pos("o", 1)] == e
    && G.HoldsReceipt(w.log, r1, ReceiptFor(e.id, "1")) && G.HoldsReceipt(w.log, r2, ReceiptFor(e.id, "2"))
  }

  lemma Opened(e: Event) returns (w: World)
    requires IsFirst(e)
    ensures Reached(w, Keys(e.id), {}) && w.lineage == map[] && w.forks == map[] && Staff(w.trust)
    ensures Pos("o", 1) in w.log && w.log[Pos("o", 1)] == e
  {
    var start := Staffed(Keys(e.id));
    var first;
    w, first := EmitReach(start, Keys(e.id), {}, "o", ClaimRecorded("a"), {});
  }

  lemma Written(e: Event) returns (w: World)
    requires IsFirst(e)
    ensures Reached(w, Keys(e.id), {Founding()}) && w.lineage == map[] && w.forks == map[] && Staff(w.trust)
    ensures Pos("o", 1) in w.log && w.log[Pos("o", 1)] == e
  {
    var v := Opened(e);
    w := Founded(v, Keys(e.id), Founding());
  }

  lemma Founded(v: World, keys: A.Keyring, c: Configuration) returns (w: World)
    requires Reached(v, keys, {}) && Pos("o", 1) in v.log
    ensures Reached(w, keys, {c}) && w == v.(log := w.log, history := w.history)
    ensures Pos("o", 1) in w.log && w.log[Pos("o", 1)] == v.log[Pos("o", 1)]
  {
    var e;
    w, e := EmitReach(v, keys, {}, "n", AuthorityConfiguration(c), {c});
  }

  lemma GrantOne(v: World, e: Event, tag: string) returns (w: World, a: Event)
    requires Reached(v, Keys(e.id), {Founding()}) && Pos("o", 1) in v.log
    ensures Reached(w, Keys(e.id), {Founding()}) && w == v.(log := w.log, history := w.history)
    ensures Pos("o", 1) in w.log && w.log[Pos("o", 1)] == v.log[Pos("o", 1)]
    ensures Verify(a) && a.payload == Some(AuthorityReceipt(ReceiptFor(e.id, tag)))
    ensures exists at :: at !in v.log && w.log == v.log[at := a]
  {
    w, a := EmitReach(v, Keys(e.id), {Founding()}, "n", AuthorityReceipt(ReceiptFor(e.id, tag)), {Founding()});
  }

  lemma Granted(v: World, e: Event) returns (w: World, r1: string, r2: string)
    requires Reached(v, Keys(e.id), {Founding()}) && v.lineage == map[]
    requires Pos("o", 1) in v.log && v.log[Pos("o", 1)] == e
    ensures Reached(w, Keys(e.id), {Founding()}) && Scene(w, e, r1, r2) && r1 != r2 && w.forks == v.forks
    ensures w.trust == v.trust
  {
    var u, a := GrantOne(v, e, "1");
    var b;
    w, b := GrantOne(u, e, "2");
    TwoReceipts(e.id, a, b);
    BothHeld(v.log, u.log, w.log, e.id, a, b);
    r1, r2 := a.id, b.id;
  }

  lemma BothHeld(v: Log, u: Log, w: Log, chosen: string, a: Event, b: Event)
    requires exists at :: at !in v && u == v[at := a]
    requires exists at :: at !in u && w == u[at := b]
    requires a.payload == Some(AuthorityReceipt(ReceiptFor(chosen, "1")))
    requires b.payload == Some(AuthorityReceipt(ReceiptFor(chosen, "2")))
    ensures G.HoldsReceipt(w, a.id, ReceiptFor(chosen, "1")) && G.HoldsReceipt(w, b.id, ReceiptFor(chosen, "2"))
  {
    var p :| p !in v && u == v[p := a];
    var q :| q !in u && w == u[q := b];
    NowHolds(v, p, a, ReceiptFor(chosen, "1"));
    StillHolds(u, q, b, a.id, ReceiptFor(chosen, "1"));
    NowHolds(u, q, b, ReceiptFor(chosen, "2"));
  }

  lemma TwoReceipts(chosen: string, a: Event, b: Event)
    requires Verify(a) && Verify(b)
    requires a.payload == Some(AuthorityReceipt(ReceiptFor(chosen, "1")))
    requires b.payload == Some(AuthorityReceipt(ReceiptFor(chosen, "2")))
    ensures a.id != b.id
  {
    assert a.payload.value.receipt.priorReceipt == Some("1") && b.payload.value.receipt.priorReceipt == Some("2");
    PayloadsTell(a, b);
  }

  function RivalKey(text: string, key: string): ForkKey { ForkKey("o", 1, RivalEvent(text, key).selfHash) }

  function Judging(w: World, keys: A.Keyring): Receiver { Receiver(keys, w.trust, None, 0, 0) }

  lemma IsRival(log: Log, r: Receiver, e: Event, text: string, key: string)
    requires Pos("o", 1) in log && log[Pos("o", 1)] == e && IsFirst(e) && text != "a"
    requires Stands(r.trust, key, "o") && Vouched(RivalEvent(text, key).selfHash, key) in r.keys
    ensures Rival(log, r, RivalEvent(text, key)) && RivalEvent(text, key).origin == "o"
    ensures RivalEvent(text, key).seqNo == 1
    ensures RivalEvent(text, key).keyRef == Some(key)
  {
    RivalFacts(text, key);
    PayloadsTell(e, RivalEvent(text, key));
  }

  // A rival of the event held at o's first position enters the evidence, frozen.
  ghost predicate Enters(forks: Forks, forks': Forks, k: ForkKey, held: string, key: string) {
    && k !in forks && k in forks' && forks' == forks[k := forks'[k]]
    && forks'[k].frozen && forks'[k].heldId == held && forks'[k].rivalKey == Some(key)
  }

  lemma RivalReach(v: World, keys: A.Keyring, cs: set<Configuration>, e: Event, rival: Event, key: string, k: ForkKey)
    returns (w: World)
    requires Reached(v, keys, cs) && Apart(cs) && Rival(v.log, Judging(v, keys), rival) && rival.origin == "o"
    requires rival.seqNo == 1
    requires Pos("o", 1) in v.log && v.log[Pos("o", 1)] == e && rival.keyRef == Some(key)
    requires k == ForkKey("o", 1, rival.selfHash)
    requires "o" !in FrozenOrigins(v.forks) && k !in v.forks
    ensures Reached(w, keys, cs) && w == v.(forks := w.forks) && Enters(v.forks, w.forks, k, e.id, key)
  {
    ReachInv(v, keys, cs);
    var c;
    w, c := RivalMove(v, Judging(v, keys), rival);
    ReachMore(v, keys, cs, Deliver(Judging(v, keys), [rival]), w, cs);
  }

  lemma ReleaseFrees(forks: Forks, trust: T.Registry, k: ForkKey, key: string, chosen: string, receiptId: string)
    requires k.origin == "o" && k.seqNo == 1 && forks.Keys == {k} && forks[k].frozen && forks[k].rivalKey == Some(key)
    ensures G.PointRows(forks, "o", 1) == {k} && G.RivalKeys(forks, {k}) == {key}
    ensures var after := G.Resolved(forks, "o", 1, chosen, receiptId);
      after.Keys == {k} && !after[k].frozen && after[k].resolvedBy == Some(receiptId) && after[k].rivalKey == Some(key)
    ensures forall x, node :: x != key && Stands(trust, x, node) ==> Stands(G.RevokedAll(trust, {key}, 1), x, node)
  {
    assert G.PointRows(forks, "o", 1) == {k};
    assert G.RivalKeys(forks, {k}) == {key};
  }

  lemma ReleaseReach(v: World, keys: A.Keyring, cs: set<Configuration>, k: ForkKey, key: string, chosen: string,
                     receiptId: string)
    returns (w: World)
    requires Reached(v, keys, cs) && Apart(cs)
    requires G.Authorized(v.log, v.lineage, v.trust, "o", 1, chosen, receiptId, keys)
    requires k.origin == "o" && k.seqNo == 1 && v.forks.Keys == {k}
    requires v.forks[k].frozen && v.forks[k].heldId == chosen && v.forks[k].rivalKey == Some(key)
    ensures Reached(w, keys, cs) && w == v.(forks := w.forks, trust := w.trust)
    ensures w.forks == G.Resolved(v.forks, "o", 1, chosen, receiptId) && w.trust == G.RevokedAll(v.trust, {key}, 1)
  {
    ReleaseFrees(v.forks, v.trust, k, key, chosen, receiptId);
    w := ReleaseMove(v, k, chosen, receiptId, keys);
    ReachConfigured(v, keys, cs);
    ReachMore(v, keys, cs, Attempt(k, chosen, receiptId, keys, None), w, cs);
  }

  lemma FirstIsGood(v: World, e: Event, r1: string, r2: string)
    requires Reached(v, Keys(e.id), {Founding()}) && Scene(v, e, r1, r2) && Stands(v.trust, "m", "n")
    ensures G.Authorized(v.log, v.lineage, v.trust, "o", 1, e.id, r1, Keys(e.id))
  {
    ReachConfigured(v, Keys(e.id), {Founding()});
    ReceiptAuthorizes(v.log, e.id, "1", r1, v.trust);
  }

  // ---- frozen, resolved, frozen again ----

  function Once(): ForkKey { RivalKey("b", "k1") }
  function Again(): ForkKey { RivalKey("c", "k2") }

  lemma RivalsDiffer()
    ensures Once() != Again()
  {
    RivalFacts("b", "k1");
    RivalFacts("c", "k2");
    PayloadsTell(RivalEvent("b", "k1"), RivalEvent("c", "k2"));
  }

  lemma Prepared(e: Event) returns (w: World, r1: string, r2: string)
    requires IsFirst(e)
    ensures Reached(w, Keys(e.id), {Founding()}) && Scene(w, e, r1, r2) && r1 != r2 && w.forks == map[]
    ensures Staff(w.trust)
  {
    var v := Written(e);
    w, r1, r2 := Granted(v, e);
  }

  lemma FirstIsRival(v: World, e: Event)
    requires Pos("o", 1) in v.log && v.log[Pos("o", 1)] == e && IsFirst(e) && Stands(v.trust, "k1", "o")
    ensures var rival := RivalEvent("b", "k1");
      && Rival(v.log, Judging(v, Keys(e.id)), rival) && rival.origin == "o" && rival.seqNo == 1
         && rival.keyRef == Some("k1")
      && Once() == ForkKey("o", 1, rival.selfHash)
  {
    IsRival(v.log, Judging(v, Keys(e.id)), e, "b", "k1");
  }

  lemma SecondIsRival(v: World, e: Event)
    requires Pos("o", 1) in v.log && v.log[Pos("o", 1)] == e && IsFirst(e) && Stands(v.trust, "k2", "o")
    ensures var rival := RivalEvent("c", "k2");
      && Rival(v.log, Judging(v, Keys(e.id)), rival) && rival.origin == "o" && rival.seqNo == 1
         && rival.keyRef == Some("k2")
      && Again() == ForkKey("o", 1, rival.selfHash)
  {
    IsRival(v.log, Judging(v, Keys(e.id)), e, "c", "k2");
  }

  lemma FirstRival(v: World, e: Event) returns (w: World)
    requires Reached(v, Keys(e.id), {Founding()}) && v.forks == map[] && IsFirst(e) && Stands(v.trust, "k1", "o")
    requires Pos("o", 1) in v.log && v.log[Pos("o", 1)] == e
    ensures Reached(w, Keys(e.id), {Founding()}) && w == v.(forks := w.forks)
    ensures Enters(map[], w.forks, Once(), e.id, "k1")
  {
    FirstIsRival(v, e);
    w := RivalReach(v, Keys(e.id), {Founding()}, e, RivalEvent("b", "k1"), "k1", Once());
  }

  lemma SecondRival(v: World, e: Event, again: ForkKey) returns (w: World)
    requires Reached(v, Keys(e.id), {Founding()}) && IsFirst(e) && Stands(v.trust, "k2", "o") && again == Again()
    requires Pos("o", 1) in v.log && v.log[Pos("o", 1)] == e && FrozenOrigins(v.forks) == {} && again !in v.forks
    ensures Reached(w, Keys(e.id), {Founding()}) && w == v.(forks := w.forks)
    ensures Enters(v.forks, w.forks, again, e.id, "k2")
  {
    SecondIsRival(v, e);
    w := RivalReach(v, Keys(e.id), {Founding()}, e, RivalEvent("c", "k2"), "k2", again);
  }

  lemma OnlyRow(forks: Forks, k: ForkKey, held: string, key: string)
    requires Enters(map[], forks, k, held, key)
    ensures forks.Keys == {k} && forks[k].frozen && forks[k].heldId == held && forks[k].rivalKey == Some(key)
  {
  }

  lemma Released(v: World, e: Event, r1: string, r2: string) returns (w: World)
    requires Reached(v, Keys(e.id), {Founding()}) && Scene(v, e, r1, r2) && Enters(map[], v.forks, Once(), e.id, "k1")
    requires Stands(v.trust, "m", "n") && Stands(v.trust, "k2", "o")
    ensures Reached(w, Keys(e.id), {Founding()}) && w == v.(forks := w.forks, trust := w.trust)
    ensures w.forks.Keys == {Once()} && !w.forks[Once()].frozen && w.forks[Once()].resolvedBy == Some(r1)
    ensures Stands(w.trust, "m", "n") && Stands(w.trust, "k2", "o")
  {
    FirstIsGood(v, e, r1, r2);
    OnlyRow(v.forks, Once(), e.id, "k1");
    ReleaseFrees(v.forks, v.trust, Once(), "k1", e.id, r1);
    w := ReleaseReach(v, Keys(e.id), {Founding()}, Once(), "k1", e.id, r1);
  }

  lemma SceneStays(v: World, w: World, e: Event, r1: string, r2: string)
    requires Scene(v, e, r1, r2) && w.log == v.log && w.lineage == v.lineage
    ensures Scene(w, e, r1, r2)
  {
  }

  lemma ResolvedOnce(e: Event) returns (w: World, r1: string, r2: string)
    requires IsFirst(e)
    ensures Reached(w, Keys(e.id), {Founding()}) && Scene(w, e, r1, r2) && r1 != r2
    ensures w.forks.Keys == {Once()} && !w.forks[Once()].frozen && w.forks[Once()].resolvedBy == Some(r1)
    ensures Stands(w.trust, "m", "n") && Stands(w.trust, "k2", "o")
  {
    var u;
    u, r1, r2 := Prepared(e);
    var v := FirstRival(u, e);
    SceneStays(u, v, e, r1, r2);
    w := Released(v, e, r1, r2);
    SceneStays(v, w, e, r1, r2);
  }

  ghost predicate TwiceFrozen(w: World, e: Event, r1: string, r2: string) {
    && Scene(w, e, r1, r2) && r1 != r2 && w.forks.Keys == {Once(), Again()}
    && !w.forks[Once()].frozen && w.forks[Once()].resolvedBy == Some(r1)
    && w.forks[Again()].frozen && w.forks[Again()].heldId == e.id && w.forks[Again()].rivalKey == Some("k2")
    && Stands(w.trust, "m", "n") && Stands(w.trust, "k2", "o")
  }

  lemma NoneFrozen(forks: Forks, k: ForkKey)
    requires forks.Keys == {k} && !forks[k].frozen
    ensures FrozenOrigins(forks) == {}
  {
  }

  lemma NowTwice(v: World, w: World, e: Event, r1: string, r2: string, k: ForkKey, again: ForkKey)
    requires k == Once() && again == Again() && k != again && Enters(v.forks, w.forks, again, e.id, "k2")
    requires v.forks.Keys == {k} && !v.forks[k].frozen && v.forks[k].resolvedBy == Some(r1) && w.trust == v.trust
    requires Scene(w, e, r1, r2) && r1 != r2 && Stands(v.trust, "m", "n") && Stands(v.trust, "k2", "o")
    ensures TwiceFrozen(w, e, r1, r2)
  {
  }

  lemma FrozenAgain(v: World, e: Event, r1: string, r2: string, k: ForkKey, again: ForkKey) returns (w: World)
    requires Reached(v, Keys(e.id), {Founding()}) && IsFirst(e) && Scene(v, e, r1, r2) && r1 != r2
    requires k == Once() && again == Again() && again !in v.forks && FrozenOrigins(v.forks) == {}
    requires v.forks.Keys == {k} && !v.forks[k].frozen && v.forks[k].resolvedBy == Some(r1)
    requires Stands(v.trust, "m", "n") && Stands(v.trust, "k2", "o")
    ensures Reached(w, Keys(e.id), {Founding()}) && TwiceFrozen(w, e, r1, r2)
  {
    w := SecondRival(v, e, again);
    SceneStays(v, w, e, r1, r2);
    NowTwice(v, w, e, r1, r2, k, again);
  }

  lemma OnceOnly(forks: Forks)
    requires forks.Keys == {Once()} && !forks[Once()].frozen
    ensures Again() !in forks && FrozenOrigins(forks) == {}
  {
    RivalsDiffer();
    NoneFrozen(forks, Once());
  }

  lemma RefrozenOnce(e: Event) returns (w: World, r1: string, r2: string)
    requires IsFirst(e)
    ensures Reached(w, Keys(e.id), {Founding()}) && TwiceFrozen(w, e, r1, r2)
  {
    var v: World;
    v, r1, r2 := ResolvedOnce(e);
    OnceOnly(v.forks);
    w := FrozenAgain(v, e, r1, r2, Once(), Again());
  }

  // A refused resolution that leaves a revocation behind: the second receipt is good, but
  // the point already has a row resolved under the first.
  lemma RefusalStrikes()
    returns (ws: seq<World>, ops: seq<Op>, k: ForkKey, chosen: string, receiptId: string, keys: A.Keyring, w': World)
    ensures Run(ws, ops) && Moves(ws[|ops|], Attempt(k, chosen, receiptId, keys, Some(G.ForkAlreadyResolved)), w')
    ensures w'.forks == ws[|ops|].forks && w'.trust != ws[|ops|].trust
  {
    var e := First();
    var w, r1, r2 := RefrozenOnce(e);
    ReachLog(w, Keys(e.id), {Founding()});
    ReceiptAuthorizes(w.log, e.id, "2", r2, w.trust);
    TraceOf(w, e, r1, r2);
    w' := Strike(w, Again(), e.id, r2, Keys(e.id));
    ws, ops :| Stage(ws, ops, Keys(e.id), {Founding()}) && ws[|ops|] == w;
    k, chosen, receiptId, keys := Again(), e.id, r2, Keys(e.id);
  }

  lemma TraceOf(w: World, e: Event, r1: string, r2: string)
    requires TwiceFrozen(w, e, r1, r2)
    ensures G.LeavesTrace(w.forks, "o", 1, e.id, r2, w.trust)
  {
    var rows := G.PointRows(w.forks, "o", 1);
    assert Again() in rows && Once() in rows;
  }

  lemma SuccessorLapses(log: Log, f: Configuration, s: Configuration, r: Receipt, receiptId: string, keys: A.Keyring)
    requires Configured(log, {f, s}) && G.HoldsReceipt(log, receiptId, r) && r.configurationDigest == f.digest
    requires s.digest != f.digest && s.prior == Some(f.digest) && A.FacialSuccessor(s, f, keys)
    ensures G.ReceiptLapsed(log, receiptId, keys)
  {
    var store := map[f.digest := f, s.digest := s];
    assert G.HoldsConfiguration(log, f) && G.HoldsConfiguration(log, s);
    assert G.Loaded(log, store);
    assert s.digest in A.SuccessorsOf(store, f, keys);
    assert G.Succeeded(store, r, keys);
    G.SupersededIsLapsed(log, receiptId, keys);
  }

  lemma Succession(w: World, e: Event, receiptId: string) returns (v: World)
    requires Reached(w, Keys(e.id), {Founding()}) && G.HoldsReceipt(w.log, receiptId, ReceiptFor(e.id, "1"))
    ensures Moves(w, EmitOf("n", AuthorityConfiguration(Succeeding())), v) && v.forks == w.forks
    ensures Configured(v.log, {Founding(), Succeeding()}) && G.ReceiptLapsed(v.log, receiptId, Keys(e.id))
  {
    ReachLog(w, Keys(e.id), {Founding()});
    v := Succeeded(w, receiptId, ReceiptFor(e.id, "1"), Founding(), Succeeding());
    SucceedingStands(e.id);
    SuccessorLapses(v.log, Founding(), Succeeding(), ReceiptFor(e.id, "1"), receiptId, Keys(e.id));
  }

  lemma Succeeded(w: World, receiptId: string, r: Receipt, f: Configuration, s: Configuration) returns (v: World)
    requires LogInv(w.log) && Configured(w.log, {f}) && G.HoldsReceipt(w.log, receiptId, r)
    ensures Moves(w, EmitOf("n", AuthorityConfiguration(s)), v) && v.forks == w.forks
    ensures Configured(v.log, {f, s}) && G.HoldsReceipt(v.log, receiptId, r)
  {
    var c;
    v, c := EmitMove(w, "n", AuthorityConfiguration(s));
    AfterSuccession(w.log, v.log, Pos("n", Head(w.log, "n") + 1), c, f, s, r, receiptId);
  }

  lemma AfterSuccession(log: Log, log': Log, at: Pos, c: Event, f: Configuration, s: Configuration, r: Receipt,
                        receiptId: string)
    requires at !in log && log' == log[at := c] && c.payload == Some(AuthorityConfiguration(s))
    requires Configured(log, {f}) && G.HoldsReceipt(log, receiptId, r)
    ensures Configured(log', {f, s}) && G.HoldsReceipt(log', receiptId, r)
  {
    ConfiguredMore(log, {f}, at, c);
    assert {f} + {s} == {f, s};
    StillHolds(log, at, c, receiptId, r);
  }

  lemma BothApart(chosen: string)
    ensures Apart({Founding(), Succeeding()})
  {
    SucceedingStands(chosen);
  }

  // Releasable while its receipt is good.
  lemma GoodFirst(w: World, e: Event, r1: string, r2: string)
    requires Reached(w, Keys(e.id), {Founding()}) && TwiceFrozen(w, e, r1, r2)
    ensures ThawsNow(w, Again(), Keys(e.id)) && Refrozen(w.forks, Once(), Again(), r1)
  {
    ReachInv(w, Keys(e.id), {Founding()});
    ReceiptAuthorizes(w.log, e.id, "1", r1, w.trust);
    ReleasableNow(w, Once(), Again(), r1, Keys(e.id));
  }

  lemma Traps(w: World, v: World, op: Op, k: ForkKey, again: ForkKey, receiptId: string, keys: A.Keyring,
              cs: set<Configuration>, cs': set<Configuration>)
    returns (ws: seq<World>, ops: seq<Op>, i: nat)
    requires Reached(w, keys, cs) && ThawsNow(w, again, keys) && Refrozen(w.forks, k, again, receiptId)
    requires Moves(w, op, v) && !op.Resolve? && v.forks == w.forks && Configured(v.log, cs') && Apart(cs')
    requires G.ReceiptLapsed(v.log, receiptId, keys) || G.ReceiptUnmanned(v.log, v.trust, receiptId)
    ensures Run(ws, ops) && i + 1 == |ops| && UniqueAlong(ws, keys, ops)
    ensures Trapped(ws, i, k, again, receiptId) && ThawsNow(ws[i], again, keys)
    ensures Trapped(ws, i + 1, k, again, receiptId) && Dead(ws, ops, i + 1, receiptId, keys)
  {
    ws, ops, i := OneMore(w, v, op, keys, cs, cs');
    DeadNow(ws, ops, receiptId, keys);
  }

  lemma OneMore(w: World, v: World, op: Op, keys: A.Keyring, cs: set<Configuration>, cs': set<Configuration>)
    returns (ws: seq<World>, ops: seq<Op>, i: nat)
    requires Reached(w, keys, cs) && Moves(w, op, v) && !op.Resolve? && Configured(v.log, cs') && Apart(cs')
    ensures Run(ws, ops) && i + 1 == |ops| && UniqueAlong(ws, keys, ops) && ws[i] == w && ws[i + 1] == v
  {
    var vs, before :| Stage(vs, before, keys, cs) && vs[|before|] == w;
    StageMore(vs, before, keys, cs, op, v, cs');
    ws, ops, i := vs + [v], before + [op], |before|;
  }

  // A run in which a refrozen point can be released, and one step later, its receipt's
  // configuration succeeded, never can again.
  lemma SuccessionTraps() returns (ws: seq<World>, ops: seq<Op>, i: nat, receiptId: string, keys: A.Keyring)
    ensures Run(ws, ops) && i + 1 == |ops| && UniqueAlong(ws, keys, ops)
    ensures Trapped(ws, i, Once(), Again(), receiptId) && ThawsNow(ws[i], Again(), keys)
    ensures Trapped(ws, i + 1, Once(), Again(), receiptId) && Dead(ws, ops, i + 1, receiptId, keys)
  {
    var e := First();
    var w, r1, r2 := RefrozenOnce(e);
    keys, receiptId := Keys(e.id), r1;
    var v := Succession(w, e, r1);
    BothApart(e.id);
    GoodFirst(w, e, r1, r2);
    ws, ops, i := Traps(w, v, EmitOf("n", AuthorityConfiguration(Succeeding())), Once(), Again(), r1, keys,
                        {Founding()}, {Founding(), Succeeding()});
  }

  lemma DeadNow(ws: seq<World>, ops: seq<Op>, receiptId: string, keys: A.Keyring)
    requires |ws| == |ops| + 1 && UniqueAlong(ws, keys, ops)
    requires G.ReceiptLapsed(ws[|ops|].log, receiptId, keys) || G.ReceiptUnmanned(ws[|ops|].log, ws[|ops|].trust,
                             receiptId)
    ensures Dead(ws, ops, |ops|, receiptId, keys)
  {
  }

  // The same, when the one member of that configuration is revoked instead.
  lemma RevocationTraps() returns (ws: seq<World>, ops: seq<Op>, i: nat, receiptId: string, keys: A.Keyring)
    ensures Run(ws, ops) && i + 1 == |ops| && UniqueAlong(ws, keys, ops)
    ensures Trapped(ws, i, Once(), Again(), receiptId) && ThawsNow(ws[i], Again(), keys)
    ensures Trapped(ws, i + 1, Once(), Again(), receiptId) && Dead(ws, ops, i + 1, receiptId, keys)
  {
    var e := First();
    var w, r1, r2 := RefrozenOnce(e);
    keys, receiptId := Keys(e.id), r1;
    var v := w.(trust := T.After(w.trust, T.Revoke("m", None)));
    ReachConfigured(w, keys, {Founding()});
    Quorumless(w, v, e, r1);
    GoodFirst(w, e, r1, r2);
    ws, ops, i := Traps(w, v, Administer(T.Revoke("m", None)), Once(), Again(), r1, keys, {Founding()}, {Founding()});
  }

  lemma ReachConfigured(w: World, keys: A.Keyring, cs: set<Configuration>)
    requires Reached(w, keys, cs)
    ensures Configured(w.log, cs)
  {
  }

  lemma Quorumless(w: World, v: World, e: Event, receiptId: string)
    requires Configured(w.log, {Founding()}) && G.HoldsReceipt(w.log, receiptId, ReceiptFor(e.id, "1"))
    requires "m" in w.trust.keys
    requires v == w.(trust := T.After(w.trust, T.Revoke("m", None)))
    ensures G.ReceiptUnmanned(v.log, v.trust, receiptId)
  {
    assert T.StandingAt(v.trust, "m", None) == T.Revoked;
    assert A.Unrevoked(Founding().members, v.trust) == {};
    assert G.HoldsConfiguration(v.log, Founding());
    assert G.Unmanned(ReceiptFor(e.id, "1"), Founding(), v.trust);
  }

  // ---- a freeze that is not durable ----

  // The resolved rival again, under a key that still stands: the origin is frozen for the
  // rest of the batch, and the store is as it was.
  lemma OldRivalFreezesOnlyTheBatch() returns (ws: seq<World>, ops: seq<Op>, r: Receiver, rival: Event)
    ensures Run(ws, ops) && r.trust == ws[|ops|].trust
    ensures var w := ws[|ops|]; var s := Opening(w.log, w.forks, w.history);
      && Moves(w, Deliver(r, [rival]), w) && rival.origin !in FrozenOrigins(w.forks)
      && rival.origin in AdmitAll(s, r, [rival]).frozen
  {
    var e := First();
    var w, r1, r2 := ResolvedOnce(e);
    r, rival := Judging(w, Keys(e.id)), RivalEvent("b", "k2");
    SecondVoice(w, e, r);
    NoneFrozen(w.forks, Once());
    ReachInv(w, Keys(e.id), {Founding()});
    MetAgain(w, r, rival);
    ws, ops :| Stage(ws, ops, Keys(e.id), {Founding()}) && ws[|ops|] == w;
  }

  lemma SecondVoice(w: World, e: Event, r: Receiver)
    requires Pos("o", 1) in w.log && w.log[Pos("o", 1)] == e && IsFirst(e) && Stands(r.trust, "k2", "o")
    requires r.keys == Keys(e.id)
    ensures var rival := RivalEvent("b", "k2");
      && Rival(w.log, r, rival) && rival.origin == "o" && ForkKey(rival.origin, rival.seqNo, rival.selfHash) == Once()
  {
    IsRival(w.log, r, e, "b", "k2");
  }

  lemma MetAgain(w: World, r: Receiver, e: Event)
    requires Inv(w) && r.trust == w.trust && Rival(w.log, r, e) && e.origin !in FrozenOrigins(w.forks)
    requires ForkKey(e.origin, e.seqNo, e.selfHash) in w.forks
    ensures Moves(w, Deliver(r, [e]), w) && e.origin in AdmitAll(Opening(w.log, w.forks, w.history), r, [e]).frozen
  {
    var s := Opening(w.log, w.forks, w.history);
    FreezeVerdict(s, r, e);
    FreezeAddsRow(s, r, e);
    assert [e][..0] == [];
    assert AdmitAll(s, r, [e]) == Perform(s, r, e, Judge(s, r, e));
  }

  // ---- a lineage without a head ----

  lemma HeadIs(l: G.Lineage, d: string)
    requires G.Heads(l) == {d}
    ensures G.CurrentPolicy(l) == G.Ok(Some(d))
  {
    G.OneElement(G.Heads(l));
  }

  lemma ReturningPolicyLeavesNoHead(a: string, b: string, receiptId: string)
    requires a != b
    ensures var one := G.Established(map[], a, receiptId, None);
      var two := G.Established(one, b, receiptId, Some(G.BundleDigest(a)));
      && G.CurrentPolicy(one) == G.Ok(Some(G.BundleDigest(a))) && G.CurrentPolicy(two) == G.Ok(Some(G.BundleDigest(b)))
      && G.Heads(G.Established(two, a, receiptId, Some(G.BundleDigest(b)))) == {}
  {
    if G.BundleDigest(a) == G.BundleDigest(b) { DigestInjective(Str(a), Str(b)); }
    var none: G.Lineage := map[];
    assert G.Heads(none) == {};
    var one := G.Established(none, a, receiptId, None);
    G.EstablishKeepsOneHead(none, a, receiptId, None);
    HeadIs(one, G.BundleDigest(a));
    G.EstablishKeepsOneHead(one, b, receiptId, Some(G.BundleDigest(a)));
    HeadIs(G.Established(one, b, receiptId, Some(G.BundleDigest(a))), G.BundleDigest(b));
    G.EstablishKeepsOneHead(G.Established(one, b, receiptId, Some(G.BundleDigest(a))), a, receiptId,
                            Some(G.BundleDigest(b)));
  }

  // ---- an ancestor's smaller quorum ----

  const PAIR: seq<string> := ["m", "n"]

  function Signatures(signers: seq<string>): seq<Option<string>> { seq(|signers|, i => Some("s")) }

  function Named(epoch: int, quorum: int, prior: Option<string>, signers: seq<string>): Configuration {
    var c := Configuration("key", "", epoch, PAIR, quorum, prior, Signed(signers, Signatures(signers)));
    c.(digest := A.Coordinate(c))
  }

  lemma Signs(c: Configuration, keys: A.Keyring, signers: seq<string>, all: set<string>)
    requires c.proof == Signed(signers, Signatures(signers)) && forall m :: m in all ==> m in signers
    requires forall m :: m in all ==> Vouched(c.digest, m) in keys
    ensures A.Carries(c.proof, c.digest, keys, all)
  {
    forall m | m in all ensures A.ListedWith(c.proof, c.digest, keys, m) {
      var i :| 0 <= i < |signers| && signers[i] == m;
      assert c.proof.signatures[i] == Some("s");
    }
  }

  // Signatures of fewer than a quorum of the head's members do move the head when an
  // ancestor asked for fewer: one member's rival to the head itself blocks the line.
  lemma AncestorsQuorumMovesHead()
    returns (store: A.Store, key: string, d: string, c: Configuration, keys: A.Keyring)
    ensures A.Indexed(store) && A.IsCurrent(store, key, d, keys) && d in store && c.digest !in store
    ensures |A.Attesting(store[d].members, c.digest, keys)| < store[d].quorum
    ensures forall x :: !A.IsCurrent(A.Added(store, c), key, x, keys)
  {
    var g, h;
    g, h, c, keys := Trio();
    store, key, d := map[g.digest := g, h.digest := h], "key", h.digest;
    PairIsCurrent(g, h, keys, store);
    OneOfTwo(c, keys);
    RivalTakesAll(g, h, c, keys, store);
  }

  // A genesis of quorum one, the head under it of quorum two, and the rival one member signed.
  lemma Trio() returns (g: Configuration, h: Configuration, c: Configuration, keys: A.Keyring)
    ensures Apart3(g.digest, h.digest, c.digest) && Family(g, h, c)
    ensures forall s :: A.Attestation(c.digest, s, "n", "ed25519") !in keys
    ensures A.FacialGenesis(g, keys) && A.FacialSuccessor(h, g, keys) && A.FacialSuccessor(c, g, keys)
  {
    g := Named(0, 1, None, PAIR);
    h := Named(1, 2, Some(g.digest), PAIR);
    c := Named(1, 1, Some(g.digest), ["m"]);
    keys := Standing(g, h, c);
  }

  predicate Apart3(a: string, b: string, c: string) { a != b && a != c && b != c }

  predicate Family(g: Configuration, h: Configuration, c: Configuration) {
    && g.authorityKey == "key" && g.prior == None && h.prior == Some(g.digest) && c.prior == Some(g.digest)
    && h.members == PAIR && h.quorum == 2
  }

  lemma Standing(g: Configuration, h: Configuration, c: Configuration) returns (keys: A.Keyring)
    requires g == Named(0, 1, None, PAIR) && h == Named(1, 2, Some(g.digest), PAIR)
    requires c == Named(1, 1, Some(g.digest), ["m"])
    ensures Apart3(g.digest, h.digest, c.digest) && Family(g, h, c)
    ensures forall s :: A.Attestation(c.digest, s, "n", "ed25519") !in keys
    ensures A.FacialGenesis(g, keys) && A.FacialSuccessor(h, g, keys) && A.FacialSuccessor(c, g, keys)
  {
    Coordinates(g, h, c);
    keys := Voices(g.digest, h.digest, c.digest);
    VoicesSpeak(g.digest, h.digest, c.digest);
    PairStands(g, h, c, keys);
  }

  lemma VoicesSpeak(g: string, h: string, c: string)
    requires Apart3(g, h, c)
    ensures forall m :: m in PAIR ==> Vouched(g, m) in Voices(g, h, c) && Vouched(h, m) in Voices(g, h, c)
    ensures Vouched(c, "m") in Voices(g, h, c) && forall s :: A.Attestation(c, s, "n", "ed25519") !in Voices(g, h, c)
  {
    assert forall m :: m in PAIR ==> m == PAIR[0] || m == PAIR[1];
  }

  function Voices(g: string, h: string, c: string): A.Keyring {
    {Vouched(g, "m"), Vouched(g, "n"), Vouched(h, "m"), Vouched(h, "n"), Vouched(c, "m")}
  }

  lemma Coordinates(g: Configuration, h: Configuration, c: Configuration)
    requires g == Named(0, 1, None, PAIR) && h == Named(1, 2, Some(g.digest), PAIR)
    requires c == Named(1, 1, Some(g.digest), ["m"])
    ensures A.Coordinate(g) == g.digest && A.Coordinate(h) == h.digest && A.Coordinate(c) == c.digest
    ensures g.digest != h.digest && g.digest != c.digest && h.digest != c.digest
  {
    if g.digest == h.digest { A.CoordinateBinds(g, h); }
    if g.digest == c.digest { A.CoordinateBinds(g, c); }
    if h.digest == c.digest { A.CoordinateBinds(h, c); }
  }

  lemma PairStands(g: Configuration, h: Configuration, c: Configuration, keys: A.Keyring)
    requires g == Named(0, 1, None, PAIR) && h == Named(1, 2, Some(g.digest), PAIR)
    requires c == Named(1, 1, Some(g.digest), ["m"])
    requires A.Coordinate(g) == g.digest && A.Coordinate(h) == h.digest && A.Coordinate(c) == c.digest
    requires forall m :: m in PAIR ==> Vouched(g.digest, m) in keys && Vouched(h.digest, m) in keys
    requires Vouched(c.digest, "m") in keys
    ensures A.FacialGenesis(g, keys) && A.FacialSuccessor(h, g, keys) && A.FacialSuccessor(c, g, keys)
  {
    var both := set m | m in PAIR;
    assert PAIR[0] == "m" && PAIR[1] == "n" && both == {"m", "n"};
    Signs(g, keys, PAIR, both);
    A.GenesisExactly(g, keys);
    Signs(h, keys, PAIR, both);
    A.SuccessionExactly(h, g, keys);
    assert (set m | m in ["m"]) == {"m"};
    Signs(c, keys, ["m"], {"m"});
    A.SuccessionExactly(c, g, keys);
  }

  lemma PairIsCurrent(g: Configuration, h: Configuration, keys: A.Keyring, store: A.Store)
    requires g.digest != h.digest && store == map[g.digest := g, h.digest := h]
    requires g.authorityKey == "key" && g.prior == None && h.prior == Some(g.digest)
    requires A.FacialGenesis(g, keys) && A.FacialSuccessor(h, g, keys)
    ensures A.IsCurrent(store, "key", h.digest, keys)
  {
    assert A.GenesisOf(store, "key", keys) == {g.digest};
    assert A.SuccessorsOf(store, g, keys) == {h.digest};
    assert A.SuccessorsOf(store, h, keys) == {};
    assert A.CompleteLine(store, "key", [g.digest, h.digest], keys);
  }

  lemma OneOfTwo(c: Configuration, keys: A.Keyring)
    requires forall s :: A.Attestation(c.digest, s, "n", "ed25519") !in keys
    ensures |A.Attesting(PAIR, c.digest, keys)| < 2
  {
    forall m | m in A.Attesting(PAIR, c.digest, keys) ensures m == "m" {
      assert m in PAIR;
    }
    SubsetSize(A.Attesting(PAIR, c.digest, keys), {"m"});
  }

  lemma RivalTakesAll(g: Configuration, h: Configuration, c: Configuration, keys: A.Keyring, store: A.Store)
    requires g.digest != h.digest && g.digest != c.digest && h.digest != c.digest
    requires store == map[g.digest := g, h.digest := h] && g.authorityKey == "key" && g.prior == None
    requires h.prior == Some(g.digest) && c.prior == Some(g.digest)
    requires A.FacialGenesis(g, keys) && A.FacialSuccessor(h, g, keys) && A.FacialSuccessor(c, g, keys)
    ensures forall x :: !A.IsCurrent(A.Added(store, c), "key", x, keys)
  {
    var after := A.Added(store, c);
    assert A.GenesisOf(after, "key", keys) == {g.digest};
    assert {h.digest, c.digest} <= A.SuccessorsOf(after, g, keys);
    A.TwoAtLeast(A.SuccessorsOf(after, g, keys), h.digest, c.digest);
    A.BlockedLine(after, "key", [g.digest], keys);
  }
}
