// The two operations that exercise authority (kawa/storage/authority_gate.py): releasing a
// frozen fork point and moving the policy lineage, both only through a VALID receipt.

module Gate {
  import opened Prelude
  import opened Canonical
  import opened Vocabulary
  import opened Replication
  import opened Freezing
  import A = Authority
  import T = Trust

  const FORK_RESOLUTION_KEY := "authority:fork-resolution"
  const POLICY_KEY := "authority:policy"

  datatype Refusal =
    | NoForkEvidence | ReceiptIncomplete | ReceiptWrongKey | PolicySuperseded | ReceiptOperationMismatch
    | ReceiptRefused(standing: A.Standing) | ForkAlreadyResolved | RivalAdoptionDeferred | PolicyLineageConflict

  datatype Result<T> = Ok(value: T) | Err(why: Refusal)

  // ---- operation digests: machine-stable bytes only ----

  function ForkOperationJson(origin: string, seqNo: int, chosen: string, configuration: string,
                             policy: Option<string>): Json {
    Cons(Str("fork.resolve"),
         Cons(Str(origin), Cons(Number(seqNo), Cons(Str(chosen), Cons(Str(configuration), OptionJson(policy))))))
  }

  function ForkOperation(origin: string, seqNo: int, chosen: string, configuration: string,
                         policy: Option<string>): string {
    Digest(ForkOperationJson(origin, seqNo, chosen, configuration, policy))
  }

  function PolicyOperationJson(policy: string, prior: Option<string>, configuration: string): Json {
    Cons(Str(if prior == None then "policy.establish" else "policy.supersede"),
         Cons(Str(policy), Cons(OptionJson(prior), Str(configuration))))
  }

  function PolicyOperation(policy: string, prior: Option<string>, configuration: string): string {
    Digest(PolicyOperationJson(policy, prior, configuration))
  }

  // A receipt authorizes one operation: the digest it names binds every operand.
  lemma ForkOperationBinds(o: string, n: int, c: string, cfg: string, p: Option<string>,
                           o': string, n': int, c': string, cfg': string, p': Option<string>)
    requires ForkOperation(o, n, c, cfg, p) == ForkOperation(o', n', c', cfg', p')
    ensures o == o' && n == n' && c == c' && cfg == cfg' && p == p'
  {
    DigestInjective(ForkOperationJson(o, n, c, cfg, p), ForkOperationJson(o', n', c', cfg', p'));
  }

  lemma PolicyOperationBinds(d: string, p: Option<string>, cfg: string, d': string, p': Option<string>, cfg': string)
    requires PolicyOperation(d, p, cfg) == PolicyOperation(d', p', cfg')
    ensures d == d' && p == p' && cfg == cfg'
  {
    DigestInjective(PolicyOperationJson(d, p, cfg), PolicyOperationJson(d', p', cfg'));
  }

  // ---- what the log holds ----

  ghost predicate HoldsReceipt(log: Log, id: string, r: Receipt) {
    exists p :: p in log && log[p].id == id && log[p].payload == Some(AuthorityReceipt(r))
  }

  ghost predicate HoldsConfiguration(log: Log, c: Configuration) {
    exists p :: p in log && log[p].payload == Some(AuthorityConfiguration(c))
  }

  // The proof store is the materialized configurations, keyed by digest; where two carry
  // one digest, either may be the one kept.
  ghost predicate Loaded(log: Log, store: A.Store) {
    && (forall d :: d in store ==> store[d].digest == d && HoldsConfiguration(log, store[d]))
    && (forall c :: HoldsConfiguration(log, c) ==> c.digest in store)
  }

  ghost predicate UniqueDigests(log: Log) {
    forall a, b :: HoldsConfiguration(log, a) && HoldsConfiguration(log, b) && a.digest == b.digest ==> a == b
  }

  method LoadProofStore(log: Log) returns (store: A.Store)
    ensures Loaded(log, store) && A.Indexed(store)
  {
    store := map[];
    var todo := log.Keys;
    while todo != {}
      invariant todo <= log.Keys
      invariant forall d :: d in store ==> store[d].digest == d && HoldsConfiguration(log, store[d])
      invariant forall p :: p in log && p !in todo && IsConfiguration(log[p]) ==>
                log[p].payload.value.configuration.digest in store
    {
      var p :| p in todo;
      todo := todo - {p};
      if IsConfiguration(log[p]) {
        var c := log[p].payload.value.configuration;
        assert HoldsConfiguration(log, c);
        store := store[c.digest := c];
      }
    }
    forall c | HoldsConfiguration(log, c) ensures c.digest in store {
      var p :| p in log && log[p].payload == Some(AuthorityConfiguration(c));
      assert IsConfiguration(log[p]);
    }
  }

  predicate IsConfiguration(e: Event) { e.payload.Some? && e.payload.value.AuthorityConfiguration? }

  predicate IsReceipt(e: Event, id: string) { e.id == id && e.payload.Some? && e.payload.value.AuthorityReceipt? }

  method LoadReceipt(log: Log, id: string) returns (r: Option<Receipt>)
    ensures r.Some? ==> HoldsReceipt(log, id, r.value)
    ensures r.None? ==> forall q :: !HoldsReceipt(log, id, q)
  {
    if p :| p in log && IsReceipt(log[p], id) {
      r := Some(log[p].payload.value.receipt);
    } else {
      r := None;
      assert forall p :: p in log ==> !IsReceipt(log[p], id);
    }
  }

  // ---- the policy lineage ----

  datatype Entry = Entry(bundle: string, receiptId: string, prior: Option<string>, supersededBy: Option<string>)
  type Lineage = map<string, Entry>

  function Heads(l: Lineage): set<string> { set d | d in l && l[d].supersededBy == None }

  function CurrentPolicy(l: Lineage): Result<Option<string>> {
    var heads := Heads(l);
    if |heads| > 1 then Err(PolicyLineageConflict)
    else if heads == {} then Ok(None)
    else
      assert forall x, y :: x in heads && y in heads ==> x == y by { OneElement(heads); }
      var d :| d in heads;
      Ok(Some(d))
  }

  lemma OneElement(s: set<string>)
    requires |s| <= 1
    ensures forall x, y :: x in s && y in s ==> x == y
  {
    forall x, y | x in s && y in s ensures x == y {
      A.SingletonOf(s, x);
    }
  }

  function BundleDigest(bundle: string): string { Digest(Str(bundle)) }

  function Superseded(l: Lineage, prior: Option<string>, successor: string): Lineage {
    if prior.Some? && prior.value in l then l[prior.value := l[prior.value].(supersededBy := Some(successor))] else l
  }

  function Established(l: Lineage, bundle: string, receiptId: string, prior: Option<string>): Lineage {
    var d := BundleDigest(bundle);
    var retired := Superseded(l, prior, d);
    if d in retired then retired else retired[d := Entry(bundle, receiptId, prior, None)]
  }

  // At most one head always; and one head afterwards exactly when the bundle was never
  // in the lineage, for a bundle established once is not established again.
  lemma EstablishKeepsOneHead(l: Lineage, bundle: string, receiptId: string, prior: Option<string>)
    requires CurrentPolicy(l) == Ok(prior) && prior != Some(BundleDigest(bundle))
    ensures Heads(Established(l, bundle, receiptId, prior)) ==
            if BundleDigest(bundle) in l then {} else {BundleDigest(bundle)}
  {
    var d, l' := BundleDigest(bundle), Established(l, bundle, receiptId, prior);
    OneElement(Heads(l));
    forall x | x in l && x != d ensures x in l' && l'[x].supersededBy != None {
      if l[x].supersededBy == None { assert x in Heads(l); }
    }
    if d in l { assert d !in Heads(l) || prior == Some(d); }
  }

  lemma CurrentIsHeld(l: Lineage)
    ensures CurrentPolicy(l).Ok? && CurrentPolicy(l).value.Some? ==> CurrentPolicy(l).value.value in l
  {
    OneElement(if |Heads(l)| <= 1 then Heads(l) else {});
  }

  // A superseded policy never heads the lineage again, nor does its forward pointer move.
  lemma SupersededStays(l: Lineage, bundle: string, receiptId: string, prior: Option<string>, d: string)
    requires CurrentPolicy(l) == Ok(prior) && d in l && l[d].supersededBy.Some?
    ensures var l' := Established(l, bundle, receiptId, prior); d in l' && l'[d] == l[d]
  {
    assert prior.Some? ==> prior.value in Heads(l);
  }

  // ---- the shared gate ----

  ghost function Exercise(store: A.Store, lineage: Lineage, r: Receipt, key: string, operation: string,
                          keys: A.Keyring, trust: T.Registry): Option<Refusal> {
    if r.authorityKey != key then Some(ReceiptWrongKey)
    else match CurrentPolicy(lineage)
      case Err(why) => Some(why)
      case Ok(policy) =>
        if r.policyDigest != policy then Some(PolicySuperseded)
        else if r.operationDigest != operation then Some(ReceiptOperationMismatch)
        else
          var standing := A.ReceiptStanding(store, r, keys, Some(trust));
          if standing != A.VALID then Some(ReceiptRefused(standing)) else None
  }

  method ExerciseGate(log: Log, lineage: Lineage, r: Receipt, key: string, operation: string, keys: A.Keyring,
                      trust: T.Registry)
    returns (refusal: Option<Refusal>, store: A.Store)
    ensures Loaded(log, store) && refusal == Exercise(store, lineage, r, key, operation, keys, trust)
  {
    store := LoadProofStore(log);
    if r.authorityKey != key {
      return Some(ReceiptWrongKey), store;
    }
    var current := CurrentPolicy(lineage);
    if current.Err? {
      return Some(current.why), store;
    }
    if r.policyDigest != current.value {
      return Some(PolicySuperseded), store;
    }
    if r.operationDigest != operation {
      return Some(ReceiptOperationMismatch), store;
    }
    var standing := A.VerifyReceipt(store, r, keys, Some(trust));
    refusal := if standing == A.VALID then None else Some(ReceiptRefused(standing));
  }

  // ---- fork resolution ----

  function PointRows(forks: Forks, origin: string, seqNo: int): set<ForkKey> {
    set k | k in forks && k.origin == origin && k.seqNo == seqNo
  }

  predicate RowAgrees(row: Fork, chosen: string, receiptId: string) {
    if row.frozen then chosen == row.heldId
    else row.chosenHead == Some(chosen) && row.resolvedBy == Some(receiptId)
  }

  function Resolved(forks: Forks, origin: string, seqNo: int, chosen: string, receiptId: string): Forks {
    map k | k in forks :: if k in PointRows(forks, origin, seqNo) && forks[k].frozen
                          then forks[k].(frozen := false, resolvedBy := Some(receiptId), chosenHead := Some(chosen))
                          else forks[k]
  }

  function RivalKeys(forks: Forks, rows: set<ForkKey>): set<string> {
    set k | k in rows && k in forks && forks[k].frozen && forks[k].rivalKey.Some? :: forks[k].rivalKey.value
  }

  // Every named key revoked from the fork point on, in whatever order.
  function RevokedAll(r: T.Registry, ks: set<string>, fromSeq: int): T.Registry {
    r.(keys := map k | k in r.keys :: if k in ks then T.Revoking(r.keys[k], Some(fromSeq)) else r.keys[k])
  }

  lemma RevokedMore(r: T.Registry, ks: set<string>, k: string, fromSeq: int)
    ensures T.After(RevokedAll(r, ks, fromSeq), T.Revoke(k, Some(fromSeq))) == RevokedAll(r, ks + {k}, fromSeq)
    ensures RevokedAll(r, {}, fromSeq) == r
  {
    var a, b := T.After(RevokedAll(r, ks, fromSeq), T.Revoke(k, Some(fromSeq))), RevokedAll(r, ks + {k}, fromSeq);
    assert a.keys.Keys == b.keys.Keys;
    assert forall x :: x in a.keys ==> a.keys[x] == b.keys[x];
  }

  // ---- the walk over the rows of a point ----

  predicate InForks(order: seq<ForkKey>, forks: Forks) { forall i :: 0 <= i < |order| ==> order[i] in forks }

  ghost predicate Enumerates(order: seq<ForkKey>, rows: set<ForkKey>) {
    Distinct(order) && (forall i :: 0 <= i < |order| ==> order[i] in rows) && forall k :: k in rows ==> k in order
  }

  datatype Walked = Walked(refusal: Option<Refusal>, trust: T.Registry)

  function WhyNot(row: Fork): Refusal { if row.frozen then RivalAdoptionDeferred else ForkAlreadyResolved }

  // The registry once a row has been walked over: a frozen row's rival key is revoked.
  function Struck(row: Fork, seqNo: int, trust: T.Registry): T.Registry {
    if row.frozen && row.rivalKey.Some? then T.After(trust, T.Revoke(row.rivalKey.value, Some(seqNo))) else trust
  }

  // The rows in the order they happen to come: the first that disagrees stops the walk.
  function Walk(forks: Forks, order: seq<ForkKey>, chosen: string, receiptId: string, seqNo: int,
                trust: T.Registry): Walked
    requires InForks(order, forks)
  {
    if order == [] then Walked(None, trust)
    else
      var row := forks[order[0]];
      if RowAgrees(row, chosen, receiptId)
        then Walk(forks, order[1..], chosen, receiptId, seqNo, Struck(row, seqNo, trust))
      else Walked(Some(WhyNot(row)), trust)
  }

  lemma {:induction false} WalkAppends(forks: Forks, a: seq<ForkKey>, b: seq<ForkKey>, chosen: string,
                                       receiptId: string, seqNo: int, trust: T.Registry)
    requires InForks(a, forks) && InForks(b, forks) && Walk(forks, a, chosen, receiptId, seqNo, trust).refusal == None
    ensures InForks(a + b, forks)
    ensures Walk(forks, a + b, chosen, receiptId, seqNo, trust) ==
            Walk(forks, b, chosen, receiptId, seqNo, Walk(forks, a, chosen, receiptId, seqNo, trust).trust)
  {
    if a == [] {
      assert a + b == b;
    } else {
      assert (a + b)[1..] == a[1..] + b;
      WalkAppends(forks, a[1..], b, chosen, receiptId, seqNo, Struck(forks[a[0]], seqNo, trust));
    }
  }

  predicate AllAgree(forks: Forks, order: seq<ForkKey>, chosen: string, receiptId: string)
    requires InForks(order, forks)
  {
    forall i :: 0 <= i < |order| ==> RowAgrees(forks[order[i]], chosen, receiptId)
  }

  lemma RivalsOneMore(forks: Forks, done: set<ForkKey>, k: ForkKey)
    requires k in forks
    ensures RivalKeys(forks, done + {k}) ==
            RivalKeys(forks, done) + if forks[k].frozen && forks[k].rivalKey.Some? then {forks[k].rivalKey.value}
              else {}
  {
  }

  // Walking rows that all agree revokes exactly their rival keys, in whatever order.
  lemma {:induction false} WalkAgreeing(forks: Forks, order: seq<ForkKey>, chosen: string, receiptId: string,
                                        seqNo: int, trust: T.Registry)
    requires InForks(order, forks) && AllAgree(forks, order, chosen, receiptId)
    ensures Walk(forks, order, chosen, receiptId, seqNo, trust) ==
            Walked(None, RevokedAll(trust, RivalKeys(forks, set k | k in order), seqNo))
  {
    var rows := set k | k in order;
    if order == [] {
      assert RivalKeys(forks, rows) == {};
      RevokedMore(trust, {}, "", seqNo);
    } else {
      var init, k := order[..|order| - 1], order[|order| - 1];
      var before := set k | k in init;
      assert order == init + [k] && rows == before + {k};
      WalkAgreeing(forks, init, chosen, receiptId, seqNo, trust);
      WalkAppends(forks, init, [k], chosen, receiptId, seqNo, trust);
      RivalsOneMore(forks, before, k);
      if forks[k].rivalKey.Some? { RevokedMore(trust, RivalKeys(forks, before), forks[k].rivalKey.value, seqNo); }
    }
  }

  // Where a walk stops: after some agreeing rows, at one that disagrees.
  lemma {:induction false} WalkStops(forks: Forks, order: seq<ForkKey>, chosen: string, receiptId: string, seqNo: int,
                                     trust: T.Registry)
    returns (n: nat)
    requires InForks(order, forks)
    ensures n <= |order| && AllAgree(forks, order[..n], chosen, receiptId)
    ensures n < |order| ==> !RowAgrees(forks[order[n]], chosen, receiptId)
    ensures Walk(forks, order, chosen, receiptId, seqNo, trust) ==
            Walked(if n < |order| then Some(WhyNot(forks[order[n]])) else None,
                   RevokedAll(trust, RivalKeys(forks, set k | k in order[..n]), seqNo))
  {
    n := FirstDisagreement(forks, order, chosen, receiptId);
    WalkAgreeing(forks, order[..n], chosen, receiptId, seqNo, trust);
    WalkAppends(forks, order[..n], order[n..], chosen, receiptId, seqNo, trust);
    assert order == order[..n] + order[n..];
  }

  lemma {:induction false} FirstDisagreement(forks: Forks, order: seq<ForkKey>, chosen: string, receiptId: string)
    returns (n: nat)
    requires InForks(order, forks)
    ensures n <= |order| && AllAgree(forks, order[..n], chosen, receiptId)
    ensures n < |order| ==> !RowAgrees(forks[order[n]], chosen, receiptId)
  {
    if order == [] || !RowAgrees(forks[order[0]], chosen, receiptId) {
      n := 0;
    } else {
      var m := FirstDisagreement(forks, order[1..], chosen, receiptId);
      n := m + 1;
      assert order[..n] == [order[0]] + order[1..][..m];
    }
  }

  lemma {:induction false} SomeOrder(rows: set<ForkKey>) returns (order: seq<ForkKey>)
    ensures Enumerates(order, rows)
  {
    if rows == {} {
      order := [];
    } else {
      var k :| k in rows;
      var rest := SomeOrder(rows - {k});
      order := [k] + rest;
    }
  }

  // What a refused walk may leave: any agreeing rows may have come first.
  lemma WalkReaches(forks: Forks, rows: set<ForkKey>, done: set<ForkKey>, bad: ForkKey, chosen: string,
                    receiptId: string, seqNo: int, trust: T.Registry)
    returns (order: seq<ForkKey>)
    requires rows <= forks.Keys && done <= rows && bad in rows && !RowAgrees(forks[bad], chosen, receiptId)
    requires forall k :: k in done ==> RowAgrees(forks[k], chosen, receiptId)
    ensures Enumerates(order, rows)
    ensures Walk(forks, order, chosen, receiptId, seqNo, trust) ==
            Walked(Some(WhyNot(forks[bad])), RevokedAll(trust, RivalKeys(forks, done), seqNo))
  {
    var first := SomeOrder(done);
    var rest := SomeOrder(rows - done - {bad});
    order := first + ([bad] + rest);
    ConcatDistinct([bad], rest);
    ConcatDistinct(first, [bad] + rest);
    assert (set k | k in first) == done;
    WalkAgreeing(forks, first, chosen, receiptId, seqNo, trust);
    WalkAppends(forks, first, [bad] + rest, chosen, receiptId, seqNo, trust);
  }

  // The loop's two ways on from the rows walked so far: past one more, or stopped by it.
  lemma GoesOn(forks: Forks, rows: set<ForkKey>, order: seq<ForkKey>, todo: set<ForkKey>, k: ForkKey,
               chosen: string, receiptId: string, seqNo: int, trust: T.Registry)
    requires rows <= forks.Keys && todo <= rows && Enumerates(order, rows - todo) && k in todo
    requires Walk(forks, order, chosen, receiptId, seqNo, trust).refusal == None
    requires RowAgrees(forks[k], chosen, receiptId)
    ensures Enumerates(order + [k], rows - (todo - {k})) && InForks(order + [k], forks)
    ensures Walk(forks, order + [k], chosen, receiptId, seqNo, trust) ==
            Walked(None, Struck(forks[k], seqNo, Walk(forks, order, chosen, receiptId, seqNo, trust).trust))
  {
    WalkAppends(forks, order, [k], chosen, receiptId, seqNo, trust);
    ConcatDistinct(order, [k]);
  }

  lemma StopsAt(forks: Forks, rows: set<ForkKey>, order: seq<ForkKey>, todo: set<ForkKey>, k: ForkKey,
                chosen: string, receiptId: string, seqNo: int, trust: T.Registry) returns (whole: seq<ForkKey>)
    requires rows <= forks.Keys && todo <= rows && Enumerates(order, rows - todo) && k in todo
    requires Walk(forks, order, chosen, receiptId, seqNo, trust).refusal == None
    requires !RowAgrees(forks[k], chosen, receiptId)
    ensures Enumerates(whole, rows)
    ensures Walk(forks, whole, chosen, receiptId, seqNo, trust) ==
            Walked(Some(WhyNot(forks[k])), Walk(forks, order, chosen, receiptId, seqNo, trust).trust)
  {
    var rest := SomeOrder(todo - {k});
    whole := order + ([k] + rest);
    ConcatDistinct([k], rest);
    ConcatDistinct(order, [k] + rest);
    WalkAppends(forks, order, [k] + rest, chosen, receiptId, seqNo, trust);
  }

  predicate WalkRefusal(why: Refusal) { why == ForkAlreadyResolved || why == RivalAdoptionDeferred }

  // What an attempt to resolve a fork point may do. A refusal leaves the evidence as it
  // was; only a refusal met on the walk may leave revocations, those of the rows before it.
  ghost predicate ResolveStep(log: Log, forks: Forks, lineage: Lineage, trust: T.Registry,
                              origin: string, seqNo: int, chosen: string, receiptId: string, keys: A.Keyring,
                              refusal: Option<Refusal>, forks': Forks, trust': T.Registry) {
    var rows := PointRows(forks, origin, seqNo);
    match refusal
    case Some(why) =>
      && forks' == forks
      && if WalkRefusal(why) then
           && Authorized(log, lineage, trust, origin, seqNo, chosen, receiptId, keys)
           && exists order ::
                && Enumerates(order, rows)
                && Walk(forks, order, chosen, receiptId, seqNo, trust) == Walked(Some(why), trust')
         else trust' == trust && Refusable(log, forks, lineage, trust, origin, seqNo, chosen, receiptId, keys, why)
    case None =>
      && rows != {} && (forall k :: k in rows ==> RowAgrees(forks[k], chosen, receiptId))
      && Authorized(log, lineage, trust, origin, seqNo, chosen, receiptId, keys)
      && forks' == Resolved(forks, origin, seqNo, chosen, receiptId)
      && trust' == RevokedAll(trust, RivalKeys(forks, rows), seqNo)
  }

  lemma Stopped(log: Log, forks: Forks, lineage: Lineage, trust: T.Registry, origin: string, seqNo: int, chosen: string,
                receiptId: string,
                keys: A.Keyring, order: seq<ForkKey>)
    requires Authorized(log, lineage, trust, origin, seqNo, chosen, receiptId, keys)
    requires Enumerates(order, PointRows(forks, origin, seqNo))
    requires Walk(forks, order, chosen, receiptId, seqNo, trust).refusal.Some?
    ensures var w := Walk(forks, order, chosen, receiptId, seqNo, trust);
      ResolveStep(log, forks, lineage, trust, origin, seqNo, chosen, receiptId, keys, w.refusal, forks, w.trust)
  {
    var n := WalkStops(forks, order, chosen, receiptId, seqNo, trust);
  }

  lemma Released(log: Log, forks: Forks, lineage: Lineage, trust: T.Registry, origin: string, seqNo: int,
                 chosen: string, receiptId: string,
                 keys: A.Keyring)
    requires Authorized(log, lineage, trust, origin, seqNo, chosen, receiptId, keys)
    requires PointRows(forks, origin, seqNo) != {}
    requires forall k :: k in PointRows(forks, origin, seqNo) ==> RowAgrees(forks[k], chosen, receiptId)
    ensures ResolveStep(log, forks, lineage, trust, origin, seqNo, chosen, receiptId, keys, None,
                        Resolved(forks, origin, seqNo, chosen, receiptId),
                        RevokedAll(trust, RivalKeys(forks, PointRows(forks, origin, seqNo)), seqNo))
  {
  }

  // A frozen row whose rival key can still be revoked, beside a row another receipt resolved.
  ghost predicate LeavesTrace(forks: Forks, origin: string, seqNo: int, chosen: string, receiptId: string,
                              trust: T.Registry) {
    exists f, b :: (
      && f in PointRows(forks, origin, seqNo) && forks[f].frozen && chosen == forks[f].heldId
      && Revocable(forks[f].rivalKey, trust)
      && b in PointRows(forks, origin, seqNo) && !forks[b].frozen && forks[b].resolvedBy != Some(receiptId))
  }

  predicate Revocable(key: Option<string>, trust: T.Registry) {
    key.Some? && key.value in trust.keys && trust.keys[key.value].standing != T.Revoked
  }

  lemma RevokedDiffers(trust: T.Registry, ks: set<string>, fromSeq: int)
    ensures RevokedAll(trust, ks, fromSeq) != trust <==> exists k :: k in ks && Revocable(Some(k), trust)
  {
    if k :| k in ks && Revocable(Some(k), trust) {
      assert RevokedAll(trust, ks, fromSeq).keys[k].standing == T.Revoked;
    } else {
      assert forall k :: k in trust.keys ==> RevokedAll(trust, ks, fromSeq).keys[k] == trust.keys[k];
      assert RevokedAll(trust, ks, fromSeq).keys == trust.keys;
    }
  }

  lemma TraceOfWalk(log: Log, forks: Forks, origin: string, seqNo: int, chosen: string, receiptId: string,
                    trust: T.Registry, order: seq<ForkKey>)
    requires ForkInv(log, forks) && Enumerates(order, PointRows(forks, origin, seqNo))
    requires Walk(forks, order, chosen, receiptId, seqNo, trust).refusal.Some?
    requires Walk(forks, order, chosen, receiptId, seqNo, trust).trust != trust
    ensures Walk(forks, order, chosen, receiptId, seqNo, trust).refusal == Some(ForkAlreadyResolved)
    ensures LeavesTrace(forks, origin, seqNo, chosen, receiptId, trust)
  {
    var n := WalkStops(forks, order, chosen, receiptId, seqNo, trust);
    var f := StruckBefore(forks, order, n, chosen, receiptId, seqNo, trust);
    assert order[n] in order && f in order;
    BadIsResolved(log, forks, f, order[n], chosen, receiptId);
  }

  // A changed registry names an agreeing frozen row among those walked.
  lemma StruckBefore(forks: Forks, order: seq<ForkKey>, n: nat, chosen: string, receiptId: string, seqNo: int,
                     trust: T.Registry) returns (f: ForkKey)
    requires n <= |order| && InForks(order, forks) && AllAgree(forks, order[..n], chosen, receiptId)
    requires RevokedAll(trust, RivalKeys(forks, set k | k in order[..n]), seqNo) != trust
    ensures f in order && f in forks && forks[f].frozen && RowAgrees(forks[f], chosen, receiptId)
    ensures Revocable(forks[f].rivalKey, trust)
  {
    var done := set k | k in order[..n];
    RevokedDiffers(trust, RivalKeys(forks, done), seqNo);
    var key :| key in RivalKeys(forks, done) && Revocable(Some(key), trust);
    f :| f in done && f in forks && forks[f].frozen && forks[f].rivalKey == Some(key);
    var i :| 0 <= i < n && order[..n][i] == f;
    assert RowAgrees(forks[order[..n][i]], chosen, receiptId);
  }

  // Rows of one point share the held head, so only a resolved one can disagree.
  lemma BadIsResolved(log: Log, forks: Forks, f: ForkKey, b: ForkKey, chosen: string, receiptId: string)
    requires RowsSound(log, forks) && f in forks && b in forks && SamePoint(f, b)
    requires forks[f].frozen && RowAgrees(forks[f], chosen, receiptId) && !RowAgrees(forks[b], chosen, receiptId)
    ensures !forks[b].frozen && forks[b].resolvedBy != Some(receiptId) && chosen == forks[f].heldId
  {
    assert RowSound(log, f, forks[f]) && RowSound(log, b, forks[b]);
  }

  // A refused walk changes trust in some order of the rows exactly when the point holds a
  // resolved row under another receipt next to a frozen one whose rival is not yet revoked,
  // and the held head was chosen. A wrong head is refused at the first row, whichever it is.
  lemma RefusalLeavesTrace(log: Log, forks: Forks, origin: string, seqNo: int, chosen: string, receiptId: string,
                           trust: T.Registry)
    requires ForkInv(log, forks)
    ensures (exists order :: Enumerates(order, PointRows(forks, origin, seqNo))
                             && Walk(forks, order, chosen, receiptId, seqNo, trust).refusal.Some?
                             && Walk(forks, order, chosen, receiptId, seqNo, trust).trust != trust)
            <==> LeavesTrace(forks, origin, seqNo, chosen, receiptId, trust)
  {
    var rows := PointRows(forks, origin, seqNo);
    if order :| Enumerates(order, rows) && Walk(forks, order, chosen, receiptId, seqNo, trust).refusal.Some?
                && Walk(forks, order, chosen, receiptId, seqNo, trust).trust != trust {
      TraceOfWalk(log, forks, origin, seqNo, chosen, receiptId, trust, order);
    }
    if LeavesTrace(forks, origin, seqNo, chosen, receiptId, trust) {
      var order := TraceOrder(forks, origin, seqNo, chosen, receiptId, trust);
    }
  }

  lemma TraceOrder(forks: Forks, origin: string, seqNo: int, chosen: string, receiptId: string, trust: T.Registry)
    returns (order: seq<ForkKey>)
    requires LeavesTrace(forks, origin, seqNo, chosen, receiptId, trust)
    ensures Enumerates(order, PointRows(forks, origin, seqNo))
    ensures Walk(forks, order, chosen, receiptId, seqNo, trust).refusal == Some(ForkAlreadyResolved)
    ensures Walk(forks, order, chosen, receiptId, seqNo, trust).trust != trust
  {
    var rows := PointRows(forks, origin, seqNo);
    var f, b :| f in rows && forks[f].frozen && chosen == forks[f].heldId && Revocable(forks[f].rivalKey, trust)
                && b in rows && !forks[b].frozen && forks[b].resolvedBy != Some(receiptId);
    order := WalkReaches(forks, rows, {f}, b, chosen, receiptId, seqNo, trust);
    assert forks[f].rivalKey.value in RivalKeys(forks, {f});
    RevokedDiffers(trust, RivalKeys(forks, {f}), seqNo);
  }

  // Each refusal before the walk names what stood in the way, in the order the gate looks.
  ghost predicate Refusable(log: Log, forks: Forks, lineage: Lineage, trust: T.Registry, origin: string, seqNo: int,
                            chosen: string,
                            receiptId: string, keys: A.Keyring, why: Refusal) {
    var rows := PointRows(forks, origin, seqNo);
    match why
    case NoForkEvidence => rows == {}
    case ReceiptIncomplete => rows != {} && forall r :: !HoldsReceipt(log, receiptId, r)
    case _ =>
      && rows != {}
      && exists r, store :: HoldsReceipt(log, receiptId, r) && Loaded(log, store)
                            && ExerciseRefuses(lineage, trust, origin, seqNo, chosen, keys, r, store, why)
  }

  ghost predicate ExerciseRefuses(lineage: Lineage, trust: T.Registry, origin: string, seqNo: int, chosen: string,
                                  keys: A.Keyring,
                                  r: Receipt, store: A.Store, why: Refusal) {
    match CurrentPolicy(lineage)
    case Err(conflict) => why == conflict
    case Ok(policy) =>
      Exercise(store, lineage, r, FORK_RESOLUTION_KEY,
               ForkOperation(origin, seqNo, chosen, r.configurationDigest, policy), keys, trust) == Some(why)
  }

  // A held receipt that stands VALID, under the policy in force, for exactly this resolution.
  ghost predicate Authorized(log: Log, lineage: Lineage, trust: T.Registry, origin: string, seqNo: int, chosen: string,
                             receiptId: string, keys: A.Keyring) {
    exists r, store ::
      && HoldsReceipt(log, receiptId, r) && Loaded(log, store)
      && Exercised(lineage, trust, origin, seqNo, chosen, keys, r, store)
  }

  ghost predicate Exercised(lineage: Lineage, trust: T.Registry, origin: string, seqNo: int, chosen: string,
                            keys: A.Keyring,
                            r: Receipt, store: A.Store) {
    && CurrentPolicy(lineage).Ok?
    && Exercise(store, lineage, r, FORK_RESOLUTION_KEY,
                ForkOperation(origin, seqNo, chosen, r.configurationDigest, CurrentPolicy(lineage).value), keys,
                    trust) == None
  }

  lemma ResolveKeepsForks(log: Log, forks: Forks, lineage: Lineage, trust: T.Registry, origin: string, seqNo: int,
                          chosen: string, receiptId: string, keys: A.Keyring,
                          refusal: Option<Refusal>, forks': Forks, trust': T.Registry)
    requires ForkInv(log, forks)
    requires ResolveStep(log, forks, lineage, trust, origin, seqNo, chosen, receiptId, keys, refusal, forks', trust')
    ensures ForkInv(log, forks')
    ensures forall o :: o in FrozenOrigins(forks) && o !in FrozenOrigins(forks') ==>
                          o == origin && refusal == None
                          && Authorized(log, lineage, trust, origin, seqNo, chosen, receiptId, keys)
    ensures refusal == None ==> forall k :: k in PointRows(forks', origin, seqNo) ==>
                                  !forks'[k].frozen && forks'[k].chosenHead == Some(chosen)
                                  && forks'[k].resolvedBy == Some(receiptId)
  {
    if refusal == None {
      ReleaseSettles(log, forks, origin, seqNo, chosen, receiptId);
    }
  }

  // Releasing a point all of whose rows agree leaves the evidence sound.
  lemma ReleaseSettles(log: Log, forks: Forks, origin: string, seqNo: int, chosen: string, receiptId: string)
    requires ForkInv(log, forks) && forall k :: k in PointRows(forks, origin, seqNo) ==>
             RowAgrees(forks[k], chosen, receiptId)
    ensures ForkInv(log, Resolved(forks, origin, seqNo, chosen, receiptId))
    ensures var forks' := Resolved(forks, origin, seqNo, chosen, receiptId);
      forall o :: o in FrozenOrigins(forks) && o !in FrozenOrigins(forks') ==> o == origin
    ensures var forks' := Resolved(forks, origin, seqNo, chosen, receiptId);
      forall k :: k in PointRows(forks', origin, seqNo) ==>
                    !forks'[k].frozen && forks'[k].chosenHead == Some(chosen) && forks'[k].resolvedBy == Some(receiptId)
  {
    var forks' := Resolved(forks, origin, seqNo, chosen, receiptId);
    forall k | k in forks' ensures RowSound(log, k, forks'[k]) { assert RowSound(log, k, forks[k]); }
    forall k | k in PointRows(forks', origin, seqNo)
      ensures !forks'[k].frozen && forks'[k].chosenHead == Some(chosen) && forks'[k].resolvedBy == Some(receiptId)
    {
      assert k in PointRows(forks, origin, seqNo);
    }
    ReleaseUnites(forks, origin, seqNo, chosen, receiptId);
    forall o | o in FrozenOrigins(forks) && o !in FrozenOrigins(forks') ensures o == origin {
      var k :| k in forks && forks[k].frozen && k.origin == o;
      assert k in forks' && !forks'[k].frozen;
    }
  }

  lemma ReleaseKeepsForkInv(log: Log, forks: Forks, origin: string, seqNo: int, chosen: string, receiptId: string)
    requires ForkInv(log, forks) && forall k :: k in PointRows(forks, origin, seqNo) ==>
             RowAgrees(forks[k], chosen, receiptId)
    ensures ForkInv(log, Resolved(forks, origin, seqNo, chosen, receiptId))
  {
    ReleaseSettles(log, forks, origin, seqNo, chosen, receiptId);
  }

  lemma ReleaseUnites(forks: Forks, origin: string, seqNo: int, chosen: string, receiptId: string)
    requires OneResolution(forks) && forall k :: k in PointRows(forks, origin, seqNo) ==>
             RowAgrees(forks[k], chosen, receiptId)
    ensures OneResolution(Resolved(forks, origin, seqNo, chosen, receiptId))
  {
    var forks' := Resolved(forks, origin, seqNo, chosen, receiptId);
    forall j, k | j in forks' && k in forks' && SamePoint(j, k) && !forks'[j].frozen && !forks'[k].frozen
      ensures forks'[j].chosenHead == forks'[k].chosenHead && forks'[j].resolvedBy == forks'[k].resolvedBy
    {
      if j in PointRows(forks, origin, seqNo) {
        assert k in PointRows(forks, origin, seqNo);
      } else {
        assert forks'[j] == forks[j] && forks'[k] == forks[k];
      }
    }
  }

  // ---- policy lineage as an operation ----

  ghost predicate PolicyExercised(lineage: Lineage, trust: T.Registry, policy: string, prior: Option<string>,
                                  keys: A.Keyring,
                                  r: Receipt, store: A.Store) {
    Exercise(store, lineage, r, POLICY_KEY, PolicyOperation(policy, prior, r.configurationDigest), keys, trust) == None
  }

  ghost predicate PolicyRefused(l: Lineage, trust: T.Registry, policy: string, keys: A.Keyring, r: Receipt,
                                store: A.Store, why: Refusal) {
    && CurrentPolicy(l).Ok?
    && Exercise(store, l, r, POLICY_KEY, PolicyOperation(policy, CurrentPolicy(l).value, r.configurationDigest), keys,
           trust) == Some(why)
  }

  ghost predicate PolicyAuthorized(log: Log, l: Lineage, trust: T.Registry, policy: string, prior: Option<string>,
                                   receiptId: string, keys: A.Keyring) {
    exists q, store ::
      HoldsReceipt(log, receiptId, q) && Loaded(log, store) && PolicyExercised(l, trust, policy, prior, keys, q, store)
  }

  ghost predicate PolicyBlocked(log: Log, l: Lineage, trust: T.Registry, policy: string, receiptId: string,
                                keys: A.Keyring, why: Refusal) {
    if why == ReceiptIncomplete then forall q :: !HoldsReceipt(log, receiptId, q)
    else exists q, store ::
      HoldsReceipt(log, receiptId, q) && Loaded(log, store) && PolicyRefused(l, trust, policy, keys, q, store, why)
  }

  // What an attempt to establish a bundle may do: nothing, or one receipt-gated move.
  ghost predicate EstablishStep(log: Log, l: Lineage, trust: T.Registry, bundle: string, receiptId: string,
                                keys: A.Keyring,
                                r: Result<string>, l': Lineage) {
    var d, prior := BundleDigest(bundle), CurrentPolicy(l);
    if r.Err? then
      && l' == l && prior != Ok(Some(d))
      && (prior == Err(r.why) || PolicyBlocked(log, l, trust, d, receiptId, keys, r.why))
    else
      && r.value == d && prior.Ok?
      && if prior.value == Some(d) then l' == l
         else
           && l' == Established(l, bundle, receiptId, prior.value)
           && PolicyAuthorized(log, l, trust, d, prior.value, receiptId, keys)
  }

  lemma StepTaken(log: Log, l: Lineage, trust: T.Registry, bundle: string, receiptId: string, keys: A.Keyring,
                  prior: Option<string>)
    requires CurrentPolicy(l) == Ok(prior) && prior != Some(BundleDigest(bundle))
    requires PolicyAuthorized(log, l, trust, BundleDigest(bundle), prior, receiptId, keys)
    ensures EstablishStep(log, l, trust, bundle, receiptId, keys, Ok(BundleDigest(bundle)),
                          Established(l, bundle, receiptId, prior))
    ensures |Heads(Established(l, bundle, receiptId, prior))| <= 1
    ensures prior.Some? ==> prior.value in l
  {
    EstablishKeepsOneHead(l, bundle, receiptId, prior);
    CurrentIsHeld(l);
  }

  lemma StepRefused(log: Log, l: Lineage, trust: T.Registry, bundle: string, receiptId: string, keys: A.Keyring,
                    prior: Option<string>, why: Refusal)
    requires CurrentPolicy(l) == Ok(prior) && prior != Some(BundleDigest(bundle))
    requires PolicyBlocked(log, l, trust, BundleDigest(bundle), receiptId, keys, why)
    ensures EstablishStep(log, l, trust, bundle, receiptId, keys, Err(why), l) && |Heads(l)| <= 1
  {
  }

  // ---- dead ends ----

  lemma SameReceipt(log: Log, log': Log, id: string, r: Receipt, r': Receipt)
    requires AllStored(log) && AllStored(log') && Extends(log, log') && HoldsReceipt(log, id, r)
    requires HoldsReceipt(log', id, r')
    ensures r == r'
  {
    var p :| p in log && log[p].id == id && log[p].payload == Some(AuthorityReceipt(r));
    var q :| q in log' && log'[q].id == id && log'[q].payload == Some(AuthorityReceipt(r'));
    assert Stored(p, log[p]) && Stored(q, log'[q]);
    IdentityCommits(log[p], log'[q]);
  }

  lemma StoreGrows(log: Log, log': Log, store: A.Store, store': A.Store)
    requires Extends(log, log') && UniqueDigests(log') && Loaded(log, store) && Loaded(log', store')
    ensures A.Grows(store, store')
  {
    forall d | d in store ensures d in store' && store'[d] == store[d] {
      var p :| p in log && log[p].payload == Some(AuthorityConfiguration(store[d]));
      assert log'[p] == log[p];
      assert HoldsConfiguration(log', store[d]);
      assert store[d].digest == d;
    }
  }

  lemma ExercisedIsValid(lineage: Lineage, trust: T.Registry, origin: string, seqNo: int, chosen: string,
                         keys: A.Keyring,
                         r: Receipt, store: A.Store)
    requires Exercised(lineage, trust, origin, seqNo, chosen, keys, r, store)
    ensures A.ReceiptStanding(store, r, keys, Some(trust)) == A.VALID
  {
  }

  ghost predicate ReceiptSuperseded(log: Log, id: string, keys: A.Keyring) {
    exists r, store :: HoldsReceipt(log, id, r) && Loaded(log, store) && Succeeded(store, r, keys)
  }

  ghost predicate Succeeded(store: A.Store, r: Receipt, keys: A.Keyring) {
    r.configurationDigest in store && A.SuccessorsOf(store, store[r.configurationDigest], keys) != {}
  }

  lemma SupersededReceiptAuthorizesNothing(log: Log, keys: A.Keyring, log': Log, lineage': Lineage, trust': T.Registry,
                                           origin: string, seqNo: int, chosen: string, receiptId: string)
    requires AllStored(log) && AllStored(log') && Extends(log, log') && UniqueDigests(log')
    requires ReceiptSuperseded(log, receiptId, keys)
    ensures !Authorized(log', lineage', trust', origin, seqNo, chosen, receiptId, keys)
  {
    var r, store :| HoldsReceipt(log, receiptId, r) && Loaded(log, store) && Succeeded(store, r, keys);
    forall r', store' | HoldsReceipt(log', receiptId, r') && Loaded(log', store')
      ensures !Exercised(lineage', trust', origin, seqNo, chosen, keys, r', store')
    {
      SameReceipt(log, log', receiptId, r, r');
      StoreGrows(log, log', store, store');
      A.SupersededForever(store, store', r, keys, Some(trust'));
      if Exercised(lineage', trust', origin, seqNo, chosen, keys, r', store') {
        ExercisedIsValid(lineage', trust', origin, seqNo, chosen, keys, r', store');
      }
    }
  }

  // A receipt pinned to a policy that has been superseded exercises nothing, ever.
  lemma StalePolicyExercisesNothing(store: A.Store, lineage: Lineage, r: Receipt, key: string, operation: string,
                                    keys: A.Keyring, trust: T.Registry)
    requires r.policyDigest.Some? && r.policyDigest.value in lineage && lineage[r.policyDigest.value].supersededBy.Some?
    ensures Exercise(store, lineage, r, key, operation, keys, trust) != None
  {
    match CurrentPolicy(lineage) {
      case Err(_) =>
      case Ok(policy) => assert policy.Some? ==> policy.value in Heads(lineage);
    }
  }

  // The policy the receipt is pinned to has been superseded.
  ghost predicate ReceiptStale(log: Log, lineage: Lineage, id: string) {
    exists r :: HoldsReceipt(log, id, r) && Retired(lineage, r.policyDigest)
  }

  predicate Retired(lineage: Lineage, policy: Option<string>) {
    policy.Some? && policy.value in lineage && lineage[policy.value].supersededBy.Some?
  }

  // Fewer than a quorum of the members of its configuration are unrevoked.
  ghost predicate ReceiptUnmanned(log: Log, trust: T.Registry, id: string) {
    exists r, c :: HoldsReceipt(log, id, r) && HoldsConfiguration(log, c) && Unmanned(r, c, trust)
  }

  ghost predicate Unmanned(r: Receipt, c: Configuration, trust: T.Registry) {
    c.digest == r.configurationDigest && |A.Unrevoked(c.members, trust)| < c.quorum
  }

  // What is never taken back: superseded entries and revocations.
  ghost predicate LineageKept(l: Lineage, l': Lineage) {
    forall d :: d in l && l[d].supersededBy.Some? ==> d in l' && l'[d] == l[d]
  }

  ghost predicate RevocationsKept(t: T.Registry, t': T.Registry) {
    forall key :: T.StandingAt(t, key, None) == T.Revoked ==> T.StandingAt(t', key, None) == T.Revoked
  }

  lemma StaleReceiptAuthorizesNothing(log: Log, lineage: Lineage, log': Log, lineage': Lineage, trust': T.Registry,
                                      origin: string, seqNo: int, chosen: string, receiptId: string, keys: A.Keyring)
    requires AllStored(log) && AllStored(log') && Extends(log, log') && LineageKept(lineage, lineage')
    requires ReceiptStale(log, lineage, receiptId)
    ensures !Authorized(log', lineage', trust', origin, seqNo, chosen, receiptId, keys)
  {
    var r :| HoldsReceipt(log, receiptId, r) && Retired(lineage, r.policyDigest);
    forall r', store' | HoldsReceipt(log', receiptId, r') && Loaded(log', store')
      ensures !Exercised(lineage', trust', origin, seqNo, chosen, keys, r', store')
    {
      SameReceipt(log, log', receiptId, r, r');
      if CurrentPolicy(lineage').Ok? {
        StalePolicyExercisesNothing(store', lineage', r, FORK_RESOLUTION_KEY,
                                    ForkOperation(origin, seqNo, chosen, r.configurationDigest,
                                                  CurrentPolicy(lineage').value), keys, trust');
      }
    }
  }

  lemma UnmannedNotValid(store: A.Store, r: Receipt, keys: A.Keyring, trust: T.Registry, trust': T.Registry)
    requires r.configurationDigest in store && RevocationsKept(trust, trust')
    requires |A.Unrevoked(store[r.configurationDigest].members, trust)| < store[r.configurationDigest].quorum
    ensures A.ReceiptStanding(store, r, keys, Some(trust')) != A.VALID
  {
    A.QuorumLost(store, r, keys, trust, trust');
  }

  lemma UnmannedReceiptAuthorizesNothing(log: Log, trust: T.Registry, log': Log, lineage': Lineage, trust': T.Registry,
                                         origin: string, seqNo: int, chosen: string, receiptId: string, keys: A.Keyring)
    requires AllStored(log) && AllStored(log') && Extends(log, log') && UniqueDigests(log')
    requires RevocationsKept(trust, trust')
    requires ReceiptUnmanned(log, trust, receiptId)
    ensures !Authorized(log', lineage', trust', origin, seqNo, chosen, receiptId, keys)
  {
    var r, c :| HoldsReceipt(log, receiptId, r) && HoldsConfiguration(log, c) && Unmanned(r, c, trust);
    ConfigurationStays(log, log', c);
    forall r', store' | HoldsReceipt(log', receiptId, r') && Loaded(log', store')
      ensures !Exercised(lineage', trust', origin, seqNo, chosen, keys, r', store')
    {
      SameReceipt(log, log', receiptId, r, r');
      LoadedIs(log', store', c);
      UnmannedNotValid(store', r, keys, trust, trust');
      if Exercised(lineage', trust', origin, seqNo, chosen, keys, r', store') {
        ExercisedIsValid(lineage', trust', origin, seqNo, chosen, keys, r', store');
      }
    }
  }

  lemma ConfigurationStays(log: Log, log': Log, c: Configuration)
    requires Extends(log, log') && HoldsConfiguration(log, c)
    ensures HoldsConfiguration(log', c)
  {
    var p :| p in log && log[p].payload == Some(AuthorityConfiguration(c));
    assert log'[p] == log[p];
  }

  lemma LoadedIs(log: Log, store: A.Store, c: Configuration)
    requires UniqueDigests(log) && Loaded(log, store) && HoldsConfiguration(log, c)
    ensures c.digest in store && store[c.digest] == c
  {
    assert HoldsConfiguration(log, store[c.digest]);
  }

  // The receipt's configuration is not the head of its key.
  ghost predicate ReceiptLapsed(log: Log, id: string, keys: A.Keyring) {
    exists r, store :: HoldsReceipt(log, id, r) && Loaded(log, store) && Lapsed(store, r, keys)
  }

  ghost predicate Lapsed(store: A.Store, r: Receipt, keys: A.Keyring) {
    !A.IsCurrent(store, r.authorityKey, r.configurationDigest, keys)
  }

  // A receipt that once authorized and has lapsed since authorizes nothing again.
  lemma LapsedReceiptAuthorizesNothing(before: Log, lineage: Lineage, trust: T.Registry, o: string, n: int, c: string,
                                       log: Log, log': Log, lineage': Lineage, trust': T.Registry,
                                       origin: string, seqNo: int, chosen: string, receiptId: string, keys: A.Keyring)
    requires AllStored(before) && AllStored(log) && AllStored(log') && Extends(before, log) && Extends(log, log')
    requires UniqueDigests(log) && UniqueDigests(log')
    requires Authorized(before, lineage, trust, o, n, c, receiptId, keys) && ReceiptLapsed(log, receiptId, keys)
    ensures !Authorized(log', lineage', trust', origin, seqNo, chosen, receiptId, keys)
  {
    var r, store, store0 := OnceCurrent(before, lineage, trust, o, n, c, log, receiptId, keys);
    forall r', store' | HoldsReceipt(log', receiptId, r') && Loaded(log', store')
      ensures !Exercised(lineage', trust', origin, seqNo, chosen, keys, r', store')
    {
      SameReceipt(log, log', receiptId, r, r');
      StoreGrows(log, log', store, store');
      LapsedNotExercised(store0, store, store', lineage', trust', origin, seqNo, chosen, keys, r);
    }
  }

  lemma OnceCurrent(before: Log, lineage: Lineage, trust: T.Registry, o: string, n: int, c: string, log: Log,
                    receiptId: string, keys: A.Keyring)
    returns (r: Receipt, store: A.Store, store0: A.Store)
    requires AllStored(before) && AllStored(log) && Extends(before, log) && UniqueDigests(log)
    requires Authorized(before, lineage, trust, o, n, c, receiptId, keys) && ReceiptLapsed(log, receiptId, keys)
    ensures HoldsReceipt(log, receiptId, r) && Loaded(log, store) && Lapsed(store, r, keys)
    ensures A.Indexed(store0) && A.Grows(store0, store)
    ensures A.IsCurrent(store0, r.authorityKey, r.configurationDigest, keys)
  {
    var r0;
    r0, store0 := AuthorizedBy(before, lineage, trust, o, n, c, receiptId, keys);
    r, store :| HoldsReceipt(log, receiptId, r) && Loaded(log, store) && Lapsed(store, r, keys);
    SameReceipt(before, log, receiptId, r0, r);
    StoreGrows(before, log, store0, store);
    ExercisedIsCurrent(lineage, trust, o, n, c, keys, r, store0);
  }

  lemma AuthorizedBy(log: Log, lineage: Lineage, trust: T.Registry, origin: string, seqNo: int, chosen: string,
                     receiptId: string, keys: A.Keyring)
    returns (r: Receipt, store: A.Store)
    requires Authorized(log, lineage, trust, origin, seqNo, chosen, receiptId, keys)
    ensures HoldsReceipt(log, receiptId, r) && Loaded(log, store)
    ensures Exercised(lineage, trust, origin, seqNo, chosen, keys, r, store)
  {
    r, store :| HoldsReceipt(log, receiptId, r) && Loaded(log, store)
                && Exercised(lineage, trust, origin, seqNo, chosen, keys, r, store);
  }

  lemma LapsedNotExercised(store0: A.Store, store: A.Store, store': A.Store, lineage': Lineage, trust': T.Registry,
                           origin: string, seqNo: int, chosen: string, keys: A.Keyring, r: Receipt)
    requires A.Indexed(store0) && A.Indexed(store) && A.Indexed(store') && A.Grows(store0, store)
    requires A.Grows(store, store')
    requires A.IsCurrent(store0, r.authorityKey, r.configurationDigest, keys) && Lapsed(store, r, keys)
    ensures !Exercised(lineage', trust', origin, seqNo, chosen, keys, r, store')
  {
    A.CurrencyNeverReturns(store0, store, store', r.authorityKey, r.configurationDigest, keys);
    if Exercised(lineage', trust', origin, seqNo, chosen, keys, r, store') {
      ExercisedIsCurrent(lineage', trust', origin, seqNo, chosen, keys, r, store');
    }
  }

  lemma ExercisedIsCurrent(lineage: Lineage, trust: T.Registry, origin: string, seqNo: int, chosen: string,
                           keys: A.Keyring,
                           r: Receipt, store: A.Store)
    requires Exercised(lineage, trust, origin, seqNo, chosen, keys, r, store)
    ensures A.IsCurrent(store, r.authorityKey, r.configurationDigest, keys) && r.configurationDigest in store
  {
    ExercisedIsValid(lineage, trust, origin, seqNo, chosen, keys, r, store);
  }

  // Succession is one way to lapse.
  lemma SupersededIsLapsed(log: Log, id: string, keys: A.Keyring)
    requires ReceiptSuperseded(log, id, keys)
    ensures ReceiptLapsed(log, id, keys)
  {
    var r, store :| HoldsReceipt(log, id, r) && Loaded(log, store) && Succeeded(store, r, keys);
    if !Lapsed(store, r, keys) {
      A.ForwardImpliesBackward(store, r.authorityKey, r.configurationDigest, keys);
    }
  }

  // An authorizing receipt is pinned to the policy in force, which the lineage holds.
  lemma AuthorizedPolicy(before: Log, lineage: Lineage, trust: T.Registry, origin: string, seqNo: int, chosen: string,
                         receiptId: string,
                         keys: A.Keyring, log: Log, r: Receipt)
    requires AllStored(before) && AllStored(log) && Extends(before, log) && HoldsReceipt(log, receiptId, r)
    requires Authorized(before, lineage, trust, origin, seqNo, chosen, receiptId, keys)
    ensures CurrentPolicy(lineage) == Ok(r.policyDigest) && (r.policyDigest.Some? ==> r.policyDigest.value in lineage)
  {
    var r0, store0 :| HoldsReceipt(before, receiptId, r0) && Loaded(before, store0)
                      && Exercised(lineage, trust, origin, seqNo, chosen, keys, r0, store0);
    SameReceipt(before, log, receiptId, r0, r);
    CurrentIsHeld(lineage);
  }

  // A policy in the lineage is its head or has been superseded.
  lemma HeldOrRetired(l: Lineage, d: string)
    requires |Heads(l)| <= 1 && d in l
    ensures CurrentPolicy(l) == Ok(Some(d)) || Retired(l, Some(d))
  {
    if l[d].supersededBy == None {
      assert d in Heads(l);
      OneElement(Heads(l));
    }
  }

  // What still has to hold for a receipt that has authorized before: its policy is in force,
  // its configuration is the head, and a quorum of its signers is active.
  ghost predicate StillGood(lineage: Lineage, trust: T.Registry, r: Receipt, store: A.Store, keys: A.Keyring) {
    && CurrentPolicy(lineage) == Ok(r.policyDigest)
    && r.configurationDigest in store && A.IsCurrent(store, r.authorityKey, r.configurationDigest, keys)
    && A.QuorumMet(r, store[r.configurationDigest], keys, Some(trust))
  }

  lemma AuthorizedIsStillGood(before: Log, lineage0: Lineage, trust0: T.Registry, log: Log, lineage: Lineage,
                              trust: T.Registry,
                              origin: string, seqNo: int, chosen: string, receiptId: string, keys: A.Keyring,
                                  r: Receipt, store: A.Store)
    requires AllStored(before) && AllStored(log) && Extends(before, log) && UniqueDigests(log)
    requires Authorized(before, lineage0, trust0, origin, seqNo, chosen, receiptId, keys)
    requires HoldsReceipt(log, receiptId, r) && Loaded(log, store)
    ensures Authorized(log, lineage, trust, origin, seqNo, chosen, receiptId, keys) <==>
            StillGood(lineage, trust, r, store, keys)
  {
    var r0, store0 :| HoldsReceipt(before, receiptId, r0) && Loaded(before, store0)
                      && Exercised(lineage0, trust0, origin, seqNo, chosen, keys, r0, store0);
    SameReceipt(before, log, receiptId, r0, r);
    StoreGrows(before, log, store0, store);
    GoodAgain(lineage0, trust0, origin, seqNo, chosen, keys, r, store0, lineage, trust, store);
    AuthorizedExactly(log, lineage, trust, origin, seqNo, chosen, receiptId, keys, r, store);
  }

  // With distinct digests there is one receipt and one store to ask.
  lemma AuthorizedExactly(log: Log, lineage: Lineage, trust: T.Registry, origin: string, seqNo: int, chosen: string,
                          receiptId: string,
                          keys: A.Keyring, r: Receipt, store: A.Store)
    requires AllStored(log) && UniqueDigests(log) && HoldsReceipt(log, receiptId, r) && Loaded(log, store)
    ensures Authorized(log, lineage, trust, origin, seqNo, chosen, receiptId, keys) <==>
            Exercised(lineage, trust, origin, seqNo, chosen, keys, r, store)
  {
    forall r', store' | HoldsReceipt(log, receiptId, r') && Loaded(log, store') ensures r' == r && store' == store {
      SameReceiptHeld(log, receiptId, r, r');
      SameStore(log, store, store');
    }
  }

  lemma SameReceiptHeld(log: Log, id: string, r: Receipt, r': Receipt)
    requires AllStored(log) && HoldsReceipt(log, id, r) && HoldsReceipt(log, id, r')
    ensures r == r'
  {
    SameReceipt(log, log, id, r, r');
  }

  lemma SameStore(log: Log, store: A.Store, store': A.Store)
    requires UniqueDigests(log) && Loaded(log, store) && Loaded(log, store')
    ensures store == store'
  {
    StoreGrows(log, log, store, store');
    StoreGrows(log, log, store', store);
  }

  lemma GoodAgain(lineage0: Lineage, trust0: T.Registry, origin: string, seqNo: int, chosen: string, keys: A.Keyring,
                  r: Receipt, store0: A.Store,
                  lineage: Lineage, trust: T.Registry, store: A.Store)
    requires Exercised(lineage0, trust0, origin, seqNo, chosen, keys, r, store0) && A.Grows(store0, store)
    ensures Exercised(lineage, trust, origin, seqNo, chosen, keys, r, store) <==>
            StillGood(lineage, trust, r, store, keys)
  {
    ExercisedIsCurrent(lineage0, trust0, origin, seqNo, chosen, keys, r, store0);
    var d := r.configurationDigest;
    assert d in store && store[d] == store0[d];
    A.CandidatesGrow(store0, store, r.authorityKey, d, keys);
  }

  // One receipt cannot both release a fork point and move the policy lineage, and releases
  // one fork point one way.
  lemma ReceiptNamesOneResolution(lineage: Lineage, trust: T.Registry, keys: A.Keyring, r: Receipt, store: A.Store,
                                  o: string, n: int, c: string, lineage': Lineage, trust': T.Registry, store': A.Store,
                                  o': string, n': int, c': string)
    requires Exercised(lineage, trust, o, n, c, keys, r, store)
    requires Exercised(lineage', trust', o', n', c', keys, r, store')
    ensures o == o' && n == n' && c == c'
    ensures forall key, operation :: key != FORK_RESOLUTION_KEY ==>
            Exercise(store', lineage', r, key, operation, keys, trust') != None
  {
    ForkOperationBinds(o, n, c, r.configurationDigest, CurrentPolicy(lineage).value,
                       o', n', c', r.configurationDigest, CurrentPolicy(lineage').value);
  }

  // A fork point once resolved and then frozen again can be released only by the receipt
  // that resolved it; once that receipt is dead, never again.
  lemma FrozenForever(log: Log, lineage: Lineage, trust: T.Registry, forks: Forks, k: ForkKey, keys: A.Keyring,
                      log': Log, lineage': Lineage, trusted: T.Registry,
                      chosen: string, receiptId: string, refusal: Option<Refusal>, forks': Forks, trust': T.Registry)
    requires AllStored(log) && AllStored(log') && Extends(log, log') && LineageKept(lineage, lineage')
    requires RevocationsKept(trust, trusted)
    requires k in forks && !forks[k].frozen && forks[k].resolvedBy.Some?
    requires var id := forks[k].resolvedBy.value;
      ReceiptStale(log, lineage,
                   id) || (UniqueDigests(log') && (ReceiptSuperseded(log, id, keys) || ReceiptUnmanned(log, trust, id)))
    requires ResolveStep(log', forks, lineage', trusted, k.origin, k.seqNo, chosen, receiptId, keys, refusal, forks',
                         trust')
    ensures refusal != None && forks' == forks
  {
    var id := forks[k].resolvedBy.value;
    if refusal == None {
      assert k in PointRows(forks, k.origin, k.seqNo);
      assert receiptId == id;
      if ReceiptStale(log, lineage, id) {
        StaleReceiptAuthorizesNothing(log, lineage, log', lineage', trusted, k.origin, k.seqNo, chosen, id, keys);
      } else if ReceiptSuperseded(log, id, keys) {
        SupersededReceiptAuthorizesNothing(log, keys, log', lineage', trusted, k.origin, k.seqNo, chosen, id);
      } else {
        UnmannedReceiptAuthorizesNothing(log, trust, log', lineage', trusted, k.origin, k.seqNo, chosen, id, keys);
      }
    }
  }

  // ---- refusals, in the order the gate looks ----

  // A refusal names the first thing that stood in the way.
  lemma FirstObstacle(store: A.Store, lineage: Lineage, r: Receipt, key: string, operation: string, keys: A.Keyring,
                      trust: T.Registry, why: Refusal)
    requires |Heads(lineage)| <= 1 && Exercise(store, lineage, r, key, operation, keys, trust) == Some(why)
    ensures match why
      case ReceiptWrongKey => r.authorityKey != key
      case PolicySuperseded => r.authorityKey == key && CurrentPolicy(lineage) != Ok(r.policyDigest)
      case ReceiptOperationMismatch =>
        r.authorityKey == key && CurrentPolicy(lineage) == Ok(r.policyDigest) && r.operationDigest != operation
      case ReceiptRefused(standing) =>
        && r.authorityKey == key && CurrentPolicy(lineage) == Ok(r.policyDigest) && r.operationDigest == operation
        && standing == A.ReceiptStanding(store, r, keys, Some(trust)) != A.VALID
      case _ => false
  {
  }

  // What an operation digest spells out first.
  lemma OperationsNamed(policy: string, prior: Option<string>, configuration: string)
    ensures PolicyOperationJson(policy, prior, configuration).Cons?
    ensures PolicyOperationJson(policy, prior, configuration).head ==
            Str(if prior.Some? then "policy.supersede" else "policy.establish")
  {
  }
}
