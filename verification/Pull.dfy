// Anti-entropy (kawa/storage/replication.py): what a server offers, what a receiver asks
// for, and what one pull leaves behind.

module Pull {
  import opened Prelude
  import opened Vocabulary
  import opened Replication
  import T = Trust

  // ---- hash chains ----

  // Two held chains that share an envelope share every envelope before it.
  lemma {:induction false} SharedHeadAgrees(a: Log, b: Log, origin: string, n: int, k: int)
    requires LogInv(a) && LogInv(b) && Pos(origin, n) in a && Pos(origin, n) in b && 1 <= k <= n
    requires a[Pos(origin, n)].selfHash == b[Pos(origin, n)].selfHash
    ensures Pos(origin, k) in a && Pos(origin, k) in b && Committed(a[Pos(origin, k)]) == Committed(b[Pos(origin, k)])
    decreases n - k
  {
    var p := Pos(origin, k);
    if k < n {
      var q := Pos(origin, k + 1);
      SharedHeadAgrees(a, b, origin, n, k + 1);
      assert Chained(a, q) && Chained(b, q);
      assert Committed(a[q]).prevHash == Committed(b[q]).prevHash;
      assert a[p].selfHash == b[p].selfHash;
    }
    assert Stored(p, a[p]) && Stored(p, b[p]);
    IdentityCommits(a[p], b[p]);
  }

  // So a fork is never healed further along: chains that differ somewhere share no later envelope.
  lemma ForksNeverRejoin(a: Log, b: Log, origin: string, k: int, n: int)
    requires LogInv(a) && LogInv(b) && 1 <= k <= n && Pos(origin, n) in a && Pos(origin, n) in b
    requires Pos(origin, k) in a && Pos(origin, k) in b && a[Pos(origin, k)].id != b[Pos(origin, k)].id
    ensures a[Pos(origin, n)].selfHash != b[Pos(origin, n)].selfHash
  {
    assert Committed(a[Pos(origin, k)]).id == a[Pos(origin, k)].id;
    assert Committed(b[Pos(origin, k)]).id == b[Pos(origin, k)].id;
    if a[Pos(origin, n)].selfHash == b[Pos(origin, n)].selfHash {
      SharedHeadAgrees(a, b, origin, n, k);
    }
  }

  // The two stores agree wherever both their chains still reach.
  ghost predicate SharedFrontier(a: Log, b: Log) {
    forall o, n {:trigger Pos(o, n)} :: (
      n == Min(Head(a, o), Head(b, o)) && n >= 1 ==>
      Pos(o, n) in a && Pos(o, n) in b && a[Pos(o, n)].selfHash == b[Pos(o, n)].selfHash)
  }

  lemma FrontierAgrees(a: Log, b: Log, p: Pos)
    requires LogInv(a) && LogInv(b) && SharedFrontier(a, b) && p in a && p in b
    ensures Committed(a[p]) == Committed(b[p])
  {
    GapFree(a, p.origin, p.seqNo);
    GapFree(b, p.origin, p.seqNo);
    assert p == Pos(p.origin, p.seqNo);
    var n := Min(Head(a, p.origin), Head(b, p.origin));
    assert Pos(p.origin, n) in a;
    SharedHeadAgrees(a, b, p.origin, n, p.seqNo);
  }

  // ---- serving ----

  // The OFFER half of the grant algebra.
  function Served(e: Event, offer: set<string>): Event {
    if e.version < 2 || (e.scopeRef.Some? && e.scopeRef.value in offer) then e else Withhold(e)
  }

  function ServeBatch(events: seq<Event>, offer: set<string>): (r: seq<Event>)
    ensures |r| == |events| && forall i :: 0 <= i < |r| ==> r[i] == Served(events[i], offer)
  {
    seq(|events|, i requires 0 <= i < |events| => Served(events[i], offer))
  }

  // What is held at the named positions, in their order.
  function Read(log: Log, ps: seq<Pos>): (r: seq<Event>)
    requires forall i :: 0 <= i < |ps| ==> ps[i] in log
    ensures |r| == |ps| && forall i :: 0 <= i < |r| ==> r[i] == log[ps[i]]
  {
    seq(|ps|, i requires 0 <= i < |ps| => log[ps[i]])
  }

  // One origin's positions past the receiver's frontier, lowest first.
  function Beyond(source: Log, dest: Log, o: string): seq<Pos> {
    var lo, top := Head(dest, o), Head(source, o);
    if top <= lo then [] else seq(top - lo, i => Pos(o, lo + 1 + i))
  }

  // read_stream's positions, over the source's origins in turn.
  function Missing(source: Log, dest: Log, origins: seq<string>): seq<Pos> {
    if origins == [] then []
    else Missing(source, dest, origins[..|origins| - 1]) + Beyond(source, dest, origins[|origins| - 1])
  }

  // Held stubs whose committed scope digest is one the receiver asks for.
  predicate IsWanted(log: Log, scopes: set<string>, p: Pos) {
    p in log && log[p].IsStub() && exists s :: s in scopes && log[p].scopeDigest == Some(ScopeDigest(s))
  }

  // read_positions serves the ones it holds.
  function Available(source: Log, wanted: seq<Pos>): (r: seq<Pos>)
    ensures forall i :: 0 <= i < |r| ==> r[i] in source && r[i] in wanted
    ensures forall p :: p in wanted && p in source ==> p in r
    ensures Distinct(wanted) ==> Distinct(r)
  {
    if wanted == [] then []
    else
      var init, p := wanted[..|wanted| - 1], wanted[|wanted| - 1];
      assert wanted == init + [p];
      assert Distinct(wanted) ==> Distinct(init) && p !in init;
      Available(source, init) + if p in source then [p] else []
  }

  function Offer(granted: set<string>, requested: Option<set<string>>): set<string> {
    match requested case None => granted case Some(r) => granted * r
  }

  function Requested(source: Log, dest: Log, origins: seq<string>, wanted: seq<Pos>): seq<Pos> {
    Missing(source, dest, origins) + Available(source, wanted)
  }

  // `origins` and `wanted` list the source's origins and the receiver's wanted stubs in
  // whatever order the server visits them.
  ghost predicate Visits(dest: Log, source: Log, requested: Option<set<string>>, origins: seq<string>,
      wanted: seq<Pos>) {
    && Distinct(origins) && (forall p :: p in source ==> p.origin in origins)
    && Distinct(wanted) && (forall p :: p in wanted ==> requested.Some? && IsWanted(dest, requested.value, p))
    && (requested.Some? ==> forall p :: IsWanted(dest, requested.value, p) ==> p in wanted)
  }

  function Pulled(dest: Admission, source: Log, r: Receiver, granted: set<string>, origins: seq<string>,
                  wanted: seq<Pos>): Admission
    requires LogInv(dest.log) && LogInv(source)
  {
    MissingHeld(source, dest.log, origins);
    Committing(dest, r,
               ServeBatch(Read(source, Requested(source, dest.log, origins, wanted)), Offer(granted, r.requested)))
  }

  lemma BeyondMeans(source: Log, dest: Log, o: string)
    requires LogInv(source) && LogInv(dest)
    ensures forall p :: p in Beyond(source, dest, o) <==> p in source && p !in dest && p.origin == o
    ensures Distinct(Beyond(source, dest, o))
  {
    var ps := Beyond(source, dest, o);
    HeadFacts(dest, o);
    forall p ensures p in ps <==> p in source && p !in dest && p.origin == o {
      GapFree(source, o, p.seqNo);
      GapFree(dest, o, p.seqNo);
      if p in source && p !in dest && p.origin == o {
        assert ps[p.seqNo - Head(dest, o) - 1] == p;
      }
    }
  }

  lemma {:induction false} MissingHeld(source: Log, dest: Log, origins: seq<string>)
    requires LogInv(source) && LogInv(dest)
    ensures forall p :: p in Missing(source, dest, origins) <==> p in source && p !in dest && p.origin in origins
  {
    if origins != [] {
      var init, o := origins[..|origins| - 1], origins[|origins| - 1];
      assert origins == init + [o];
      MissingHeld(source, dest, init);
      BeyondMeans(source, dest, o);
    }
  }

  // Each position is asked for once, and after the one it chains onto.
  ghost predicate InOrder(dest: Log, source: Log, ps: seq<Pos>) {
    && Distinct(ps)
    && (forall i :: 0 <= i < |ps| ==> ps[i] in source)
    && (forall i {:trigger Chainable(dest, ps, i)} :: 0 <= i < |ps| ==> Chainable(dest, ps, i))
  }

  ghost predicate Chainable(dest: Log, ps: seq<Pos>, i: nat)
    requires i < |ps|
  {
    var before := Pos(ps[i].origin, ps[i].seqNo - 1);
    ps[i] in dest || ps[i].seqNo <= 1 || before in dest || before in ps[..i]
  }

  lemma BeyondInOrder(source: Log, dest: Log, o: string, i: nat)
    requires LogInv(source) && LogInv(dest) && i < |Beyond(source, dest, o)|
    ensures Chainable(dest, Beyond(source, dest, o), i)
  {
    var ps := Beyond(source, dest, o);
    HeadFacts(dest, o);
    if i > 0 { assert ps[..i][i - 1] == ps[i - 1]; }
  }

  lemma {:induction false} MissingInOrder(source: Log, dest: Log, origins: seq<string>)
    requires LogInv(source) && LogInv(dest) && Distinct(origins)
    ensures InOrder(dest, source, Missing(source, dest, origins))
  {
    if origins != [] {
      var init, o := origins[..|origins| - 1], origins[|origins| - 1];
      MissingInOrder(source, dest, init);
      MissingHeld(source, dest, init);
      BeyondMeans(source, dest, o);
      forall i: nat | i < |Beyond(source, dest, o)| ensures Chainable(dest, Beyond(source, dest, o), i) {
        BeyondInOrder(source, dest, o, i);
      }
      Concatenated(dest, source, Missing(source, dest, init), Beyond(source, dest, o));
    }
  }

  lemma Concatenated(dest: Log, source: Log, a: seq<Pos>, b: seq<Pos>)
    requires InOrder(dest, source, a) && InOrder(dest, source, b) && forall p :: p in a ==> p !in b
    ensures InOrder(dest, source, a + b)
  {
    var ps := a + b;
    ConcatDistinct(a, b);
    forall i | 0 <= i < |ps| ensures ps[i] in source && Chainable(dest, ps, i) {
      if i < |a| {
        assert Chainable(dest, a, i) && ps[..i] == a[..i];
      } else {
        assert Chainable(dest, b, i - |a|) && ps[..i] == a + b[..i - |a|];
      }
    }
  }

  lemma RequestedInOrder(dest: Log, source: Log, requested: Option<set<string>>, origins: seq<string>, wanted: seq<Pos>)
    requires LogInv(source) && LogInv(dest) && Visits(dest, source, requested, origins, wanted)
    ensures InOrder(dest, source, Requested(source, dest, origins, wanted))
    ensures forall p :: p in Requested(source, dest, origins, wanted) <==>
                        p in source && (p !in dest || (requested.Some? && IsWanted(dest, requested.value, p)))
  {
    MissingHeld(source, dest, origins);
    MissingInOrder(source, dest, origins);
    var ps := Available(source, wanted);
    assert forall i: nat :: i < |ps| ==> Chainable(dest, ps, i);
    Concatenated(dest, source, Missing(source, dest, origins), ps);
  }

  // ---- one pull ----

  // The event passes the gate: admissible time, verified provenance, a key trusted at that
  // position and bound to the origin.
  predicate Passes(r: Receiver, e: Event) {
    && Temporal(r, e.hlc) == None && IsSigned(e) && Provenance(r, e)
    && T.StandingAt(r.trust, e.keyRef.value, Some(e.seqNo)) == T.Active
    && T.NodeOf(r.trust, e.keyRef.value) == Some(e.origin)
  }

  ghost predicate Setting(dest: Admission, source: Log, r: Receiver) {
    && LogInv(dest.log) && LogInv(source) && SharedFrontier(dest.log, source)
    && dest.frozen == {} && dest.poisoned == {} && !dest.raised
    && forall p {:trigger Passes(r, source[p])} :: p in source && p !in dest.log ==> Passes(r, source[p])
  }

  // What lands at a source position.
  function Landed(dest: Log, source: Log, offer: set<string>, p: Pos): Event
    requires p in source
  {
    var e := Served(source[p], offer);
    if p in dest then (if dest[p].IsStub() && !e.IsStub() then Upgraded(dest[p], e) else dest[p]) else e
  }

  // A held stub that already carries the cleartext scope, met by its bytes: the append-only
  // trigger lets the scope arrive only together with the bytes, and refuses the upgrade.
  predicate Stuck(dest: Log, source: Log, offer: set<string>, p: Pos)
    requires p in source
  {
    p in dest && dest[p].IsStub() && dest[p].scopeRef.Some? && !Served(source[p], offer).IsStub()
  }

  // After the positions in `done` have been delivered.
  ghost predicate Delivered(dest: Admission, source: Log, offer: set<string>, s: Admission, done: set<Pos>) {
    && s.frozen == {} && s.poisoned == {} && s.rejected == dest.rejected && !s.raised
    && (forall p :: p in s.log <==> p in dest.log || p in done)
    && (forall p :: p in done ==> p in source && s.log[p] == Landed(dest.log, source, offer, p))
    && (forall p :: p in dest.log && p !in done ==> s.log[p] == dest.log[p])
  }

  lemma ServedVerifies(e: Event, offer: set<string>)
    requires Verify(e)
    ensures Verify(Served(e, offer)) && Committed(Served(e, offer)) == Committed(e)
    ensures var w := Served(e, offer); w.signature == e.signature && w.keyRef == e.keyRef && w.scheme == e.scheme
  {
  }

  lemma Accepted(r: Receiver, e: Event, offer: set<string>)
    requires Verify(e) && Passes(r, e) && (r.requested.Some? ==> offer <= r.requested.value)
    ensures JudgeNext(r, Served(e, offer)) == Append(false)
  {
    ServedVerifies(e, offer);
    var w := Served(e, offer);
    assert Committed(w).hlc == Committed(e).hlc && Committed(w).selfHash == Committed(e).selfHash;
    assert Committed(w).seqNo == Committed(e).seqNo && Committed(w).origin == Committed(e).origin;
  }

  lemma LandedKeepsId(dest: Admission, source: Log, r: Receiver, offer: set<string>, p: Pos)
    requires Setting(dest, source, r) && p in source
    ensures Landed(dest.log, source, offer, p).selfHash == source[p].selfHash
  {
    assert Stored(p, source[p]);
    ServedVerifies(source[p], offer);
    var w := Served(source[p], offer);
    assert Committed(w).selfHash == Committed(source[p]).selfHash;
    if p in dest.log {
      FrontierAgrees(dest.log, source, p);
      assert Committed(dest.log[p]).selfHash == Committed(source[p]).selfHash;
    }
  }

  // The next position of an origin chains onto what has been delivered so far.
  lemma NextChains(source: Log, log: Log, p: Pos)
    requires LogInv(source) && LogInv(log) && p in source && p !in log
    requires var q := Pos(p.origin, p.seqNo - 1);
             p.seqNo > 1 ==> q in log && q in source && log[q].selfHash == source[q].selfHash
    ensures Head(log, p.origin) == p.seqNo - 1 && source[p].prevHash == HeadHash(log, p.origin)
  {
    assert Stored(p, source[p]) && Chained(source, p);
    GapFree(log, p.origin, p.seqNo);
    GapFree(log, p.origin, p.seqNo - 1);
    HeadFacts(log, p.origin);
  }

  lemma SameHash(dest: Admission, source: Log, r: Receiver, offer: set<string>, s: Admission, done: set<Pos>, q: Pos)
    requires Setting(dest, source, r) && Delivered(dest, source, offer, s, done) && q in source && q in s.log
    ensures s.log[q].selfHash == source[q].selfHash
  {
    if q in done {
      LandedKeepsId(dest, source, r, offer, q);
    } else {
      FrontierAgrees(dest.log, source, q);
      assert Committed(dest.log[q]).selfHash == Committed(source[q]).selfHash;
    }
  }

  lemma AppendJudged(s: Admission, r: Receiver, e: Event)
    requires s.frozen == {} && s.poisoned == {} && JudgeNext(r, e) == Append(false)
    requires e.seqNo == Head(s.log, e.origin) + 1 && e.prevHash == HeadHash(s.log, e.origin)
    ensures Judge(s, r, e) == Append(false)
  {
  }

  // The next position of an origin is judged an append.
  lemma NextJudged(s: Admission, r: Receiver, e: Event, offer: set<string>)
    requires s.frozen == {} && s.poisoned == {} && Verify(e) && Passes(r, e)
    requires r.requested.Some? ==> offer <= r.requested.value
    requires Head(s.log, e.origin) == e.seqNo - 1 && e.prevHash == HeadHash(s.log, e.origin)
    ensures Judge(s, r, Served(e, offer)) == Append(false)
  {
    Accepted(r, e, offer);
    AppendJudged(s, r, Served(e, offer));
  }

  lemma DeliverNext(dest: Admission, source: Log, r: Receiver, offer: set<string>, s: Admission, done: set<Pos>, p: Pos)
    requires Setting(dest, source, r) && Delivered(dest, source, offer, s, done) && LogInv(s.log)
    requires r.requested.Some? ==> offer <= r.requested.value
    requires p in source && p !in s.log && (p.seqNo > 1 ==> Pos(p.origin, p.seqNo - 1) in s.log)
    ensures Judge(s, r, Served(source[p], offer)) == Append(false)
  {
    var q := Pos(p.origin, p.seqNo - 1);
    PositionOf(source, p);
    if p.seqNo > 1 { SameHash(dest, source, r, offer, s, done, q); }
    NextChains(source, s.log, p);
    GateOpen(dest, source, r, p);
    NextJudged(s, r, source[p], offer);
  }

  lemma PositionOf(source: Log, p: Pos)
    requires LogInv(source) && p in source
    ensures Verify(source[p]) && source[p].origin == p.origin && source[p].seqNo == p.seqNo
    ensures p.seqNo > 1 ==> Pos(p.origin, p.seqNo - 1) in source
  {
    assert Stored(p, source[p]) && Chained(source, p);
  }

  lemma GateOpen(dest: Admission, source: Log, r: Receiver, p: Pos)
    requires Setting(dest, source, r) && p in source && p !in dest.log
    ensures Passes(r, source[p])
  {
  }

  lemma ServedPosition(source: Log, p: Pos, offer: set<string>)
    requires AllStored(source) && p in source
    ensures var e := Served(source[p], offer); Pos(e.origin, e.seqNo) == p && Verify(e)
  {
    assert Stored(p, source[p]);
    ServedVerifies(source[p], offer);
  }

  lemma LandOne(dest: Admission, source: Log, r: Receiver, offer: set<string>, s: Admission, done: set<Pos>, p: Pos)
    requires Delivered(dest, source, offer, s, done) && p in source && p !in s.log
    requires var e := Served(source[p], offer); Pos(e.origin, e.seqNo) == p && Judge(s, r, e) == Append(false)
    ensures Delivered(dest, source, offer, Admit(s, r, Served(source[p], offer)), done + {p})
  {
    var e := Served(source[p], offer);
    var s' := Perform(s, r, e, Append(false));
    assert s'.log == s.log[p := e] && s'.rejected == s.rejected;
    assert p !in dest.log && Landed(dest.log, source, offer, p) == e;
  }

  lemma RedeliveryJudged(s: Admission, r: Receiver, e: Event, p: Pos)
    requires s.frozen == {} && s.poisoned == {} && p == Pos(e.origin, e.seqNo) && p in s.log
    requires e.seqNo <= Head(s.log, e.origin) && s.log[p].id == e.id && Verify(e)
    requires !e.IsStub() ==> !Unrequested(r, e)
    ensures Judge(s, r, e) ==
            if s.log[p].IsStub() && !e.IsStub()
              then (if s.log[p].scopeRef.Some? then Raise else Upgrade) else Redelivered
  {
  }

  lemma ServedRequested(r: Receiver, e: Event, offer: set<string>)
    requires r.requested.Some? ==> offer <= r.requested.value
    ensures !Served(e, offer).IsStub() ==> !Unrequested(r, Served(e, offer))
  {
  }

  // A position already held is upgraded when the bytes came along, unless it is stuck, and
  // left alone otherwise.
  function HeldVerdict(dest: Log, source: Log, offer: set<string>, p: Pos): Verdict
    requires p in source && p in dest
  {
    if Stuck(dest, source, offer, p) then Raise
    else if dest[p].IsStub() && !Served(source[p], offer).IsStub() then Upgrade
    else Redelivered
  }

  lemma HeldJudged(dest: Admission, source: Log, r: Receiver, offer: set<string>, s: Admission, done: set<Pos>, p: Pos)
    requires Setting(dest, source, r) && Delivered(dest, source, offer, s, done) && LogInv(s.log)
    requires r.requested.Some? ==> offer <= r.requested.value
    requires p in source && p in dest.log && p !in done
    ensures Judge(s, r, Served(source[p], offer)) == HeldVerdict(dest.log, source, offer, p)
  {
    var e := Served(source[p], offer);
    ServedPosition(source, p, offer);
    GapFree(s.log, p.origin, p.seqNo);
    SameId(dest.log, source, offer, p);
    ServedRequested(r, source[p], offer);
    RedeliveryJudged(s, r, e, p);
  }

  lemma SameId(dest: Log, source: Log, offer: set<string>, p: Pos)
    requires LogInv(dest) && LogInv(source) && SharedFrontier(dest, source) && p in source && p in dest
    ensures Served(source[p], offer).id == dest[p].id
  {
    FrontierAgrees(dest, source, p);
    assert Committed(dest[p]).id == Committed(source[p]).id;
  }

  lemma LandHeld(dest: Admission, source: Log, r: Receiver, offer: set<string>, s: Admission, done: set<Pos>, p: Pos)
    requires Delivered(dest, source, offer, s, done) && p in source && p in dest.log && p !in done
    requires !Stuck(dest.log, source, offer, p)
    requires var e := Served(source[p], offer);
      Pos(e.origin, e.seqNo) == p && Judge(s, r, e) == HeldVerdict(dest.log, source, offer, p)
    ensures Delivered(dest, source, offer, Admit(s, r, Served(source[p], offer)), done + {p})
  {
    LandVerdict(dest, source, r, offer, s, done, p, HeldVerdict(dest.log, source, offer, p));
  }

  lemma LandVerdict(dest: Admission, source: Log, r: Receiver, offer: set<string>, s: Admission, done: set<Pos>, p: Pos,
                    v: Verdict)
    requires Delivered(dest, source, offer, s, done) && p in source && p in dest.log && p !in done
    requires !Stuck(dest.log, source, offer, p) && v == HeldVerdict(dest.log, source, offer, p)
    requires var e := Served(source[p], offer); Pos(e.origin, e.seqNo) == p
    ensures Delivered(dest, source, offer, Perform(s, r, Served(source[p], offer), v), done + {p})
  {
    assert Perform(s, r, Served(source[p], offer), v).log == s.log[p := Landed(dest.log, source, offer, p)];
  }

  lemma StuckRaises(dest: Admission, source: Log, r: Receiver, offer: set<string>, s: Admission, done: set<Pos>, p: Pos)
    requires Setting(dest, source, r) && Delivered(dest, source, offer, s, done) && LogInv(s.log)
    requires r.requested.Some? ==> offer <= r.requested.value
    requires p in source && p !in done && Stuck(dest.log, source, offer, p)
    ensures Admit(s, r, Served(source[p], offer)).raised
  {
    HeldJudged(dest, source, r, offer, s, done, p);
    RaiseAdmits(s, r, Served(source[p], offer));
  }

  lemma RaiseAdmits(s: Admission, r: Receiver, e: Event)
    requires Judge(s, r, e).Raise?
    ensures Admit(s, r, e).raised
  {
  }

  // The first n of the positions.
  function Taken(ps: seq<Pos>, n: nat): set<Pos>
    requires n <= |ps|
  {
    if n == 0 then {} else Taken(ps, n - 1) + {ps[n - 1]}
  }

  lemma {:induction false} TakenMeans(ps: seq<Pos>, n: nat)
    requires n <= |ps|
    ensures forall p :: p in Taken(ps, n) <==> p in ps[..n]
  {
    if n > 0 {
      TakenMeans(ps, n - 1);
      assert ps[..n] == ps[..n - 1] + [ps[n - 1]];
    }
  }

  // The positions asked for, in turn, and the events served for them.
  ghost predicate Batch(dest: Log, source: Log, offer: set<string>, ps: seq<Pos>, batch: seq<Event>) {
    && |ps| == |batch|
    && forall i: nat {:trigger Turn(dest, source, ps, i)} :: i < |ps| ==>
         Turn(dest, source, ps, i) && batch[i] == Served(source[ps[i]], offer)
  }

  // None of the first n positions is stuck.
  ghost predicate Clear(dest: Log, source: Log, offer: set<string>, ps: seq<Pos>, n: nat)
    requires n <= |ps|
  {
    forall i: nat {:trigger Turn(dest, source, ps, i)} :: i < n ==>
      Turn(dest, source, ps, i) && !Stuck(dest, source, offer, ps[i])
  }

  lemma {:induction false} DeliverAll(dest: Admission, source: Log, r: Receiver, offer: set<string>, ps: seq<Pos>,
                                      batch: seq<Event>, n: nat)
    requires Setting(dest, source, r) && Batch(dest.log, source, offer, ps, batch)
    requires n <= |ps| && Clear(dest.log, source, offer, ps, n)
    requires r.requested.Some? ==> offer <= r.requested.value
    ensures Delivered(dest, source, offer, AdmitAll(dest, r, batch[..n]), Taken(ps, n))
  {
    if n == 0 {
      assert batch[..0] == [];
    } else {
      DeliverAll(dest, source, r, offer, ps, batch, n - 1);
      BatchKeepsLog(dest, r, batch[..n - 1]);
      TurnReady(dest.log, source, offer, ps, batch, n - 1);
      ClearAt(dest.log, source, offer, ps, n, n - 1);
      AdmitNext(dest, r, batch, n - 1);
      DeliverTurn(dest, source, r, offer, AdmitAll(dest, r, batch[..n - 1]), Taken(ps, n - 1), ps[n - 1],
                  batch[n - 1], AdmitAll(dest, r, batch[..n]), Taken(ps, n));
    }
  }

  lemma ClearMore(dest: Log, source: Log, offer: set<string>, ps: seq<Pos>, n: nat)
    requires n < |ps| && Clear(dest, source, offer, ps, n) && Turn(dest, source, ps, n)
    requires !Stuck(dest, source, offer, ps[n])
    ensures Clear(dest, source, offer, ps, n + 1)
  {
    forall i: nat {:trigger Turn(dest, source, ps, i)} | i < n + 1
      ensures Turn(dest, source, ps, i) && !Stuck(dest, source, offer, ps[i])
    {
      if i < n { ClearAt(dest, source, offer, ps, n, i); }
    }
  }

  // Its predecessor is held by the time it comes.
  predicate Due(dest: Log, done: set<Pos>, p: Pos) {
    p in dest || p.seqNo <= 1 || Pos(p.origin, p.seqNo - 1) in dest || Pos(p.origin, p.seqNo - 1) in done
  }

  lemma DeliverTurn(dest: Admission, source: Log, r: Receiver, offer: set<string>, s: Admission, done: set<Pos>, p: Pos,
                    e: Event, s': Admission, done': set<Pos>)
    requires Setting(dest, source, r) && Delivered(dest, source, offer, s, done) && LogInv(s.log)
    requires r.requested.Some? ==> offer <= r.requested.value
    requires p in source && p !in done && !Stuck(dest.log, source, offer, p)
    requires Due(dest.log, done, p)
    requires e == Served(source[p], offer) && s' == Admit(s, r, e) && done' == done + {p}
    ensures Delivered(dest, source, offer, s', done')
  {
    DeliverStep(dest, source, r, offer, s, done, p);
  }

  lemma TurnReady(dest: Log, source: Log, offer: set<string>, ps: seq<Pos>, batch: seq<Event>, i: nat)
    requires Batch(dest, source, offer, ps, batch) && i < |ps|
    ensures var p := ps[i];
      && p in source && p !in Taken(ps, i) && batch[i] == Served(source[p], offer)
      && Due(dest, Taken(ps, i), p)
  {
    assert Turn(dest, source, ps, i);
    TakenMeans(ps, i);
  }

  lemma ClearAt(dest: Log, source: Log, offer: set<string>, ps: seq<Pos>, n: nat, i: nat)
    requires i < n <= |ps| && Clear(dest, source, offer, ps, n)
    ensures Turn(dest, source, ps, i) && !Stuck(dest, source, offer, ps[i])
  {
    assert Turn(dest, source, ps, i);
  }

  // The first stuck position stops the batch for good.
  lemma DeliverStuck(dest: Admission, source: Log, r: Receiver, offer: set<string>, ps: seq<Pos>, batch: seq<Event>,
                     n: nat)
    requires Setting(dest, source, r) && Batch(dest.log, source, offer, ps, batch)
    requires n < |ps| && Clear(dest.log, source, offer, ps, n) && ps[n] in source
    requires Stuck(dest.log, source, offer, ps[n])
    requires r.requested.Some? ==> offer <= r.requested.value
    ensures AdmitAll(dest, r, batch).raised
  {
    DeliverAll(dest, source, r, offer, ps, batch, n);
    BatchKeepsLog(dest, r, batch[..n]);
    TurnReady(dest.log, source, offer, ps, batch, n);
    StuckRaises(dest, source, r, offer, AdmitAll(dest, r, batch[..n]), Taken(ps, n), ps[n]);
    AdmitNext(dest, r, batch, n);
    RaisedLater(dest, r, batch, n + 1);
  }

  lemma {:induction false} FirstStuck(dest: Log, source: Log, offer: set<string>, ps: seq<Pos>, n: nat) returns (m: nat)
    requires n <= |ps| && forall i: nat {:trigger Turn(dest, source, ps, i)} :: i < |ps| ==> Turn(dest, source, ps, i)
    ensures m <= n && Clear(dest, source, offer, ps, m)
    ensures m < n ==> Turn(dest, source, ps, m) && Stuck(dest, source, offer, ps[m])
  {
    if n == 0 {
      m := 0;
    } else {
      m := FirstStuck(dest, source, offer, ps, n - 1);
      if m == n - 1 {
        assert Turn(dest, source, ps, m);
        if !Stuck(dest, source, offer, ps[m]) {
          ClearMore(dest, source, offer, ps, m);
          m := n;
        }
      }
    }
  }

  ghost predicate Turn(dest: Log, source: Log, ps: seq<Pos>, i: nat)
    requires i < |ps|
  {
    && ps[i] in source && ps[i] !in ps[..i] && Chainable(dest, ps, i)
  }

  lemma OrderAt(dest: Log, source: Log, ps: seq<Pos>, i: nat)
    requires InOrder(dest, source, ps) && i < |ps|
    ensures Turn(dest, source, ps, i)
  {
    assert Chainable(dest, ps, i);
  }

  lemma DeliverStep(dest: Admission, source: Log, r: Receiver, offer: set<string>, s: Admission, done: set<Pos>, p: Pos)
    requires Setting(dest, source, r) && Delivered(dest, source, offer, s, done) && LogInv(s.log)
    requires r.requested.Some? ==> offer <= r.requested.value
    requires p in source && p !in done
    requires Due(dest.log, done, p)
    requires !Stuck(dest.log, source, offer, p)
    ensures Delivered(dest, source, offer, Admit(s, r, Served(source[p], offer)), done + {p})
  {
    ServedPosition(source, p, offer);
    if p in dest.log {
      HeldJudged(dest, source, r, offer, s, done, p);
      LandHeld(dest, source, r, offer, s, done, p);
    } else {
      DeliverNext(dest, source, r, offer, s, done, p);
      LandOne(dest, source, r, offer, s, done, p);
    }
  }

  // ---- the result ----

  // The positions whose bytes a pull brings: full v1 envelopes past the frontier, and
  // payloads whose scope is offered, past the frontier or backfilling a requested stub.
  ghost predicate Brought(dest: Log, source: Log, granted: set<string>, requested: Option<set<string>>, p: Pos) {
    && p in source && source[p].payload.Some?
    && if p !in dest then source[p].version < 2 || ScopeOffered(source[p], Offer(granted, requested))
       else dest[p].IsStub() && requested.Some? && ScopeOffered(source[p], Offer(granted, requested))
  }

  predicate ScopeOffered(e: Event, offer: set<string>) {
    e.scopeRef.Some? && e.scopeRef.value in offer
  }

  lemma WantedMatches(dest: Log, source: Log, granted: set<string>, scopes: set<string>, p: Pos)
    requires LogInv(dest) && LogInv(source) && SharedFrontier(dest, source) && p in source && p in dest
    requires dest[p].IsStub() && ScopeOffered(source[p], Offer(granted, Some(scopes)))
    ensures IsWanted(dest, scopes, p)
  {
    FrontierAgrees(dest, source, p);
    assert Stored(p, source[p]);
    assert Committed(dest[p]).scopeDigest == Committed(source[p]).scopeDigest;
  }

  lemma VersionOneUnwanted(dest: Log, source: Log, scopes: set<string>, p: Pos)
    requires LogInv(dest) && LogInv(source) && SharedFrontier(dest, source) && p in source && p in dest
    requires IsWanted(dest, scopes, p)
    ensures source[p].version == 2
  {
    FrontierAgrees(dest, source, p);
    assert Stored(p, source[p]) && Stored(p, dest[p]);
    assert Committed(dest[p]).version == Committed(source[p]).version;
  }

  // No stub this pull brings the bytes of already carries its cleartext scope.
  ghost predicate Unplanted(dest: Log, source: Log, granted: set<string>, requested: Option<set<string>>) {
    forall p :: Brought(dest, source, granted, requested, p) && p in dest ==> dest[p].scopeRef == None
  }

  lemma StuckIsPlanted(dest: Log, source: Log, r: Receiver, granted: set<string>, p: Pos)
    requires LogInv(dest) && LogInv(source) && SharedFrontier(dest, source) && p in source
    requires p in dest ==> r.requested.Some? && IsWanted(dest, r.requested.value, p)
    ensures Stuck(dest, source, Offer(granted, r.requested), p) <==>
            Brought(dest, source, granted, r.requested, p) && p in dest && dest[p].scopeRef.Some?
  {
    if p in dest { VersionOneUnwanted(dest, source, r.requested.value, p); }
  }

  lemma PullTurns(dest: Log, source: Log, r: Receiver, granted: set<string>, origins: seq<string>, wanted: seq<Pos>)
    returns (ps: seq<Pos>, batch: seq<Event>)
    requires LogInv(source) && LogInv(dest) && Visits(dest, source, r.requested, origins, wanted)
    ensures ps == Requested(source, dest, origins, wanted)
    ensures Batch(dest, source, Offer(granted, r.requested), ps, batch)
    ensures forall i :: 0 <= i < |ps| ==> ps[i] in source
    ensures batch == ServeBatch(Read(source, ps), Offer(granted, r.requested))
  {
    ps := Requested(source, dest, origins, wanted);
    RequestedInOrder(dest, source, r.requested, origins, wanted);
    MissingHeld(source, dest, origins);
    forall i: nat | i < |ps| ensures Turn(dest, source, ps, i) { OrderAt(dest, source, ps, i); }
    batch := ServeBatch(Read(source, ps), Offer(granted, r.requested));
  }

  // A pull commits exactly when it meets no such stub; otherwise the whole of it is taken back.
  lemma PullLands(dest: Admission, source: Log, r: Receiver, granted: set<string>, origins: seq<string>,
                  wanted: seq<Pos>)
    requires Setting(dest, source, r) && Visits(dest.log, source, r.requested, origins, wanted)
    ensures var s := Pulled(dest, source, r, granted, origins, wanted);
      && (!s.raised <==> Unplanted(dest.log, source, granted, r.requested))
      && (s.raised ==> s == dest.(raised := true))
  {
    var ps, batch := PullTurns(dest.log, source, r, granted, origins, wanted);
    RequestedInOrder(dest.log, source, r.requested, origins, wanted);
    BatchLands(dest, source, r, granted, ps, batch);
  }

  lemma BatchLands(dest: Admission, source: Log, r: Receiver, granted: set<string>, ps: seq<Pos>, batch: seq<Event>)
    requires Setting(dest, source, r) && Batch(dest.log, source, Offer(granted, r.requested), ps, batch)
    requires forall p :: p in ps <==>
             p in source && (p !in dest.log || (r.requested.Some? && IsWanted(dest.log, r.requested.value, p)))
    ensures AdmitAll(dest, r, batch).raised <==> !Unplanted(dest.log, source, granted, r.requested)
  {
    var offer := Offer(granted, r.requested);
    var m := FirstOf(dest.log, source, offer, ps, batch);
    if m < |ps| {
      DeliverStuck(dest, source, r, offer, ps, batch, m);
      OnePlanted(dest.log, source, r, granted, ps, m);
    } else {
      NotRaised(dest, source, r, offer, ps, batch);
      NonePlanted(dest.log, source, r, granted, ps);
    }
  }

  lemma FirstOf(dest: Log, source: Log, offer: set<string>, ps: seq<Pos>, batch: seq<Event>) returns (m: nat)
    requires Batch(dest, source, offer, ps, batch)
    ensures m <= |ps| && Clear(dest, source, offer, ps, m)
    ensures m < |ps| ==> ps[m] in source && Stuck(dest, source, offer, ps[m])
  {
    m := FirstStuck(dest, source, offer, ps, |ps|);
  }

  lemma NotRaised(dest: Admission, source: Log, r: Receiver, offer: set<string>, ps: seq<Pos>, batch: seq<Event>)
    requires Setting(dest, source, r) && Batch(dest.log, source, offer, ps, batch)
    requires Clear(dest.log, source, offer, ps, |ps|)
    requires r.requested.Some? ==> offer <= r.requested.value
    ensures !AdmitAll(dest, r, batch).raised
  {
    DeliverAll(dest, source, r, offer, ps, batch, |ps|);
    assert batch[..|ps|] == batch;
  }

  lemma OnePlanted(dest: Log, source: Log, r: Receiver, granted: set<string>, ps: seq<Pos>, m: nat)
    requires LogInv(dest) && LogInv(source) && SharedFrontier(dest, source)
    requires forall p :: p in ps ==>
               p in source && (p !in dest || (r.requested.Some? && IsWanted(dest, r.requested.value, p)))
    requires m < |ps| && ps[m] in source && Stuck(dest, source, Offer(granted, r.requested), ps[m])
    ensures !Unplanted(dest, source, granted, r.requested)
  {
    assert ps[m] in ps;
    StuckIsPlanted(dest, source, r, granted, ps[m]);
  }

  lemma NonePlanted(dest: Log, source: Log, r: Receiver, granted: set<string>, ps: seq<Pos>)
    requires LogInv(dest) && LogInv(source) && SharedFrontier(dest, source)
    requires Clear(dest, source, Offer(granted, r.requested), ps, |ps|)
    requires forall p :: r.requested.Some? && IsWanted(dest, r.requested.value, p) && p in source ==> p in ps
    ensures Unplanted(dest, source, granted, r.requested)
  {
    forall p | Brought(dest, source, granted, r.requested, p) && p in dest ensures dest[p].scopeRef == None {
      NotPlanted(dest, source, r, granted, ps, p);
    }
  }

  lemma NotPlanted(dest: Log, source: Log, r: Receiver, granted: set<string>, ps: seq<Pos>, p: Pos)
    requires LogInv(dest) && LogInv(source) && SharedFrontier(dest, source)
    requires Clear(dest, source, Offer(granted, r.requested), ps, |ps|)
    requires r.requested.Some? && IsWanted(dest, r.requested.value, p) && p in source ==> p in ps
    requires Brought(dest, source, granted, r.requested, p) && p in dest
    ensures dest[p].scopeRef == None
  {
    WantedMatches(dest, source, granted, r.requested.value, p);
    var i :| 0 <= i < |ps| && ps[i] == p;
    assert Turn(dest, source, ps, i);
    StuckIsPlanted(dest, source, r, granted, p);
  }

  lemma DeliverServed(dest: Admission, source: Log, r: Receiver, offer: set<string>, ps: seq<Pos>, batch: seq<Event>)
    requires Setting(dest, source, r) && Batch(dest.log, source, offer, ps, batch)
    requires Clear(dest.log, source, offer, ps, |ps|)
    requires r.requested.Some? ==> offer <= r.requested.value
    ensures var s := Committing(dest, r, batch);
      !s.raised && LogInv(s.log) && Extends(dest.log, s.log) && Delivered(dest, source, offer, s, Taken(ps, |ps|))
  {
    BatchKeepsLog(dest, r, batch);
    DeliverAll(dest, source, r, offer, ps, batch, |ps|);
    assert batch[..|ps|] == batch;
  }

  function Positions(source: Log, dest: Log, origins: seq<string>, wanted: seq<Pos>): set<Pos> {
    var ps := Requested(source, dest, origins, wanted);
    Taken(ps, |ps|)
  }

  lemma PositionsMean(source: Log, dest: Log, origins: seq<string>, wanted: seq<Pos>)
    ensures forall p :: p in Positions(source, dest, origins, wanted) <==> p in Requested(source, dest, origins, wanted)
  {
    var ps := Requested(source, dest, origins, wanted);
    TakenMeans(ps, |ps|);
    assert ps[..|ps|] == ps;
  }

  lemma PullDelivers(dest: Admission, source: Log, r: Receiver, granted: set<string>, origins: seq<string>,
                     wanted: seq<Pos>)
    requires Setting(dest, source, r) && Visits(dest.log, source, r.requested, origins, wanted)
    requires Unplanted(dest.log, source, granted, r.requested)
    ensures var s := Pulled(dest, source, r, granted, origins, wanted);
      && LogInv(s.log) && Extends(dest.log, s.log)
      && Delivered(dest, source, Offer(granted, r.requested), s, Positions(source, dest.log, origins, wanted))
  {
    var offer := Offer(granted, r.requested);
    var ps, batch := PullTurns(dest.log, source, r, granted, origins, wanted);
    RequestedInOrder(dest.log, source, r.requested, origins, wanted);
    var m := FirstStuck(dest.log, source, offer, ps, |ps|);
    if m < |ps| { StuckIsPlanted(dest.log, source, r, granted, ps[m]); }
    DeliverServed(dest, source, r, offer, ps, batch);
  }

  // A pull that commits takes the frontier to the pointwise maximum and refuses nothing; the
  // payloads that become held are exactly the ones brought, byte for byte the source's.
  lemma PullReachesSource(dest: Admission, source: Log, r: Receiver, granted: set<string>, origins: seq<string>,
                          wanted: seq<Pos>)
    requires Setting(dest, source, r) && Visits(dest.log, source, r.requested, origins, wanted)
    requires Unplanted(dest.log, source, granted, r.requested)
    ensures var s := Pulled(dest, source, r, granted, origins, wanted);
      && LogInv(s.log) && Extends(dest.log, s.log) && s.rejected == dest.rejected && s.frozen == {} && !s.raised
      && (forall p :: p in s.log <==> p in dest.log || p in source)
      && (forall p :: p in s.log && s.log[p].payload.Some? <==>
                      (p in dest.log && dest.log[p].payload.Some?)
                      || Brought(dest.log, source, granted, r.requested, p))
      && (forall p :: Brought(dest.log, source, granted, r.requested, p) ==> s.log[p].payload == source[p].payload)
  {
    PullDelivers(dest, source, r, granted, origins, wanted);
    RequestedInOrder(dest.log, source, r.requested, origins, wanted);
    PositionsMean(source, dest.log, origins, wanted);
    PullOutcome(dest, source, r, granted, Pulled(dest, source, r, granted, origins, wanted),
                Positions(source, dest.log, origins, wanted));
  }

  lemma PullOutcome(dest: Admission, source: Log, r: Receiver, granted: set<string>, s: Admission, ps: set<Pos>)
    requires Setting(dest, source, r) && Delivered(dest, source, Offer(granted, r.requested), s, ps)
    requires forall p :: p in ps <==>
             p in source && (p !in dest.log || (r.requested.Some? && IsWanted(dest.log, r.requested.value, p)))
    ensures forall p :: p in s.log <==> p in dest.log || p in source
    ensures forall p :: p in s.log && s.log[p].payload.Some? <==>
                        (p in dest.log && dest.log[p].payload.Some?)
                        || Brought(dest.log, source, granted, r.requested, p)
    ensures forall p :: Brought(dest.log, source, granted, r.requested, p) ==>
              p in s.log && s.log[p].payload == source[p].payload
  {
    forall p
      ensures p in s.log && s.log[p].payload.Some? <==>
              (p in dest.log && dest.log[p].payload.Some?) || Brought(dest.log, source, granted, r.requested, p)
      ensures Brought(dest.log, source, granted, r.requested, p) ==> p in s.log && s.log[p].payload == source[p].payload
    {
      if p in source && p in dest.log && dest.log[p].IsStub() && r.requested.Some? {
        if ScopeOffered(source[p], Offer(granted, r.requested)) {
          WantedMatches(dest.log, source, granted, r.requested.value, p);
        }
        if p in ps { VersionOneUnwanted(dest.log, source, r.requested.value, p); }
      }
    }
  }

  // The bytes a pull brings are those of v1 envelopes and of scopes both granted by the server
  // and, where the receiver names scopes, named by it: all such past the frontier, and on
  // held stubs only where the receiver names scopes.
  lemma PullStaysWithinGrant(dest: Admission, source: Log, r: Receiver, granted: set<string>, origins: seq<string>,
                             wanted: seq<Pos>, p: Pos)
    requires Setting(dest, source, r) && Visits(dest.log, source, r.requested, origins, wanted)
    requires Unplanted(dest.log, source, granted, r.requested) && (p in dest.log ==> dest.log[p].payload == None)
    ensures var s := Pulled(dest, source, r, granted, origins, wanted);
      p in s.log && s.log[p].payload.Some? <==>
      && p in source && source[p].payload.Some?
      && ((source[p].version < 2 && p !in dest.log)
          || (source[p].scopeRef.Some? && source[p].scopeRef.value in granted
              && (if r.requested.Some? then source[p].scopeRef.value in r.requested.value else p !in dest.log)))
  {
    PullReachesSource(dest, source, r, granted, origins, wanted);
    BroughtWithinGrant(dest.log, source, granted, r.requested, p);
  }

  lemma BroughtWithinGrant(dest: Log, source: Log, granted: set<string>, requested: Option<set<string>>, p: Pos)
    requires p in dest ==> dest[p].payload == None
    ensures Brought(dest, source, granted, requested, p) <==>
      && p in source && source[p].payload.Some?
      && ((source[p].version < 2 && p !in dest)
          || (source[p].scopeRef.Some? && source[p].scopeRef.value in granted
              && (if requested.Some? then source[p].scopeRef.value in requested.value else p !in dest)))
  {
  }

  // A pull asks for each position at most once, and for none whose bytes it has.
  lemma AsksForNothingHeld(dest: Log, source: Log, requested: Option<set<string>>, origins: seq<string>,
                           wanted: seq<Pos>)
    requires LogInv(source) && LogInv(dest) && Visits(dest, source, requested, origins, wanted)
    ensures var ps := Requested(source, dest, origins, wanted);
      Distinct(ps) && forall p :: p in ps && p in dest ==> dest[p].payload == None
  {
    RequestedInOrder(dest, source, requested, origins, wanted);
  }

  // The receiver's frontier is the pointwise maximum of the two once the pull commits.
  lemma FrontierIsMaximum(dest: Admission, source: Log, r: Receiver, granted: set<string>, origins: seq<string>,
                          wanted: seq<Pos>, o: string)
    requires Setting(dest, source, r) && Visits(dest.log, source, r.requested, origins, wanted)
    ensures Head(Pulled(dest, source, r, granted, origins, wanted).log, o) ==
            if Unplanted(dest.log, source, granted, r.requested)
              then Max(Head(dest.log, o), Head(source, o)) else Head(dest.log, o)
  {
    PullLands(dest, source, r, granted, origins, wanted);
    if Unplanted(dest.log, source, granted, r.requested) {
      PullReachesSource(dest, source, r, granted, origins, wanted);
      UnionFrontier(dest.log, source, Pulled(dest, source, r, granted, origins, wanted).log, o);
    }
  }

  // How such a stub comes to be held: an envelope that passes the gate is stored as it was
  // delivered, and one without bytes keeps a cleartext scope a relay has attached.
  lemma RelayPlants(s: Admission, r: Receiver, e: Event)
    requires s.frozen == {} && s.poisoned == {} && Verify(e) && Passes(r, e) && e.IsStub() && e.scopeRef.Some?
    requires e.seqNo == Head(s.log, e.origin) + 1 && e.prevHash == HeadHash(s.log, e.origin)
    ensures var row := Admit(s, r, e).log[Pos(e.origin, e.seqNo)]; row == e && row.IsStub() && row.scopeRef.Some?
  {
    Accepted(r, e, {});
    AppendJudged(s, r, e);
    AppendStores(s, r, e, Judge(s, r, e));
  }

  lemma AppendStores(s: Admission, r: Receiver, e: Event, v: Verdict)
    requires v == Append(false)
    ensures Perform(s, r, e, v).log == s.log[Pos(e.origin, e.seqNo) := e]
  {
  }

  lemma UnionFrontier(a: Log, b: Log, c: Log, o: string)
    requires LogInv(a) && LogInv(b) && LogInv(c) && forall p :: p in c <==> p in a || p in b
    ensures Head(c, o) == Max(Head(a, o), Head(b, o))
  {
    HeadFacts(a, o);
    HeadFacts(b, o);
    HeadFacts(c, o);
    GapFree(c, o, Head(a, o));
    GapFree(c, o, Head(b, o));
    GapFree(a, o, Head(c, o));
    GapFree(b, o, Head(c, o));
  }
}
