// Configurations, proven succession and the three-state receipt verifier
// (kawa/domain/authority.py). Two walks judge one store: backward over a configuration's
// ancestry, forward from a key's genesis.

module Authority {
  import opened Prelude
  import opened Text
  import opened Canonical
  import opened Vocabulary
  import T = Trust

  datatype Standing = VALID | INVALID | INCOMPLETE

  // The key registry, reduced to what it decides: which attestations verify.
  datatype Attestation = Attestation(statement: string, signature: string, key: string, scheme: string)
  type Keyring = set<Attestation>

  type Store = map<string, Configuration>

  ghost predicate Indexed(store: Store) { forall d :: d in store ==> store[d].digest == d }

  function Added(store: Store, c: Configuration): Store { store[c.digest := c] }

  // ---- canonical coordinates ----

  // Python's sorted() over text.
  function Insert(x: string, s: seq<string>): seq<string> {
    if s == [] || x == s[0] || Before(x, s[0]) then [x] + s else [s[0]] + Insert(x, s[1..])
  }

  function Sorted(s: seq<string>): seq<string> {
    if s == [] then [] else Insert(s[0], Sorted(s[1..]))
  }

  predicate HasDuplicates(s: seq<string>) { exists i, j :: 0 <= i < j < |s| && s[i] == s[j] }

  function CoordinateJson(c: Configuration): Json {
    Cons(Str(c.authorityKey),
         Cons(Number(c.epoch), Cons(Strings(Sorted(c.members)), Cons(Number(c.quorum), OptionJson(c.prior)))))
  }

  function Coordinate(c: Configuration): string {
    Digest(CoordinateJson(c))
  }

  predicate Bound(c: Configuration) {
    !HasDuplicates(c.members) && Coordinate(c) == c.digest && 1 <= c.quorum <= |c.members|
  }

  lemma {:induction false} InsertKeeps(x: string, s: seq<string>)
    ensures multiset(Insert(x, s)) == multiset{x} + multiset(s) && |Insert(x, s)| == |s| + 1
  {
    if s != [] && x != s[0] && !Before(x, s[0]) {
      InsertKeeps(x, s[1..]);
      assert s == [s[0]] + s[1..];
    }
  }

  lemma {:induction false} SortedKeeps(s: seq<string>)
    ensures multiset(Sorted(s)) == multiset(s) && |Sorted(s)| == |s|
  {
    if s != [] {
      SortedKeeps(s[1..]);
      InsertKeeps(s[0], Sorted(s[1..]));
      assert s == [s[0]] + s[1..];
    }
  }

  // A coordinate binds everything it covers: two configurations that share one differ at
  // most in the order their members are written and in the attached proof.
  lemma CoordinateBinds(a: Configuration, b: Configuration)
    requires Coordinate(a) == Coordinate(b)
    ensures a.authorityKey == b.authorityKey && a.epoch == b.epoch && a.quorum == b.quorum && a.prior == b.prior
    ensures multiset(a.members) == multiset(b.members)
  {
    DigestInjective(CoordinateJson(a), CoordinateJson(b));
    StringsInjective(Sorted(a.members), Sorted(b.members));
    SortedKeeps(a.members);
    SortedKeeps(b.members);
  }

  // ---- proofs ----

  predicate Counts(p: Proof, statement: string, allowed: seq<string>, keys: Keyring, k: string) {
    && p.Signed? && k in allowed
    && exists i :: 0 <= i < |p.signers| && i < |p.signatures| && p.signers[i] == k
                   && p.signatures[i].Some? && Attestation(statement, p.signatures[i].value, k, "ed25519") in keys
  }

  // None: structurally non-conforming. Otherwise the distinct allowed signers that verify.
  function ValidSigners(p: Proof, statement: string, allowed: seq<string>, keys: Keyring): (r: Option<set<string>>)
    ensures r.Some? ==> forall k :: k in r.value <==> Counts(p, statement, allowed, keys, k)
  {
    if !p.Signed? || |p.signers| != |p.signatures| then None
    else Some(set i | 0 <= i < |p.signers| && Counts(p, statement, allowed, keys, p.signers[i]) :: p.signers[i])
  }

  method CollectSigners(p: Proof, statement: string, allowed: seq<string>, keys: Keyring)
    returns (r: Option<set<string>>)
    ensures r == ValidSigners(p, statement, allowed, keys)
  {
    if !p.Signed? || |p.signers| != |p.signatures| {
      return None;
    }
    var valid: set<string> := {};
    for i := 0 to |p.signers|
      invariant valid == set j | 0 <= j < i && p.signers[j] in allowed && p.signatures[j].Some?
                                 && Attestation(statement, p.signatures[j].value, p.signers[j], "ed25519") in keys ::
                                    p.signers[j]
    {
      if p.signers[i] in allowed && p.signatures[i].Some?
         && Attestation(statement, p.signatures[i].value, p.signers[i], "ed25519") in keys {
        valid := valid + {p.signers[i]};
      }
    }
    r := Some(valid);
    assert valid == ValidSigners(p, statement, allowed, keys).value;
  }

  // ---- facial validity ----

  predicate FacialSuccessor(c: Configuration, parent: Configuration, keys: Keyring) {
    && Bound(c)
    && multiset(c.members) == multiset(parent.members)
    && c.epoch == parent.epoch + 1
    && var signers := ValidSigners(c.proof, c.digest, parent.members, keys);
    && signers.Some? && |signers.value| >= parent.quorum
  }

  predicate FacialGenesis(c: Configuration, keys: Keyring) {
    && Bound(c) && c.epoch == 0
    && ValidSigners(c.proof, c.digest, c.members, keys) == Some(set m | m in c.members)
  }

  function GenesisOf(store: Store, key: string, keys: Keyring): set<string> {
    set d | d in store && store[d].authorityKey == key && store[d].prior == None && FacialGenesis(store[d], keys)
  }

  function SuccessorsOf(store: Store, parent: Configuration, keys: Keyring): set<string> {
    set d | d in store && store[d].prior == Some(parent.digest) && FacialSuccessor(store[d], parent, keys)
  }

  // ---- the same, on members and attestations ----

  // The member's key attests the statement, under some signature.
  ghost predicate Attests(m: string, statement: string, keys: Keyring) {
    exists s :: Attestation(statement, s, m, "ed25519") in keys
  }

  ghost function Attesting(members: seq<string>, statement: string, keys: Keyring): set<string> {
    set m | m in members && Attests(m, statement, keys)
  }

  // Members are distinct, a quorum of them exists, and the digest is the coordinate.
  predicate Sound(c: Configuration) {
    Distinct(c.members) && 1 <= c.quorum <= |c.members| && c.digest == Coordinate(c)
  }

  // Takes its parent's members one epoch on, attested by a quorum of them.
  ghost predicate EndorsedBy(c: Configuration, parent: Configuration, keys: Keyring) {
    && Sound(c) && multiset(c.members) == multiset(parent.members) && c.epoch == parent.epoch + 1
    && |Attesting(parent.members, c.digest, keys)| >= parent.quorum
  }

  // Epoch zero, attested by every one of its members.
  ghost predicate Unanimous(c: Configuration, keys: Keyring) {
    Sound(c) && c.epoch == 0 && forall m :: m in c.members ==> Attests(m, c.digest, keys)
  }

  // The proof lists each of these keys beside a signature that the registry attests.
  ghost predicate Carries(p: Proof, statement: string, keys: Keyring, signers: set<string>) {
    && p.Signed? && |p.signers| == |p.signatures|
    && forall m :: m in signers ==> ListedWith(p, statement, keys, m)
  }

  ghost predicate ListedWith(p: Proof, statement: string, keys: Keyring, m: string)
    requires p.Signed?
  {
    exists i, s :: 0 <= i < |p.signers| && i < |p.signatures| && p.signers[i] == m && p.signatures[i] == Some(s)
                   && Attestation(statement, s, m, "ed25519") in keys
  }

  lemma SignersCarry(p: Proof, statement: string, allowed: seq<string>, keys: Keyring)
    ensures var r := ValidSigners(p, statement, allowed, keys);
      && (r.Some? <==> p.Signed? && |p.signers| == |p.signatures|)
      && (r.Some? ==> forall m :: m in r.value <==> m in allowed && ListedWith(p, statement, keys, m))
      && (r.Some? ==> r.value <= Attesting(allowed, statement, keys))
  {
    var r := ValidSigners(p, statement, allowed, keys);
    if r.Some? {
      forall m ensures m in r.value <==> m in allowed && ListedWith(p, statement, keys, m) {
        SignerListed(p, statement, allowed, keys, m);
      }
    }
  }

  lemma SignerListed(p: Proof, statement: string, allowed: seq<string>, keys: Keyring, m: string)
    requires p.Signed?
    ensures Counts(p, statement, allowed, keys, m) <==> m in allowed && ListedWith(p, statement, keys, m)
  {
    if Counts(p, statement, allowed, keys, m) {
      var i :| 0 <= i < |p.signers| && i < |p.signatures| && p.signers[i] == m
               && p.signatures[i].Some? && Attestation(statement, p.signatures[i].value, m, "ed25519") in keys;
      assert p.signatures[i] == Some(p.signatures[i].value);
    }
  }

  lemma BoundIsSound(c: Configuration)
    ensures Bound(c) <==> Sound(c)
  {
  }

  // A succession is accepted exactly when it is sound, keeps the members, is the next epoch,
  // and its proof carries a quorum of the parent's members.
  lemma SuccessionExactly(c: Configuration, parent: Configuration, keys: Keyring)
    ensures FacialSuccessor(c, parent, keys) <==>
      && Sound(c) && multiset(c.members) == multiset(parent.members) && c.epoch == parent.epoch + 1
      && exists signers :: (
           && |signers| >= parent.quorum && (forall m :: m in signers ==> m in parent.members)
           && Carries(c.proof, c.digest, keys, signers))
    ensures FacialSuccessor(c, parent, keys) ==> EndorsedBy(c, parent, keys)
  {
    BoundIsSound(c);
    SignersCarry(c.proof, c.digest, parent.members, keys);
    var valid := ValidSigners(c.proof, c.digest, parent.members, keys);
    if FacialSuccessor(c, parent, keys) {
      SubsetSize(valid.value, Attesting(parent.members, c.digest, keys));
      assert Carries(c.proof, c.digest, keys, valid.value);
    }
    if signers :| |signers| >= parent.quorum && (forall m :: m in signers ==> m in parent.members)
                  && Carries(c.proof, c.digest, keys, signers) {
      SubsetSize(signers, valid.value);
    }
  }

  // A genesis is accepted exactly when it is sound, of epoch zero, and its proof carries
  // every one of its members.
  lemma GenesisExactly(c: Configuration, keys: Keyring)
    ensures FacialGenesis(c, keys) <==>
      Sound(c) && c.epoch == 0 && Carries(c.proof, c.digest, keys, set m | m in c.members)
    ensures FacialGenesis(c, keys) ==> Unanimous(c, keys)
  {
    BoundIsSound(c);
    SignersCarry(c.proof, c.digest, c.members, keys);
    var all := set m | m in c.members;
    var valid := ValidSigners(c.proof, c.digest, c.members, keys);
    if valid.Some? && Carries(c.proof, c.digest, keys, all) { assert valid.value == all; }
    if FacialGenesis(c, keys) {
      forall m | m in c.members ensures Attests(m, c.digest, keys) { assert m in valid.value; }
    }
  }

  // Parents recorded and held down to a root; each step attested by a quorum of the parent's
  // own members, and the root by all of its.
  ghost predicate AttestedLine(store: Store, p: seq<string>, keys: Keyring) {
    && |p| >= 1 && (forall i :: 0 <= i < |p| ==> p[i] in store)
    && (forall i :: 0 <= i < |p| - 1 ==>
          store[p[i]].prior == Some(p[i + 1]) && EndorsedBy(store[p[i]], store[p[i + 1]], keys))
    && store[p[|p| - 1]].prior == None && Unanimous(store[p[|p| - 1]], keys)
  }

  ghost predicate Attested(store: Store, d: string, keys: Keyring) {
    exists p :: AttestedLine(store, p, keys) && p[0] == d
  }

  lemma ValidIsAttested(store: Store, d: string, keys: Keyring)
    requires OnValidLine(store, d, keys)
    ensures Attested(store, d, keys)
  {
    var p :| ValidLine(store, p, keys) && p[0] == d;
    forall i | 0 <= i < |p| - 1
      ensures store[p[i]].prior == Some(p[i + 1]) && EndorsedBy(store[p[i]], store[p[i + 1]], keys)
    {
      assert LinkValid(store, p[i], keys);
      SuccessionExactly(store[p[i]], store[p[i + 1]], keys);
    }
    assert LinkValid(store, p[|p| - 1], keys);
    GenesisExactly(store[p[|p| - 1]], keys);
    assert AttestedLine(store, p, keys);
  }

  // ---- the backward walk ----

  // d follows its recorded parents to a root, all of them held.
  ghost predicate Ancestry(store: Store, p: seq<string>) {
    && |p| >= 1
    && (forall i :: 0 <= i < |p| ==> p[i] in store)
    && (forall i :: 0 <= i < |p| - 1 ==> store[p[i]].prior == Some(p[i + 1]))
  }

  ghost predicate RootedAt(store: Store, p: seq<string>) { Ancestry(store, p) && store[p[|p| - 1]].prior == None }

  predicate LinkValid(store: Store, d: string, keys: Keyring)
    requires d in store
  {
    var c := store[d];
    match c.prior
    case None => FacialGenesis(c, keys) && |GenesisOf(store, c.authorityKey, keys)| <= 1
    case Some(parent) =>
      parent in store && FacialSuccessor(c, store[parent], keys) && |SuccessorsOf(store, store[parent], keys)| <= 1
  }

  // What the walk is for: a rooted ancestry with every link valid and unrivalled.
  ghost predicate ValidLine(store: Store, p: seq<string>, keys: Keyring) {
    RootedAt(store, p) && forall i :: 0 <= i < |p| ==> LinkValid(store, p[i], keys)
  }

  ghost predicate OnValidLine(store: Store, d: string, keys: Keyring) {
    exists p :: ValidLine(store, p, keys) && p[0] == d
  }

  // The recorded parents run off the store.
  ghost predicate MissingAncestor(store: Store, d: string) {
    d !in store || exists p ::
      Ancestry(store, p) && p[0] == d && store[p[|p| - 1]].prior.Some? && store[p[|p| - 1]].prior.value !in store
  }

  lemma {:induction false} AncestryDetermined(store: Store, p: seq<string>, q: seq<string>, i: nat)
    requires Ancestry(store, p) && Ancestry(store, q) && p[0] == q[0] && i < |p| && i < |q|
    ensures p[i] == q[i]
  {
    if i > 0 { AncestryDetermined(store, p, q, i - 1); }
  }

  lemma OneRoot(store: Store, p: seq<string>, q: seq<string>)
    requires RootedAt(store, p) && Ancestry(store, q) && p[0] == q[0]
    ensures |q| <= |p| && q == p[..|q|]
  {
    if |q| > |p| {
      assert store[q[|p| - 1]].prior == Some(q[|p|]);
      AncestryDetermined(store, p, q, |p| - 1);
    }
    forall i | 0 <= i < |q| ensures q[i] == p[i] {
      AncestryDetermined(store, p, q, i);
    }
  }

  lemma Suffix(store: Store, p: seq<string>, k: nat)
    requires Ancestry(store, p) && k < |p|
    ensures Ancestry(store, p[k..]) && p[k..][0] == p[k] && p[k..][|p| - k - 1] == p[|p| - 1]
  {
  }

  // A repeated ancestor has no root: its parents go round for ever.
  lemma {:induction false} CycleHasNoRoot(store: Store, q: seq<string>, k: nat, p: seq<string>)
    requires Ancestry(store, q) && k < |q|
    requires store[q[|q| - 1]].prior == Some(q[k])
    requires Ancestry(store, p) && p[0] == q[k]
    ensures store[p[|p| - 1]].prior.Some? && store[p[|p| - 1]].prior.value in store
    decreases |p|
  {
    var cycle := q[k..];
    Suffix(store, q, k);
    if |p| <= |cycle| {
      forall i | 0 <= i < |p| ensures p[i] == cycle[i] { AncestryDetermined(store, p, cycle, i); }
      assert |p| < |cycle| ==> store[cycle[|p| - 1]].prior == Some(cycle[|p|]);
    } else {
      AncestryDetermined(store, p, cycle, |cycle| - 1);
      assert store[p[|cycle| - 1]].prior == Some(p[|cycle|]);
      Suffix(store, p, |cycle|);
      CycleHasNoRoot(store, q, k, p[|cycle|..]);
    }
  }

  datatype Walk = Cyclic | Missing | Rooted(path: seq<string>)

  // Collect the ancestry, refusing a cycle or a gap before anything is validated.
  method WalkBack(store: Store, digest: string, ghost keys: Keyring) returns (w: Walk)
    ensures w.Cyclic? ==> !OnValidLine(store, digest, keys) && !MissingAncestor(store, digest)
    ensures w.Missing? ==> !OnValidLine(store, digest, keys) && MissingAncestor(store, digest)
    ensures w.Rooted? ==> RootedAt(store, w.path) && w.path[0] == digest
  {
    var path: seq<string> := [];
    var cursor := digest;
    while true
      invariant path == [] ==> cursor == digest
      invariant path != [] ==>
                Ancestry(store, path) && path[0] == digest && store[path[|path| - 1]].prior == Some(cursor)
      invariant forall i, j :: 0 <= i < j < |path| ==> path[i] != path[j]
      invariant |path| <= |store.Keys|
      decreases |store.Keys| - |path|
    {
      if cursor in path {
        ghost var k :| 0 <= k < |path| && path[k] == cursor;
        RefusedAsCyclic(store, path, k, keys);
        return Cyclic;
      }
      if cursor !in store {
        RefusedAsMissing(store, path, cursor, digest, keys);
        return Missing;
      }
      path := path + [cursor];
      DistinctBounded(path, store.Keys);
      if store[cursor].prior.None? {
        return Rooted(path);
      }
      cursor := store[cursor].prior.value;
    }
  }

  // Root first: genesis, then each succession link.
  method CheckLinks(store: Store, path: seq<string>, keys: Keyring) returns (valid: bool)
    requires RootedAt(store, path)
    ensures valid <==> forall i :: 0 <= i < |path| ==> LinkValid(store, path[i], keys)
  {
    var i := |path|;
    while i > 0
      invariant 0 <= i <= |path|
      invariant forall j :: i <= j < |path| ==> LinkValid(store, path[j], keys)
    {
      i := i - 1;
      var c := store[path[i]];
      if c.prior.None? {
        valid := FacialGenesis(c, keys) && |GenesisOf(store, c.authorityKey, keys)| <= 1;
      } else {
        assert c.prior == Some(path[i + 1]);
        var parent := store[c.prior.value];
        valid := FacialSuccessor(c, parent, keys) && |SuccessorsOf(store, parent, keys)| <= 1;
      }
      if !valid {
        return false;
      }
    }
    valid := true;
  }

  method VerifyConfiguration(store: Store, digest: string, keys: Keyring) returns (s: Standing)
    ensures s == VALID <==> OnValidLine(store, digest, keys)
    ensures s == INCOMPLETE <==> MissingAncestor(store, digest)
    ensures s == VALID ==> Attested(store, digest, keys)
  {
    var w := WalkBack(store, digest, keys);
    match w {
      case Cyclic => return INVALID;
      case Missing => return INCOMPLETE;
      case Rooted(path) =>
        RootedNotMissing(store, path);
        var valid := CheckLinks(store, path, keys);
        if valid {
          assert ValidLine(store, path, keys);
          ValidIsAttested(store, digest, keys);
          return VALID;
        }
        BadLinkSpoils(store, path, keys);
        return INVALID;
    }
  }

  lemma {:induction false} DistinctBounded(p: seq<string>, s: set<string>)
    requires forall i, j :: 0 <= i < j < |p| ==> p[i] != p[j]
    requires forall i :: 0 <= i < |p| ==> p[i] in s
    ensures |p| <= |s|
  {
    if p != [] {
      var init := p[..|p| - 1];
      DistinctBounded(init, s - {p[|p| - 1]});
    }
  }

  lemma RefusedAsCyclic(store: Store, path: seq<string>, k: nat, keys: Keyring)
    requires Ancestry(store, path) && k < |path| && store[path[|path| - 1]].prior == Some(path[k])
    ensures !OnValidLine(store, path[0], keys) && !MissingAncestor(store, path[0])
  {
    forall p | Ancestry(store, p) && p[0] == path[0]
      ensures store[p[|p| - 1]].prior.Some? && store[p[|p| - 1]].prior.value in store
    {
      if |p| <= k {
        forall i | 0 <= i < |p| ensures p[i] == path[i] { AncestryDetermined(store, p, path, i); }
        assert store[path[|p| - 1]].prior == Some(path[|p|]);
      } else {
        AncestryDetermined(store, p, path, k);
        Suffix(store, p, k);
        CycleHasNoRoot(store, path, k, p[k..]);
      }
    }
  }

  lemma PriorInside(store: Store, p: seq<string>, q: seq<string>)
    requires RootedAt(store, p) && Ancestry(store, q) && p[0] == q[0]
    ensures store[q[|q| - 1]].prior.Some? ==> store[q[|q| - 1]].prior.value in store
  {
    OneRoot(store, p, q);
    if |q| < |p| {
      assert store[p[|q| - 1]].prior == Some(p[|q|]);
    }
  }

  lemma RootedUnique(store: Store, p: seq<string>, q: seq<string>)
    requires RootedAt(store, p) && RootedAt(store, q) && p[0] == q[0]
    ensures p == q
  {
    OneRoot(store, p, q);
    OneRoot(store, q, p);
  }

  lemma RefusedAsMissing(store: Store, path: seq<string>, cursor: string, digest: string, keys: Keyring)
    requires cursor !in store
    requires path == [] ==> cursor == digest
    requires path != [] ==> Ancestry(store, path) && path[0] == digest && store[path[|path| - 1]].prior == Some(cursor)
    ensures !OnValidLine(store, digest, keys) && MissingAncestor(store, digest)
  {
    if p :| ValidLine(store, p, keys) && p[0] == digest && path != [] {
      PriorInside(store, p, path);
    }
  }

  lemma RootedNotMissing(store: Store, path: seq<string>)
    requires RootedAt(store, path)
    ensures !MissingAncestor(store, path[0])
  {
    if p :| Ancestry(store, p) && p[0] == path[0]
            && store[p[|p| - 1]].prior.Some? && store[p[|p| - 1]].prior.value !in store {
      PriorInside(store, path, p);
    }
  }

  lemma BadLinkSpoils(store: Store, path: seq<string>, keys: Keyring)
    requires RootedAt(store, path) && !forall i :: 0 <= i < |path| ==> LinkValid(store, path[i], keys)
    ensures !OnValidLine(store, path[0], keys)
  {
    if p :| ValidLine(store, p, keys) && p[0] == path[0] {
      RootedUnique(store, path, p);
    }
  }

  // ---- the forward walk ----

  // f starts at a genesis and steps to the only facially valid successor each time.
  ghost predicate ForwardLine(store: Store, f: seq<string>, keys: Keyring) {
    && |f| >= 1
    && (forall i :: 0 <= i < |f| ==> f[i] in store)
    && (forall i :: 0 <= i < |f| - 1 ==> SuccessorsOf(store, store[f[i]], keys) == {f[i + 1]})
  }

  ghost predicate CompleteLine(store: Store, key: string, f: seq<string>, keys: Keyring) {
    && ForwardLine(store, f, keys)
    && GenesisOf(store, key, keys) == {f[0]}
    && SuccessorsOf(store, store[f[|f| - 1]], keys) == {}
  }

  ghost predicate IsCurrent(store: Store, key: string, d: string, keys: Keyring) {
    exists f :: CompleteLine(store, key, f, keys) && f[|f| - 1] == d
  }

  ghost predicate KeyHeld(store: Store, key: string) { exists d :: d in store && store[d].authorityKey == key }

  lemma {:induction false} ForwardEpochs(store: Store, f: seq<string>, keys: Keyring, i: nat)
    requires ForwardLine(store, f, keys) && i < |f|
    ensures store[f[i]].epoch == store[f[0]].epoch + i
  {
    if i > 0 {
      ForwardEpochs(store, f, keys, i - 1);
      assert f[i] in SuccessorsOf(store, store[f[i - 1]], keys);
    }
  }

  lemma {:induction false} ForwardDetermined(store: Store, f: seq<string>, g: seq<string>, keys: Keyring, i: nat)
    requires ForwardLine(store, f, keys) && ForwardLine(store, g, keys) && f[0] == g[0] && i < |f| && i < |g|
    ensures f[i] == g[i]
  {
    if i > 0 {
      ForwardDetermined(store, f, g, keys, i - 1);
      assert f[i] in {g[i]};
    }
  }

  lemma LongerNotComplete(store: Store, key: string, f: seq<string>, g: seq<string>, keys: Keyring)
    requires CompleteLine(store, key, f, keys) && ForwardLine(store, g, keys) && f[0] == g[0]
    ensures |g| <= |f|
  {
    if |g| > |f| {
      assert g[|f|] in SuccessorsOf(store, store[g[|f| - 1]], keys);
      ForwardDetermined(store, f, g, keys, |f| - 1);
    }
  }

  // The current configuration of a key is unique.
  lemma CurrentUnique(store: Store, key: string, d: string, e: string, keys: Keyring)
    requires IsCurrent(store, key, d, keys) && IsCurrent(store, key, e, keys)
    ensures d == e
  {
    var f :| CompleteLine(store, key, f, keys) && f[|f| - 1] == d;
    var g :| CompleteLine(store, key, g, keys) && g[|g| - 1] == e;
    assert f[0] in {g[0]};
    LongerNotComplete(store, key, f, g, keys);
    LongerNotComplete(store, key, g, f, keys);
    ForwardDetermined(store, f, g, keys, |f| - 1);
  }

  datatype Verdict = Verdict(standing: Standing, head: Option<Configuration>)

  lemma BlockedLine(store: Store, key: string, f: seq<string>, keys: Keyring)
    requires ForwardLine(store, f, keys) && GenesisOf(store, key, keys) == {f[0]}
    requires |SuccessorsOf(store, store[f[|f| - 1]], keys)| > 1
    ensures forall d :: !IsCurrent(store, key, d, keys)
  {
    forall g | CompleteLine(store, key, g, keys) ensures false {
      assert g[0] in {f[0]};
      LongerNotComplete(store, key, g, f, keys);
      assert |f| < |g| ==> SuccessorsOf(store, store[g[|f| - 1]], keys) == {g[|f|]};
      ForwardDetermined(store, f, g, keys, |f| - 1);
    }
  }

  // A successor carries the next epoch, so the walk can never meet a digest again.
  lemma NeverBack(store: Store, f: seq<string>, keys: Keyring, next: string)
    requires ForwardLine(store, f, keys) && next in SuccessorsOf(store, store[f[|f| - 1]], keys)
    ensures next !in f
  {
    forall i | 0 <= i < |f| ensures f[i] != next {
      ForwardEpochs(store, f, keys, i);
      ForwardEpochs(store, f, keys, |f| - 1);
    }
  }

  lemma SingletonOf(s: set<string>, x: string)
    requires x in s && |s| <= 1
    ensures s == {x}
  {
    assert s == {x} + (s - {x});
    assert |s - {x}| == 0;
  }

  lemma RivalGenesis(store: Store, key: string, keys: Keyring)
    requires |GenesisOf(store, key, keys)| != 1
    ensures forall d :: !IsCurrent(store, key, d, keys)
  {
    forall d ensures !IsCurrent(store, key, d, keys) {
      if IsCurrent(store, key, d, keys) { CurrentHasOneGenesis(store, key, d, keys); }
    }
  }

  lemma CurrentHasOneGenesis(store: Store, key: string, d: string, keys: Keyring)
    requires IsCurrent(store, key, d, keys)
    ensures |GenesisOf(store, key, keys)| == 1
  {
    var f :| CompleteLine(store, key, f, keys) && f[|f| - 1] == d;
    assert |{f[0]}| == 1;
  }

  lemma ExtendLine(store: Store, f: seq<string>, next: string, keys: Keyring)
    requires ForwardLine(store, f, keys)
    requires next in SuccessorsOf(store, store[f[|f| - 1]], keys) && |SuccessorsOf(store, store[f[|f| - 1]], keys)| <= 1
    ensures ForwardLine(store, f + [next], keys)
    ensures (set d | d in f + [next]) == (set d | d in f) + {next}
  {
    SingletonOf(SuccessorsOf(store, store[f[|f| - 1]], keys), next);
  }

  lemma CurrentIsAttested(store: Store, key: string, d: string, keys: Keyring)
    requires Indexed(store) && IsCurrent(store, key, d, keys)
    ensures Attested(store, d, keys)
  {
    ForwardImpliesBackward(store, key, d, keys);
    ValidIsAttested(store, d, keys);
  }

  method CurrentConfiguration(store: Store, key: string, keys: Keyring) returns (v: Verdict)
    requires Indexed(store)
    ensures v.standing == VALID <==> v.head.Some?
    ensures v.head.Some? ==> v.head.value.digest in store && store[v.head.value.digest] == v.head.value
                             && IsCurrent(store, key, v.head.value.digest, keys)
    ensures v.head.None? ==> forall d :: !IsCurrent(store, key, d, keys)
    ensures v.standing == INCOMPLETE <==> GenesisOf(store, key, keys) == {} && KeyHeld(store, key)
    ensures v.head.Some? ==> Attested(store, v.head.value.digest, keys)
  {
    var genesis := GenesisOf(store, key, keys);
    if genesis == {} {
      if exists d :: d in store && store[d].authorityKey == key {
        return Verdict(INCOMPLETE, None);
      }
      return Verdict(INVALID, None);
    }
    if |genesis| > 1 {
      RivalGenesis(store, key, keys);
      return Verdict(INVALID, None);
    }
    var g :| g in genesis;
    SingletonOf(genesis, g);
    var head, seen := g, {g};
    ghost var f := [g];
    while true
      invariant ForwardLine(store, f, keys) && GenesisOf(store, key, keys) == {f[0]} && f[|f| - 1] == head
      invariant seen == (set d | d in f) && seen <= store.Keys
      decreases |store.Keys| - |seen|
    {
      var succ := SuccessorsOf(store, store[head], keys);
      if succ == {} {
        assert CompleteLine(store, key, f, keys);
        CurrentIsAttested(store, key, head, keys);
        return Verdict(VALID, Some(store[head]));
      }
      var next :| next in succ;
      NeverBack(store, f, keys, next);
      if next in seen {
        assert false;
      }
      ghost var before := seen;
      seen := seen + {next};
      if |succ| > 1 {
        BlockedLine(store, key, f, keys);
        return Verdict(INVALID, None);
      }
      SubsetSize(seen, store.Keys);
      assert |seen| == |before| + 1;
      ExtendLine(store, f, next, keys);
      f := f + [next];
      head := next;
    }
  }

  // ---- the two walks agree ----

  function Reversed(s: seq<string>): (r: seq<string>)
    ensures |r| == |s| && forall i :: 0 <= i < |s| ==> r[i] == s[|s| - 1 - i]
  {
    seq(|s|, i requires 0 <= i < |s| => s[|s| - 1 - i])
  }

  lemma ForwardLinkValid(store: Store, key: string, f: seq<string>, keys: Keyring, i: nat)
    requires Indexed(store) && CompleteLine(store, key, f, keys) && i < |f|
    ensures LinkValid(store, f[i], keys)
    ensures i == 0 ==> store[f[0]].prior == None && store[f[0]].authorityKey == key
    ensures i > 0 ==> store[f[i]].prior == Some(f[i - 1])
  {
    if i == 0 {
      assert f[0] in GenesisOf(store, key, keys);
    } else {
      assert f[i] in SuccessorsOf(store, store[f[i - 1]], keys);
    }
  }

  // Read backwards, a forward line is the ancestry of its head.
  lemma ReversedLine(store: Store, key: string, f: seq<string>, keys: Keyring)
    requires Indexed(store) && CompleteLine(store, key, f, keys)
    ensures ValidLine(store, Reversed(f), keys) && Reversed(f)[0] == f[|f| - 1]
    ensures store[Reversed(f)[|f| - 1]].authorityKey == key
  {
    var p := Reversed(f);
    forall i | 0 <= i < |p|
      ensures LinkValid(store, p[i], keys) && (i < |p| - 1 ==> store[p[i]].prior == Some(p[i + 1]))
    {
      ForwardLinkValid(store, key, f, keys, |f| - 1 - i);
    }
    ForwardLinkValid(store, key, f, keys, 0);
  }

  // The head the forward walk returns stands on a valid line for the backward walk.
  lemma ForwardImpliesBackward(store: Store, key: string, d: string, keys: Keyring)
    requires Indexed(store) && IsCurrent(store, key, d, keys)
    ensures OnValidLine(store, d, keys) && SuccessorsOf(store, store[d], keys) == {}
  {
    var f :| CompleteLine(store, key, f, keys) && f[|f| - 1] == d;
    ReversedLine(store, key, f, keys);
  }

  // A configuration on a valid line with no facially valid successor is the head the
  // forward walk returns for the key its genesis was founded under.
  lemma BackwardImpliesForward(store: Store, p: seq<string>, keys: Keyring)
    requires Indexed(store) && ValidLine(store, p, keys) && SuccessorsOf(store, store[p[0]], keys) == {}
    ensures IsCurrent(store, store[p[|p| - 1]].authorityKey, p[0], keys)
  {
    var f := Reversed(p);
    var key := store[f[0]].authorityKey;
    assert LinkValid(store, p[|p| - 1], keys);
    SingletonOf(GenesisOf(store, key, keys), f[0]);
    forall i | 0 <= i < |f| - 1 ensures SuccessorsOf(store, store[f[i]], keys) == {f[i + 1]} {
      var j := |p| - 2 - i;
      assert LinkValid(store, p[j], keys) && store[p[j]].prior == Some(p[j + 1]);
      assert f[i + 1] in SuccessorsOf(store, store[f[i]], keys);
      SingletonOf(SuccessorsOf(store, store[f[i]], keys), f[i + 1]);
    }
    assert CompleteLine(store, key, f, keys) && f[|f| - 1] == p[0];
  }

  // Along a valid line the epoch is the depth and the membership never changes.
  lemma {:induction false} LineShape(store: Store, p: seq<string>, keys: Keyring, i: nat)
    requires ValidLine(store, p, keys) && i < |p|
    ensures store[p[i]].epoch == |p| - 1 - i
    ensures multiset(store[p[i]].members) == multiset(store[p[|p| - 1]].members)
    decreases |p| - i
  {
    assert LinkValid(store, p[i], keys);
    if i < |p| - 1 {
      LineShape(store, p, keys, i + 1);
      assert store[p[i]].prior == Some(p[i + 1]);
    }
  }

  // ---- receipts ----

  function Exercising(signers: set<string>, trust: Option<T.Registry>): set<string> {
    match trust
    case None => signers
    case Some(r) => set s | s in signers && T.StandingAt(r, s, None) == T.Active
  }

  predicate QuorumMet(r: Receipt, c: Configuration, keys: Keyring, trust: Option<T.Registry>) {
    var signers := ValidSigners(r.proof, r.operationDigest, c.members, keys);
    signers.Some? && |Exercising(signers.value, trust)| >= c.quorum
  }

  // The three states, by what is held: no lineage, or a complete unrivalled line whose
  // head is the receipt's own configuration, or evidence of failure.
  ghost function ReceiptStanding(store: Store, r: Receipt, keys: Keyring, trust: Option<T.Registry>): Standing {
    var d := r.configurationDigest;
    if d !in store then INCOMPLETE
    else if store[d].authorityKey != r.authorityKey || store[d].epoch != r.epoch then INVALID
    else if GenesisOf(store, r.authorityKey, keys) == {} then INCOMPLETE
    else if IsCurrent(store, r.authorityKey, d, keys) && QuorumMet(r, store[d], keys, trust) then VALID
    else INVALID
  }

  // The members that attest the statement and whose keys stand active, where that is asked.
  ghost function Acting(members: seq<string>, statement: string, keys: Keyring, trust: Option<T.Registry>)
    : set<string>
  {
    set m | m in Attesting(members, statement, keys) && (trust.Some? ==> T.StandingAt(trust.value, m, None) == T.Active)
  }

  // The quorum of a receipt is met exactly when its proof carries that many members of the
  // configuration whose keys stand active; so at least that many attest the operation.
  lemma QuorumExactly(r: Receipt, c: Configuration, keys: Keyring, trust: Option<T.Registry>)
    ensures QuorumMet(r, c, keys, trust) <==> exists signers :: (
              && |signers| >= c.quorum && Carries(r.proof, r.operationDigest, keys, signers)
              && forall m :: m in signers ==>
                   m in c.members && (trust.Some? ==> T.StandingAt(trust.value, m, None) == T.Active))
    ensures QuorumMet(r, c, keys, trust) ==> |Acting(c.members, r.operationDigest, keys, trust)| >= c.quorum
  {
    SignersCarry(r.proof, r.operationDigest, c.members, keys);
    var valid := ValidSigners(r.proof, r.operationDigest, c.members, keys);
    if QuorumMet(r, c, keys, trust) {
      var acting := Exercising(valid.value, trust);
      assert Carries(r.proof, r.operationDigest, keys, acting);
      SubsetSize(acting, Acting(c.members, r.operationDigest, keys, trust));
    }
    if signers :| |signers| >= c.quorum && Carries(r.proof, r.operationDigest, keys, signers)
                  && forall m :: m in signers ==>
                       m in c.members && (trust.Some? ==> T.StandingAt(trust.value, m, None) == T.Active) {
      SubsetSize(signers, Exercising(valid.value, trust));
    }
  }

  // A VALID receipt is the head's own, of its epoch and key, attested by a quorum of the
  // head's members whose keys stand active.
  ghost predicate Warranted(store: Store, r: Receipt, keys: Keyring, trust: Option<T.Registry>) {
    && r.configurationDigest in store && Attested(store, r.configurationDigest, keys)
    && var c := store[r.configurationDigest];
    && c.authorityKey == r.authorityKey && c.epoch == r.epoch
    && |Acting(c.members, r.operationDigest, keys, trust)| >= c.quorum
  }

  lemma ValidIsWarranted(store: Store, r: Receipt, keys: Keyring, trust: Option<T.Registry>)
    requires Indexed(store) && ReceiptStanding(store, r, keys, trust) == VALID
    ensures Warranted(store, r, keys, trust)
  {
    CurrentIsAttested(store, r.authorityKey, r.configurationDigest, keys);
    QuorumExactly(r, store[r.configurationDigest], keys, trust);
  }

  // INCOMPLETE means that something may still arrive: the receipt's configuration, or, with
  // that held under the receipt's own key and epoch, any unanimous genesis for the key.
  lemma IncompleteReads(store: Store, r: Receipt, keys: Keyring, trust: Option<T.Registry>)
    ensures ReceiptStanding(store, r, keys, trust) == INCOMPLETE <==>
      || r.configurationDigest !in store
      || (&& store[r.configurationDigest].authorityKey == r.authorityKey
          && store[r.configurationDigest].epoch == r.epoch
          && forall d :: d in store && store[d].authorityKey == r.authorityKey && store[d].prior == None ==>
               !(&& Sound(store[d]) && store[d].epoch == 0
                 && Carries(store[d].proof, store[d].digest, keys, set m | m in store[d].members)))
  {
    if r.configurationDigest in store {
      forall d | d in store
        ensures d in GenesisOf(store, r.authorityKey, keys) <==>
          && store[d].authorityKey == r.authorityKey && store[d].prior == None
          && Sound(store[d]) && store[d].epoch == 0
          && Carries(store[d].proof, store[d].digest, keys, set m | m in store[d].members)
      {
        GenesisExactly(store[d], keys);
      }
    }
  }

  method VerifyReceipt(store: Store, r: Receipt, keys: Keyring, trust: Option<T.Registry>) returns (s: Standing)
    requires Indexed(store)
    ensures s == ReceiptStanding(store, r, keys, trust)
    ensures s == VALID ==> Warranted(store, r, keys, trust)
  {
    if r.configurationDigest !in store {
      return INCOMPLETE;
    }
    var c := store[r.configurationDigest];
    if c.authorityKey != r.authorityKey {
      return INVALID;
    }
    if c.epoch != r.epoch {
      return INVALID;
    }
    var v := CurrentConfiguration(store, r.authorityKey, keys);
    if v.standing == INCOMPLETE {
      return INCOMPLETE;
    }
    if v.standing == INVALID || v.head.None? {
      assert KeyHeld(store, r.authorityKey);
      return INVALID;
    }
    if v.head.value.digest != r.configurationDigest {
      if IsCurrent(store, r.authorityKey, r.configurationDigest, keys) {
        CurrentUnique(store, r.authorityKey, r.configurationDigest, v.head.value.digest, keys);
      }
      assert KeyHeld(store, r.authorityKey);
      return INVALID;
    }
    var signers := CollectSigners(r.proof, r.operationDigest, c.members, keys);
    if signers.None? {
      return INVALID;
    }
    var counted := signers.value;
    if trust.Some? {
      counted := set k | k in counted && T.StandingAt(trust.value, k, None) == T.Active;
    }
    if |counted| < c.quorum {
      return INVALID;
    }
    ValidIsWarranted(store, r, keys, trust);
    s := VALID;
  }

  // ---- what holds across stores ----

  // At any moment at most one configuration can exercise a key.
  lemma OneAuthority(store: Store, r: Receipt, q: Receipt, keys: Keyring, trust: Option<T.Registry>)
    requires ReceiptStanding(store, r, keys, trust) == VALID && ReceiptStanding(store, q, keys, trust) == VALID
    requires r.authorityKey == q.authorityKey
    ensures r.configurationDigest == q.configurationDigest
  {
    CurrentUnique(store, r.authorityKey, r.configurationDigest, q.configurationDigest, keys);
  }

  ghost predicate Grows(store: Store, store': Store) {
    forall d :: d in store ==> d in store' && store'[d] == store[d]
  }

  // Once a configuration has a facially valid successor, no receipt under it is VALID in
  // this store or in any store grown from it.
  lemma SupersededForever(store: Store, store': Store, r: Receipt, keys: Keyring, trust: Option<T.Registry>)
    requires Indexed(store') && Grows(store, store') && r.configurationDigest in store
    requires SuccessorsOf(store, store[r.configurationDigest], keys) != {}
    ensures ReceiptStanding(store', r, keys, trust) != VALID
  {
    var d := r.configurationDigest;
    var e :| e in SuccessorsOf(store, store[d], keys);
    assert e in SuccessorsOf(store', store'[d], keys);
    if IsCurrent(store', r.authorityKey, d, keys) {
      ForwardImpliesBackward(store', r.authorityKey, d, keys);
    }
  }

  lemma CandidatesGrow(store: Store, store': Store, key: string, d: string, keys: Keyring)
    requires Grows(store, store')
    ensures GenesisOf(store, key, keys) <= GenesisOf(store', key, keys)
    ensures d in store ==> SuccessorsOf(store, store[d], keys) <= SuccessorsOf(store', store'[d], keys)
  {
  }

  // A configuration that too few have attested: fewer than a quorum of the members of the
  // one it names as its parent, or, for a would-be genesis, not all of its own.
  ghost predicate Unsupported(store: Store, c: Configuration, keys: Keyring) {
    match c.prior
    case Some(parent) => parent in store ==> |Attesting(store[parent].members, c.digest, keys)| < store[parent].quorum
    case None => exists m :: m in c.members && !Attests(m, c.digest, keys)
  }

  // However many of them arrive, they leave the head where it is.
  lemma UnsupportedMoveNothing(store: Store, store': Store, key: string, d: string, keys: Keyring)
    requires Indexed(store) && Indexed(store') && Grows(store, store') && IsCurrent(store, key, d, keys)
    requires forall n :: n in store' && n !in store ==> Unsupported(store, store'[n], keys)
    ensures IsCurrent(store', key, d, keys)
  {
    var f :| CompleteLine(store, key, f, keys) && f[|f| - 1] == d;
    forall j | 0 <= j < |f| ensures SuccessorsOf(store', store'[f[j]], keys) == SuccessorsOf(store, store[f[j]], keys) {
      NoNewSuccessor(store, store', f[j], keys);
    }
    NoNewGenesis(store, store', key, keys);
    assert CompleteLine(store', key, f, keys);
  }

  lemma NoNewSuccessor(store: Store, store': Store, d: string, keys: Keyring)
    requires Indexed(store) && Indexed(store') && Grows(store, store') && d in store
    requires forall n :: n in store' && n !in store ==> Unsupported(store, store'[n], keys)
    ensures SuccessorsOf(store', store'[d], keys) == SuccessorsOf(store, store[d], keys)
  {
    forall n | n in SuccessorsOf(store', store'[d], keys) ensures n in store {
      SuccessionExactly(store'[n], store[d], keys);
    }
  }

  lemma NoNewGenesis(store: Store, store': Store, key: string, keys: Keyring)
    requires Indexed(store') && Grows(store, store')
    requires forall n :: n in store' && n !in store ==> Unsupported(store, store'[n], keys)
    ensures GenesisOf(store', key, keys) == GenesisOf(store, key, keys)
  {
    forall n | n in GenesisOf(store', key, keys) ensures n in store {
      GenesisExactly(store'[n], keys);
    }
  }

  // In particular a succession on the head that fewer than a quorum of its members attest.
  lemma UnderQuorumKeepsHead(store: Store, key: string, d: string, c: Configuration, keys: Keyring)
    requires Indexed(store) && IsCurrent(store, key, d, keys) && c.digest !in store && c.prior == Some(d)
    requires d in store && |Attesting(store[d].members, c.digest, keys)| < store[d].quorum
    ensures IsCurrent(Added(store, c), key, d, keys)
  {
    UnsupportedMoveNothing(store, Added(store, c), key, d, keys);
  }

  lemma {:induction false} LinesShareSteps(store: Store, store': Store, key: string, f: seq<string>, g: seq<string>,
                                           keys: Keyring, i: nat)
    requires Grows(store, store') && CompleteLine(store, key, f, keys) && CompleteLine(store', key, g, keys) && i < |f|
    ensures i < |g| && f[i] == g[i]
  {
    if i == 0 {
      CandidatesGrow(store, store', key, f[0], keys);
      assert f[0] in GenesisOf(store', key, keys);
    } else {
      LinesShareSteps(store, store', key, f, g, keys, i - 1);
      CandidatesGrow(store, store', key, f[i - 1], keys);
      assert f[i] in SuccessorsOf(store', store'[g[i - 1]], keys);
    }
  }

  // Growth never bends a line that keeps its head.
  lemma SameLine(store: Store, store': Store, key: string, f: seq<string>, g: seq<string>, keys: Keyring)
    requires Grows(store, store') && CompleteLine(store, key, f, keys) && CompleteLine(store', key, g, keys)
    requires f[|f| - 1] == g[|g| - 1]
    ensures f == g
  {
    LinesShareSteps(store, store', key, f, g, keys, |f| - 1);
    forall i | 0 <= i < |f| ensures f[i] == g[i] { LinesShareSteps(store, store', key, f, g, keys, i); }
    ForwardEpochs(store', g, keys, |f| - 1);
    ForwardEpochs(store', g, keys, |g| - 1);
  }

  // A configuration that has ceased to be the head of its key is never the head again, however
  // the store grows: successors, rival successors and rival geneses are never taken back.
  lemma CurrencyNeverReturns(before: Store, now: Store, later: Store, key: string, d: string, keys: Keyring)
    requires Grows(before, now) && Grows(now, later)
    requires IsCurrent(before, key, d, keys) && !IsCurrent(now, key, d, keys)
    ensures !IsCurrent(later, key, d, keys)
  {
    var f :| CompleteLine(before, key, f, keys) && f[|f| - 1] == d;
    forall g | CompleteLine(later, key, g, keys) ensures g[|g| - 1] != d {
      if g[|g| - 1] == d {
        SameLine(before, later, key, f, g, keys);
        Sandwiched(before, now, later, key, f, keys);
      }
    }
  }

  lemma Sandwiched(before: Store, now: Store, later: Store, key: string, f: seq<string>, keys: Keyring)
    requires Grows(before, now) && Grows(now, later)
    requires CompleteLine(before, key, f, keys) && CompleteLine(later, key, f, keys)
    ensures CompleteLine(now, key, f, keys) && IsCurrent(now, key, f[|f| - 1], keys)
  {
    CandidatesGrow(before, now, key, f[0], keys);
    CandidatesGrow(now, later, key, f[0], keys);
    forall i | 0 <= i < |f| ensures SuccessorsOf(now, now[f[i]], keys) == if i < |f| - 1 then {f[i + 1]} else {} {
      CandidatesGrow(before, now, key, f[i], keys);
      CandidatesGrow(now, later, key, f[i], keys);
    }
  }

  // Noise: neither a facially valid genesis nor a facially valid successor of a held one.
  ghost predicate Noise(store: Store, c: Configuration, keys: Keyring) {
    && c.digest !in store
    && !(c.prior == None && FacialGenesis(c, keys))
    && !(c.prior.Some? && c.prior.value in store && FacialSuccessor(c, store[c.prior.value], keys))
  }

  lemma NoiseKeepsCandidates(store: Store, c: Configuration, keys: Keyring)
    requires Indexed(store) && Noise(store, c, keys)
    ensures forall key :: GenesisOf(Added(store, c), key, keys) == GenesisOf(store, key, keys)
    ensures forall d :: d in store ==>
            SuccessorsOf(Added(store, c), store[d], keys) == SuccessorsOf(store, store[d], keys)
  {
    forall d | d in store ensures c.digest !in SuccessorsOf(Added(store, c), store[d], keys) {
      assert store[d].digest == d;
    }
  }

  lemma {:induction false} NoiseKeepsLine(store: Store, c: Configuration, f: seq<string>, keys: Keyring, i: nat)
    requires Indexed(store) && Noise(store, c, keys)
    requires ForwardLine(Added(store, c), f, keys) && f[0] in store && i < |f|
    ensures f[i] in store
  {
    NoiseKeepsCandidates(store, c, keys);
    if i > 0 {
      NoiseKeepsLine(store, c, f, keys, i - 1);
      assert f[i] in SuccessorsOf(Added(store, c), store[f[i - 1]], keys);
    }
  }

  lemma NoiseKeepsComplete(store: Store, c: Configuration, key: string, f: seq<string>, keys: Keyring)
    requires Indexed(store) && Noise(store, c, keys)
    ensures CompleteLine(Added(store, c), key, f, keys) ==> CompleteLine(store, key, f, keys)
    ensures CompleteLine(store, key, f, keys) ==> CompleteLine(Added(store, c), key, f, keys)
  {
    NoiseKeepsCandidates(store, c, keys);
    if CompleteLine(Added(store, c), key, f, keys) {
      assert f[0] in GenesisOf(store, key, keys);
      forall i | 0 <= i < |f| ensures f[i] in store { NoiseKeepsLine(store, c, f, keys, i); }
    }
  }

  lemma NoiseKeepsCurrent(store: Store, c: Configuration, key: string, d: string, keys: Keyring)
    requires Indexed(store) && Noise(store, c, keys)
    ensures IsCurrent(Added(store, c), key, d, keys) <==> IsCurrent(store, key, d, keys)
  {
    if f :| CompleteLine(Added(store, c), key, f, keys) && f[|f| - 1] == d {
      NoiseKeepsComplete(store, c, key, f, keys);
    }
    if f :| CompleteLine(store, key, f, keys) && f[|f| - 1] == d {
      NoiseKeepsComplete(store, c, key, f, keys);
    }
  }

  // Junk cannot move any verdict on a receipt whose configuration was already held.
  lemma NoiseIsInert(store: Store, c: Configuration, r: Receipt, keys: Keyring, trust: Option<T.Registry>)
    requires Indexed(store) && Noise(store, c, keys) && r.configurationDigest in store
    ensures ReceiptStanding(Added(store, c), r, keys, trust) == ReceiptStanding(store, r, keys, trust)
  {
    NoiseKeepsCandidates(store, c, keys);
    NoiseKeepsCurrent(store, c, r.authorityKey, r.configurationDigest, keys);
  }

  // ---- overwriting a held digest ----

  // c stands where the configuration it overwrites stands on the line.
  predicate InRole(store: Store, key: string, f: seq<string>, i: nat, c: Configuration, keys: Keyring)
    requires i < |f| && forall j :: 0 <= j < |f| ==> f[j] in store
  {
    if i == 0 then c.prior == None && c.authorityKey == key && FacialGenesis(c, keys)
    else c.prior == Some(f[i - 1]) && FacialSuccessor(c, store[f[i - 1]], keys)
  }

  lemma LineDistinct(store: Store, f: seq<string>, keys: Keyring, i: nat, j: nat)
    requires ForwardLine(store, f, keys) && i < |f| && j < |f| && i != j
    ensures f[i] != f[j]
  {
    ForwardEpochs(store, f, keys, i);
    ForwardEpochs(store, f, keys, j);
  }

  lemma {:induction false} CountsEqual(a: seq<string>, b: seq<string>)
    requires multiset(a) == multiset(b)
    ensures forall x :: x in a <==> x in b
  {
    forall x ensures x in a <==> x in b {
      assert x in a <==> x in multiset(a);
      assert x in b <==> x in multiset(b);
    }
  }

  // Parents of one coordinate accept the same successors.
  lemma SameParent(c: Configuration, a: Configuration, b: Configuration, keys: Keyring)
    requires multiset(a.members) == multiset(b.members) && a.epoch == b.epoch && a.quorum == b.quorum
    ensures FacialSuccessor(c, a, keys) <==> FacialSuccessor(c, b, keys)
  {
    CountsEqual(a.members, b.members);
    if c.proof.Signed? && |c.proof.signers| == |c.proof.signatures| {
      assert ValidSigners(c.proof, c.digest, a.members, keys).value ==
             ValidSigners(c.proof, c.digest, b.members, keys).value;
    }
  }

  lemma RoleMember(store: Store, key: string, f: seq<string>, i: nat, keys: Keyring)
    requires Indexed(store) && CompleteLine(store, key, f, keys) && i < |f|
    ensures InRole(store, key, f, i, store[f[i]], keys)
  {
    ForwardLinkValid(store, key, f, keys, i);
    if i == 0 { assert f[0] in GenesisOf(store, key, keys); }
      else { assert f[i] in SuccessorsOf(store, store[f[i - 1]], keys); }
  }

  // The candidates after the overwrite, but for the overwritten digest itself.
  lemma OverwrittenCandidates(store: Store, c: Configuration, key: string, d: string, x: string, keys: Keyring)
    requires Indexed(store) && c.digest in store && d in store && x in store && x != c.digest
    requires Coordinate(c) == Coordinate(store[c.digest])
    ensures x in GenesisOf(Added(store, c), key, keys) <==> x in GenesisOf(store, key, keys)
    ensures x in SuccessorsOf(Added(store, c), Added(store, c)[d], keys) <==> x in SuccessorsOf(store, store[d], keys)
  {
    if d == c.digest {
      CoordinateBinds(c, store[d]);
      SameParent(store[x], c, store[d], keys);
    }
  }

  lemma StepsOutlive(store: Store, key: string, f: seq<string>, i: nat, c: Configuration, keys: Keyring, j: nat)
    requires Indexed(store) && CompleteLine(store, key, f, keys) && i < |f| && c.digest == f[i] && j < |f|
    requires InRole(store, key, f, i, c, keys) && Coordinate(c) == Coordinate(store[f[i]])
    ensures SuccessorsOf(Added(store, c), Added(store, c)[f[j]], keys) == SuccessorsOf(store, store[f[j]], keys)
  {
    var after := Added(store, c);
    RoleMember(store, key, f, i, keys);
    CoordinateBinds(c, store[f[i]]);
    forall x | x in store
      ensures x in SuccessorsOf(after, after[f[j]], keys) <==> x in SuccessorsOf(store, store[f[j]], keys)
    {
      if x != c.digest {
        OverwrittenCandidates(store, c, key, f[j], x, keys);
      } else if j != i {
        LineDistinct(store, f, keys, i, j);
        if i > 0 && j == i - 1 { ForwardLinkValid(store, key, f, keys, i); }
      }
    }
  }

  lemma RoleKeepsLine(store: Store, key: string, f: seq<string>, i: nat, c: Configuration, keys: Keyring)
    requires Indexed(store) && CompleteLine(store, key, f, keys) && i < |f| && c.digest == f[i]
    requires InRole(store, key, f, i, c, keys)
    ensures CompleteLine(Added(store, c), key, f, keys)
  {
    var after := Added(store, c);
    RoleMember(store, key, f, i, keys);
    assert Bound(c) && Bound(store[f[i]]);
    forall j | 0 <= j < |f| ensures SuccessorsOf(after, after[f[j]], keys) == SuccessorsOf(store, store[f[j]], keys) {
      StepsOutlive(store, key, f, i, c, keys, j);
    }
    forall x | x in store ensures x in GenesisOf(after, key, keys) <==> x in GenesisOf(store, key, keys) {
      if x != c.digest { OverwrittenCandidates(store, c, key, f[i], x, keys); }
        else { CoordinateBinds(c, store[f[i]]); }
    }
  }

  // Walking back from an unchanged head meets the old line down to the first changed row.
  lemma {:induction false} BackThrough(store: Store, after: Store, key: string, f: seq<string>, p: seq<string>,
                                       keys: Keyring, i: nat, k: nat)
    requires Indexed(store) && CompleteLine(store, key, f, keys) && ValidLine(after, p, keys) && p[0] == f[|f| - 1]
    requires i < |f| && k <= |f| - 1 - i && forall j :: i < j < |f| ==> f[j] in after && after[f[j]] == store[f[j]]
    ensures k < |p| && p[k] == f[|f| - 1 - k]
  {
    if k > 0 {
      BackThrough(store, after, key, f, p, keys, i, k - 1);
      BackOne(store, after, key, f, p, keys, k - 1);
    }
  }

  // One link back, both lines are at the same place.
  lemma BackOne(store: Store, after: Store, key: string, f: seq<string>, p: seq<string>, keys: Keyring, k: nat)
    requires Indexed(store) && CompleteLine(store, key, f, keys) && ValidLine(after, p, keys)
    requires k < |p| && k < |f| - 1 && p[k] == f[|f| - 1 - k]
    requires p[k] in after && after[p[k]] == store[p[k]]
    ensures k + 1 < |p| && p[k + 1] == f[|f| - 2 - k]
  {
    ForwardLinkValid(store, key, f, keys, |f| - 1 - k);
  }

  lemma CurrentPassesThrough(store: Store, after: Store, key: string, f: seq<string>, keys: Keyring, i: nat)
    requires Indexed(store) && Indexed(after) && CompleteLine(store, key, f, keys)
    requires IsCurrent(after, key, f[|f| - 1], keys)
    requires i < |f| && forall j :: i < j < |f| ==> f[j] in after && after[f[j]] == store[f[j]]
    ensures f[i] in after && LinkValid(after, f[i], keys)
  {
    var p, k := LineReaches(store, after, key, f, keys, i);
    LineLink(after, p, keys, k, f[i]);
  }

  lemma LineReaches(store: Store, after: Store, key: string, f: seq<string>, keys: Keyring, i: nat)
    returns (p: seq<string>, k: nat)
    requires Indexed(store) && Indexed(after) && CompleteLine(store, key, f, keys)
    requires IsCurrent(after, key, f[|f| - 1], keys)
    requires i < |f| && forall j :: i < j < |f| ==> f[j] in after && after[f[j]] == store[f[j]]
    ensures ValidLine(after, p, keys) && k < |p| && p[k] == f[i]
  {
    p := BackwardLine(after, key, f[|f| - 1], keys);
    k := |f| - 1 - i;
    BackThrough(store, after, key, f, p, keys, i, k);
    assert |f| - 1 - k == i;
  }

  lemma BackwardLine(store: Store, key: string, d: string, keys: Keyring) returns (p: seq<string>)
    requires Indexed(store) && IsCurrent(store, key, d, keys)
    ensures ValidLine(store, p, keys) && p[0] == d
  {
    ForwardImpliesBackward(store, key, d, keys);
    p :| ValidLine(store, p, keys) && p[0] == d;
  }

  lemma LineLink(store: Store, p: seq<string>, keys: Keyring, k: nat, d: string)
    requires ValidLine(store, p, keys) && k < |p| && p[k] == d
    ensures d in store && LinkValid(store, d, keys)
  {
  }

  lemma RoleNeeded(store: Store, key: string, f: seq<string>, i: nat, c: Configuration, keys: Keyring)
    requires Indexed(store) && CompleteLine(store, key, f, keys) && i < |f| && c.digest == f[i]
    requires IsCurrent(Added(store, c), key, f[|f| - 1], keys)
    ensures InRole(store, key, f, i, c, keys)
  {
    var after := Added(store, c);
    forall j | i < j < |f| ensures f[j] in after && after[f[j]] == store[f[j]] {
      LineDistinct(store, f, keys, i, j);
    }
    CurrentPassesThrough(store, after, key, f, keys, i);
    RoleMember(store, key, f, i, keys);
    CoordinateBinds(c, store[f[i]]);
    if i > 0 {
      ForwardLinkValid(store, key, f, keys, i);
      LineDistinct(store, f, keys, i - 1, i);
    }
  }

  lemma QuorumByCoordinate(r: Receipt, a: Configuration, b: Configuration, keys: Keyring, trust: Option<T.Registry>)
    requires multiset(a.members) == multiset(b.members) && a.quorum == b.quorum
    ensures QuorumMet(r, a, keys, trust) <==> QuorumMet(r, b, keys, trust)
  {
    CountsEqual(a.members, b.members);
    if r.proof.Signed? && |r.proof.signers| == |r.proof.signatures| {
      assert ValidSigners(r.proof, r.operationDigest, a.members, keys).value ==
             ValidSigners(r.proof, r.operationDigest, b.members, keys).value;
    }
  }

  // `add` overwrites by digest, and the proof is outside the digest. On the line a receipt
  // stands on, an overwrite leaves the receipt VALID exactly when the new configuration is
  // facially valid in the old one's place.
  lemma OverwriteDecides(store: Store, f: seq<string>, i: nat, c: Configuration, r: Receipt, keys: Keyring,
                         trust: Option<T.Registry>)
    requires Indexed(store) && CompleteLine(store, r.authorityKey, f, keys) && r.configurationDigest == f[|f| - 1]
    requires i < |f| && c.digest == f[i] && ReceiptStanding(store, r, keys, trust) == VALID
    ensures ReceiptStanding(Added(store, c), r, keys, trust) == VALID <==> InRole(store, r.authorityKey, f, i, c, keys)
  {
    if InRole(store, r.authorityKey, f, i, c, keys) {
      RoleKeepsReceipt(store, f, i, c, r, keys, trust);
    } else if IsCurrent(Added(store, c), r.authorityKey, f[|f| - 1], keys) {
      RoleNeeded(store, r.authorityKey, f, i, c, keys);
    }
  }

  lemma RoleKeepsReceipt(store: Store, f: seq<string>, i: nat, c: Configuration, r: Receipt, keys: Keyring,
                         trust: Option<T.Registry>)
    requires Indexed(store) && CompleteLine(store, r.authorityKey, f, keys) && r.configurationDigest == f[|f| - 1]
    requires i < |f| && c.digest == f[i] && ReceiptStanding(store, r, keys, trust) == VALID
    requires InRole(store, r.authorityKey, f, i, c, keys)
    ensures ReceiptStanding(Added(store, c), r, keys, trust) == VALID
  {
    RoleKeepsLine(store, r.authorityKey, f, i, c, keys);
    RoleMember(store, r.authorityKey, f, i, keys);
    CoordinateBinds(c, store[f[i]]);
    QuorumByCoordinate(r, c, store[f[i]], keys, trust);
  }

  // c competes with the line: a second genesis for its key or a successor of one of its members.
  ghost predicate Rivals(store: Store, key: string, f: seq<string>, c: Configuration, keys: Keyring)
    requires forall j :: 0 <= j < |f| ==> f[j] in store
  {
    || (c.prior == None && c.authorityKey == key && FacialGenesis(c, keys))
    || exists j :: 0 <= j < |f| && c.prior == Some(f[j]) && FacialSuccessor(c, store[f[j]], keys)
  }

  lemma BesideTheLine(store: Store, key: string, f: seq<string>, c: Configuration, keys: Keyring)
    requires Indexed(store) && CompleteLine(store, key, f, keys) && c.digest !in f && !Rivals(store, key, f, c, keys)
    ensures CompleteLine(Added(store, c), key, f, keys)
  {
    var after := Added(store, c);
    forall j | 0 <= j < |f| ensures SuccessorsOf(after, after[f[j]], keys) == SuccessorsOf(store, store[f[j]], keys) {
      assert after[f[j]] == store[f[j]] && store[f[j]].digest == f[j];
      if j < |f| - 1 { assert f[j + 1] in f; }
      assert c.digest !in SuccessorsOf(store, store[f[j]], keys);
    }
    assert GenesisOf(after, key, keys) == GenesisOf(store, key, keys);
  }

  lemma RivalBlocks(store: Store, key: string, f: seq<string>, c: Configuration, keys: Keyring)
    requires Indexed(store) && CompleteLine(store, key, f, keys) && c.digest !in f && Rivals(store, key, f, c, keys)
    ensures !IsCurrent(Added(store, c), key, f[|f| - 1], keys)
  {
    var after := Added(store, c);
    if c.prior == None {
      assert {f[0], c.digest} <= GenesisOf(after, key, keys);
      TwoAtLeast(GenesisOf(after, key, keys), f[0], c.digest);
      RivalGenesis(after, key, keys);
    } else {
      var j :| 0 <= j < |f| && c.prior == Some(f[j]) && FacialSuccessor(c, store[f[j]], keys);
      assert after[f[j]] == store[f[j]] && store[f[j]].digest == f[j];
      assert c.digest in SuccessorsOf(after, after[f[j]], keys);
      RivalSuccessorBlocks(store, key, f, c, keys, j);
    }
  }

  lemma TwoAtLeast(s: set<string>, x: string, y: string)
    requires x in s && y in s && x != y
    ensures |s| >= 2
  {
    SubsetSize({x, y}, s);
  }

  lemma RivalSuccessorBlocks(store: Store, key: string, f: seq<string>, c: Configuration, keys: Keyring, j: nat)
    requires Indexed(store) && CompleteLine(store, key, f, keys) && c.digest !in f && j < |f|
    requires c.digest in SuccessorsOf(Added(store, c), store[f[j]], keys)
    ensures !IsCurrent(Added(store, c), key, f[|f| - 1], keys)
  {
    var after := Added(store, c);
    if IsCurrent(after, key, f[|f| - 1], keys) {
      ForwardImpliesBackward(after, key, f[|f| - 1], keys);
      if j < |f| - 1 {
        CurrentPassesThrough(store, after, key, f, keys, j + 1);
        ForwardLinkValid(store, key, f, keys, j + 1);
        assert f[j + 1] in SuccessorsOf(store, store[f[j]], keys) && after[f[j + 1]] == store[f[j + 1]];
        TwoAtLeast(SuccessorsOf(after, after[f[j]], keys), f[j + 1], c.digest);
      }
    }
  }

  // Off that line, whether its digest is new or overwrites a held one, a configuration leaves
  // the receipt VALID exactly when it does not compete with the line.
  lemma AdditionDecides(store: Store, f: seq<string>, c: Configuration, r: Receipt, keys: Keyring,
                        trust: Option<T.Registry>)
    requires Indexed(store) && CompleteLine(store, r.authorityKey, f, keys) && r.configurationDigest == f[|f| - 1]
    requires c.digest !in f && ReceiptStanding(store, r, keys, trust) == VALID
    ensures ReceiptStanding(Added(store, c), r, keys, trust) == VALID <==> !Rivals(store, r.authorityKey, f, c, keys)
  {
    if Rivals(store, r.authorityKey, f, c, keys) {
      RivalBlocks(store, r.authorityKey, f, c, keys);
    } else {
      BesideTheLine(store, r.authorityKey, f, c, keys);
    }
  }

  // A facially valid successor need not repeat its parent's authority key; one that does
  // not can never exercise anything.
  lemma DriftedKeyIsInert(store: Store, p: seq<string>, r: Receipt, keys: Keyring, trust: Option<T.Registry>)
    requires Indexed(store) && ValidLine(store, p, keys) && r.configurationDigest == p[0]
    requires store[p[0]].authorityKey != store[p[|p| - 1]].authorityKey
    ensures ReceiptStanding(store, r, keys, trust) != VALID
  {
    if IsCurrent(store, r.authorityKey, p[0], keys) {
      var f :| CompleteLine(store, r.authorityKey, f, keys) && f[|f| - 1] == p[0];
      ReversedLine(store, r.authorityKey, f, keys);
      RootedUnique(store, p, Reversed(f));
    }
  }

  function Unrevoked(members: seq<string>, r: T.Registry): set<string> {
    set m | m in members && T.StandingAt(r, m, None) != T.Revoked
  }

  // Too few unrevoked members, and nothing unrevoked since: no receipt is VALID.
  lemma QuorumLost(store: Store, r: Receipt, keys: Keyring, now: T.Registry, later: T.Registry)
    requires r.configurationDigest in store
    requires forall m :: T.StandingAt(now, m, None) == T.Revoked ==> T.StandingAt(later, m, None) == T.Revoked
    requires |Unrevoked(store[r.configurationDigest].members, now)| < store[r.configurationDigest].quorum
    ensures ReceiptStanding(store, r, keys, Some(later)) != VALID
  {
    var c := store[r.configurationDigest];
    var signers := ValidSigners(r.proof, r.operationDigest, c.members, keys);
    if signers.Some? {
      var counted := Exercising(signers.value, Some(later));
      SubsetSize(counted, Unrevoked(c.members, now));
    }
  }

  // Quorum loss by revocation is permanent: once fewer than a quorum of the members are
  // unrevoked, no receipt under the configuration is VALID after any further trust history.
  lemma QuorumLossIsPermanent(ops: seq<T.Op>, more: seq<T.Op>, store: Store, r: Receipt, keys: Keyring)
    requires r.configurationDigest in store
    requires |Unrevoked(store[r.configurationDigest].members,
             T.Run(T.EMPTY, ops))| < store[r.configurationDigest].quorum
    ensures ReceiptStanding(store, r, keys, Some(T.Run(T.EMPTY, ops + more))) != VALID
  {
    var now, later := T.Run(T.EMPTY, ops), T.Run(T.EMPTY, ops + more);
    forall m | T.StandingAt(now, m, None) == T.Revoked ensures T.StandingAt(later, m, None) == T.Revoked {
      T.ForwardOnly(ops, more, m, None);
    }
    QuorumLost(store, r, keys, now, later);
  }
}
