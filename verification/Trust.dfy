// Node trust lifecycle (kawa/domain/trust.py): current standing per key and sequence
// number, incarnation lineage, and scope grants, updated in place by a registry object.

module Trust {
  import opened Prelude

  datatype Standing = Active | Rotated | Revoked | Unknown

  // revokedFrom and prior are present only on a fork-scoped revocation.
  datatype KeyEntry = KeyEntry(node: string, standing: Standing, incarnation: string,
                               revokedFrom: Option<int>, prior: Option<Standing>)
  datatype Incarnation = Incarnation(node: string, parent: Option<string>)
  datatype Registry = Registry(keys: map<string, KeyEntry>, incarnations: map<string, Incarnation>,
                               grants: map<string, seq<string>>)

  datatype Refusal =
    | KeyRevoked | KeyBoundElsewhere | IncarnationBoundElsewhere | KeyNotFresh | UnknownParent
    | ParentElsewhere | IncarnationExists
  datatype Outcome = Done | Refused(why: Refusal)

  function Genesis(node: string): string { "inc:" + node + ":genesis" }

  function StandingAt(r: Registry, key: string, at: Option<int>): Standing {
    if key !in r.keys then Unknown
    else
      var e := r.keys[key];
      if e.standing == Revoked && at.Some? && e.revokedFrom.Some? && at.value < e.revokedFrom.value then
        (match e.prior case Some(p) => p case None => Revoked)
      else e.standing
  }

  function NodeOf(r: Registry, key: string): Option<string> {
    if key in r.keys then Some(r.keys[key].node) else None
  }

  function IncarnationOf(r: Registry, key: string): Option<string> {
    if key in r.keys then Some(r.keys[key].incarnation) else None
  }

  function GrantsOf(r: Registry, node: string): set<string> {
    if node in r.grants then set s | s in r.grants[node] else {}
  }

  predicate BoundElsewhere(r: Registry, node: string, key: string) { key in r.keys && r.keys[key].node != node }

  // ---- the operations, on values ----

  function SetDefault(m: map<string, Incarnation>, inc: string, entry: Incarnation): map<string, Incarnation> {
    if inc in m then m else m[inc := entry]
  }

  function Granted(grants: map<string, seq<string>>, node: string, scope: string): map<string, seq<string>> {
    var held := if node in grants then grants[node] else [];
    grants[node := if scope in held then held else held + [scope]]
  }

  function GrantedAll(grants: map<string, seq<string>>, node: string, scopes: seq<string>): map<string, seq<string>> {
    if scopes == [] then grants
    else Granted(GrantedAll(grants, node, scopes[..|scopes| - 1]), node, scopes[|scopes| - 1])
  }

  function IndexOf(s: seq<string>, x: string): (i: nat)
    requires x in s
    ensures i < |s| && s[i] == x && forall k :: 0 <= k < i ==> s[k] != x
  {
    if s[0] == x then 0 else 1 + IndexOf(s[1..], x)
  }

  datatype Op =
    | Enroll(node: string, key: string, incarnation: Option<string>, scopes: seq<string>)
    | Rotate(node: string, oldKey: string, newKey: string)
    | Succeed(node: string, parent: string, childIncarnation: string, newKey: string)
    | Revoke(key: string, fromSeq: Option<int>)
    | GrantScope(node: string, scope: string)
    | RevokeScope(node: string, scope: string)

  // An absent or empty name means the node's genesis.
  function EnrollIncarnation(node: string, incarnation: Option<string>): string {
    if incarnation.Some? && incarnation.value != "" then incarnation.value else Genesis(node)
  }

  function Check(r: Registry, op: Op): Outcome {
    match op
    case Enroll(node, key, incarnation, _) =>
      var inc := EnrollIncarnation(node, incarnation);
      if StandingAt(r, key, None) == Revoked then Refused(KeyRevoked)
      else if BoundElsewhere(r, node, key) then Refused(KeyBoundElsewhere)
      else if inc in r.incarnations && r.incarnations[inc].node != node then Refused(IncarnationBoundElsewhere)
      else Done
    case Rotate(node, oldKey, newKey) =>
      if StandingAt(r, newKey, None) == Revoked || StandingAt(r, oldKey, None) == Revoked then Refused(KeyRevoked)
      else if BoundElsewhere(r, node, oldKey) || BoundElsewhere(r, node, newKey) then Refused(KeyBoundElsewhere)
      else Done
    case Succeed(node, parent, inc, key) =>
      if key in r.keys then Refused(KeyNotFresh)
      else if parent !in r.incarnations then Refused(UnknownParent)
      else if r.incarnations[parent].node != node then Refused(ParentElsewhere)
      else if inc in r.incarnations then Refused(IncarnationExists)
      else Done
    case _ => Done
  }

  function Revoking(e: KeyEntry, fromSeq: Option<int>): KeyEntry {
    if e.standing != Revoked then
      if fromSeq.Some? then e.(standing := Revoked, revokedFrom := fromSeq, prior := Some(e.standing))
      else e.(standing := Revoked)
    else if fromSeq.None? then e.(revokedFrom := None, prior := None)
    else e
  }

  // The registry after an operation; a refused one leaves it as it was.
  function After(r: Registry, op: Op): Registry {
    if Check(r, op) != Done then r
    else match op
      case Enroll(node, key, incarnation, scopes) =>
        var inc := EnrollIncarnation(node, incarnation);
        Registry(r.keys[key := KeyEntry(node, Active, inc, None, None)],
                 SetDefault(r.incarnations, inc, Incarnation(node, None)),
                 GrantedAll(r.grants, node, scopes))
      case Rotate(node, oldKey, newKey) =>
        var inc := if oldKey in r.keys then r.keys[oldKey].incarnation else Genesis(node);
        var keys := if oldKey in r.keys && r.keys[oldKey].standing == Active
                    then r.keys[oldKey := r.keys[oldKey].(standing := Rotated)]
                    else r.keys;
        Registry(keys[newKey := KeyEntry(node, Active, inc, None, None)],
                 SetDefault(r.incarnations, inc, Incarnation(node, None)), r.grants)
      case Succeed(node, parent, inc, key) =>
        Registry(r.keys[key := KeyEntry(node, Active, inc, None, None)],
                 r.incarnations[inc := Incarnation(node, Some(parent))], r.grants)
      case Revoke(key, fromSeq) =>
        if key in r.keys then r.(keys := r.keys[key := Revoking(r.keys[key], fromSeq)]) else r
      case GrantScope(node, scope) => r.(grants := Granted(r.grants, node, scope))
      case RevokeScope(node, scope) =>
        if node in r.grants && scope in r.grants[node] then
          var s, i := r.grants[node], IndexOf(r.grants[node], scope);
          r.(grants := r.grants[node := s[..i] + s[i + 1..]])
        else r
  }

  // ---- runs ----

  function Run(r: Registry, ops: seq<Op>): Registry {
    if ops == [] then r else After(Run(r, ops[..|ops| - 1]), ops[|ops| - 1])
  }

  const EMPTY: Registry := Registry(map[], map[], map[])

  // A fork scope and the standing before it come together, on revoked keys only.
  predicate EntryWf(e: KeyEntry) {
    && e.standing != Unknown
    && (e.prior.Some? <==> e.revokedFrom.Some?)
    && (e.prior.Some? ==> e.standing == Revoked && (e.prior.value == Active || e.prior.value == Rotated))
  }

  ghost predicate KeysWf(r: Registry) { forall k :: k in r.keys ==> EntryWf(r.keys[k]) }

  lemma StepKeysWf(r: Registry, op: Op)
    requires KeysWf(r)
    ensures KeysWf(After(r, op))
  {
  }

  lemma {:induction false} RunKeysWf(ops: seq<Op>)
    ensures KeysWf(Run(EMPTY, ops))
  {
    if ops != [] {
      RunKeysWf(ops[..|ops| - 1]);
      StepKeysWf(Run(EMPTY, ops[..|ops| - 1]), ops[|ops| - 1]);
    }
  }

  // One step never rebinds a key, never un-revokes a judged pair, and never rewrites an
  // incarnation.
  lemma StepForward(r: Registry, op: Op, key: string, at: Option<int>)
    requires KeysWf(r)
    ensures NodeOf(r, key).Some? ==> NodeOf(After(r, op), key) == NodeOf(r, key)
    ensures StandingAt(r, key, at) == Revoked ==> StandingAt(After(r, op), key, at) == Revoked
    ensures forall i :: i in r.incarnations ==>
              i in After(r, op).incarnations && After(r, op).incarnations[i] == r.incarnations[i]
  {
  }

  lemma KeysGrow(r: Registry, op: Op)
    ensures r.keys.Keys <= After(r, op).keys.Keys
  {
  }

  // Over every run from the empty registry, and every continuation of it: a key's node
  // never changes, a (key, seq) judged revoked stays revoked, and recorded incarnations
  // are permanent.
  lemma {:induction false} ForwardOnly(ops: seq<Op>, more: seq<Op>, key: string, at: Option<int>)
    ensures var r, r' := Run(EMPTY, ops), Run(EMPTY, ops + more);
      && (NodeOf(r, key).Some? ==> NodeOf(r', key) == NodeOf(r, key))
      && (StandingAt(r, key, at) == Revoked ==> StandingAt(r', key, at) == Revoked)
      && (forall i :: i in r.incarnations ==> i in r'.incarnations && r'.incarnations[i] == r.incarnations[i])
    decreases more
  {
    if more == [] {
      assert ops + more == ops;
    } else {
      var init := more[..|more| - 1];
      ForwardOnly(ops, init, key, at);
      LastOp(ops, more);
      RunKeysWf(ops + init);
      StepForward(Run(EMPTY, ops + init), more[|more| - 1], key, at);
    }
  }

  lemma LastOp(ops: seq<Op>, more: seq<Op>)
    requires more != []
    ensures Run(EMPTY, ops + more) == After(Run(EMPTY, ops + more[..|more| - 1]), more[|more| - 1])
  {
    assert (ops + more)[..|ops + more| - 1] == ops + more[..|more| - 1];
  }

  // ---- what each operation does to the standing of every key ----

  // Nothing a reader can ask about this key differs.
  ghost predicate Unmoved(r: Registry, r': Registry, key: string) {
    && NodeOf(r', key) == NodeOf(r, key) && IncarnationOf(r', key) == IncarnationOf(r, key)
    && forall at :: StandingAt(r', key, at) == StandingAt(r, key, at)
  }

  ghost predicate UnmovedBut(r: Registry, r': Registry, moved: set<string>) {
    forall k :: k !in moved ==> Unmoved(r, r', k)
  }

  // The key speaks for this incarnation of the node at every position.
  ghost predicate Speaks(r: Registry, key: string, node: string, incarnation: string) {
    && NodeOf(r, key) == Some(node) && IncarnationOf(r, key) == Some(incarnation)
    && forall at :: StandingAt(r, key, at) == Active
  }

  // A rotation retires the old key everywhere, hands its incarnation to the new one, and
  // moves no other key.
  lemma RotationStep(r: Registry, node: string, oldKey: string, newKey: string)
    requires Check(r, Rotate(node, oldKey, newKey)) == Done
    ensures var r' := After(r, Rotate(node, oldKey, newKey));
      && Speaks(r', newKey, node, match IncarnationOf(r, oldKey) case Some(i) => i case None => Genesis(node))
      && UnmovedBut(r, r', {oldKey, newKey})
      && (oldKey != newKey ==>
          && NodeOf(r', oldKey) == NodeOf(r, oldKey) && IncarnationOf(r', oldKey) == IncarnationOf(r, oldKey)
          && (StandingAt(r, oldKey, None) == Active ==> forall at :: StandingAt(r', oldKey, at) == Rotated)
          && (StandingAt(r, oldKey, None) != Active ==> Unmoved(r, r', oldKey)))
  {
  }

  // An enrolment binds its key to the incarnation it names, or to the node's genesis.
  lemma EnrolmentStep(r: Registry, node: string, key: string, incarnation: Option<string>, scopes: seq<string>)
    requires Check(r, Enroll(node, key, incarnation, scopes)) == Done
    ensures var r' := After(r, Enroll(node, key, incarnation, scopes));
      && (incarnation.Some? && incarnation.value != "" ==> Speaks(r', key, node, incarnation.value))
      && (incarnation == None || incarnation == Some("") ==> Speaks(r', key, node, Genesis(node)))
      && UnmovedBut(r, r', {key})
  {
  }

  // A succession binds a key never seen before to a new incarnation under its parent.
  lemma SuccessionStep(r: Registry, node: string, parent: string, incarnation: string, key: string)
    requires Check(r, Succeed(node, parent, incarnation, key)) == Done
    ensures var r' := After(r, Succeed(node, parent, incarnation, key));
      && NodeOf(r, key) == None && Speaks(r', key, node, incarnation) && UnmovedBut(r, r', {key})
      && incarnation !in r.incarnations && parent in r.incarnations && r.incarnations[parent].node == node
      && r'.incarnations == r.incarnations[incarnation := Incarnation(node, Some(parent))]
  {
  }

  // The standing before the fork point, and revoked from it on.
  function StandingBefore(r: Registry, key: string, at: Option<int>, fork: int): Standing {
    if at.Some? && at.value < fork then StandingAt(r, key, at) else Revoked
  }

  // A total revocation silences a bound key at every position, a scoped one of a key not
  // yet revoked from its position on; a key already revoked is not scoped, and no other
  // key moves.
  lemma RevocationStep(r: Registry, key: string, fromSeq: Option<int>)
    requires KeysWf(r)
    ensures var r' := After(r, Revoke(key, fromSeq));
      && NodeOf(r', key) == NodeOf(r, key) && IncarnationOf(r', key) == IncarnationOf(r, key)
      && UnmovedBut(r, r', {key})
      && (NodeOf(r, key) == None ==> Unmoved(r, r', key))
      && (NodeOf(r, key) != None && fromSeq == None ==> forall at :: StandingAt(r', key, at) == Revoked)
      && (NodeOf(r, key) != None && fromSeq != None ==>
          if StandingAt(r, key, None) == Revoked then Unmoved(r, r', key)
          else forall at :: StandingAt(r', key, at) == StandingBefore(r, key, at, fromSeq.value))
  {
  }

  // Grants move no key.
  lemma GrantsMoveNoKey(r: Registry, node: string, scope: string)
    ensures UnmovedBut(r, After(r, GrantScope(node, scope)), {})
    ensures UnmovedBut(r, After(r, RevokeScope(node, scope)), {})
  {
  }

  predicate Recorded(r: Registry, incarnation: string, node: string) {
    incarnation in r.incarnations && r.incarnations[incarnation].node == node
  }

  // An operation is carried out exactly when it binds no key of another node or revoked,
  // joins no incarnation of another node, and, for a succession, starts a new incarnation
  // with a new key under one recorded for the node. Revoking and granting are never refused.
  lemma AcceptedExactly(r: Registry, op: Op)
    ensures Check(r, op) == Done <==>
      match op
      case Enroll(node, key, incarnation, _) =>
        var inc := if incarnation == None || incarnation == Some("") then Genesis(node) else incarnation.value;
        && (NodeOf(r, key) == None || (NodeOf(r, key) == Some(node) && StandingAt(r, key, None) != Revoked))
        && (inc in r.incarnations ==> Recorded(r, inc, node))
      case Rotate(node, oldKey, newKey) =>
        forall key :: key == oldKey || key == newKey ==>
          NodeOf(r, key) == None || (NodeOf(r, key) == Some(node) && StandingAt(r, key, None) != Revoked)
      case Succeed(node, parent, incarnation, key) =>
        NodeOf(r, key) == None && Recorded(r, parent, node) && forall n :: !Recorded(r, incarnation, n)
      case _ => true
  {
    match op {
      case Rotate(_, oldKey, newKey) =>
        assert NodeOf(r, oldKey) == NodeOf(r, oldKey) && NodeOf(r, newKey) == NodeOf(r, newKey);
      case Succeed(_, _, incarnation, _) =>
        if incarnation in r.incarnations { assert Recorded(r, incarnation, r.incarnations[incarnation].node); }
      case _ =>
    }
  }

  predicate Revives(op: Op, key: string) { (op.Enroll? && op.key == key) || (op.Rotate? && op.newKey == key) }

  lemma RetiredStep(r: Registry, op: Op, key: string, at: Option<int>)
    requires KeysWf(r) && (StandingAt(r, key, at) == Rotated || StandingAt(r, key, at) == Revoked)
    ensures var r' := After(r, op);
      || StandingAt(r', key, at) == Rotated || StandingAt(r', key, at) == Revoked
      || (StandingAt(r', key, at) == Active && Revives(op, key) && Check(r, op) == Done)
  {
  }

  // A key judged rotated somewhere is judged active there again only after an accepted
  // enrolment of it or an accepted rotation to it.
  lemma {:induction false} RotatedUntilRevived(ops: seq<Op>, more: seq<Op>, key: string, at: Option<int>)
    returns (i: nat)
    requires StandingAt(Run(EMPTY, ops), key, at) == Rotated
    requires StandingAt(Run(EMPTY, ops + more), key, at) == Active
    ensures i < |more| && Revives(more[i], key) && Check(Run(EMPTY, ops + more[..i]), more[i]) == Done
    decreases more
  {
    NothingMore(ops);
    if more != [] {
      var init := more[..|more| - 1];
      assert (ops + more)[..|ops + more| - 1] == ops + init;
      var before := Run(EMPTY, ops + init);
      RunKeysWf(ops + init);
      if StandingAt(before, key, at) == Active {
        i := RotatedUntilRevived(ops, init, key, at);
        assert more[..i] == init[..i];
      } else {
        StillRetired(ops, init, key, at);
        RetiredStep(before, more[|more| - 1], key, at);
        i := |more| - 1;
      }
    }
  }

  lemma NothingMore(ops: seq<Op>)
    ensures ops + [] == ops
  {
  }

  lemma StillRetired(ops: seq<Op>, more: seq<Op>, key: string, at: Option<int>)
    requires StandingAt(Run(EMPTY, ops), key, at) == Rotated && StandingAt(Run(EMPTY, ops + more), key, at) != Active
    ensures var standing := StandingAt(Run(EMPTY, ops + more), key, at); standing == Rotated || standing == Revoked
    decreases more
  {
    RunKeysWf(ops + more);
    KnownStays(ops, more, key);
  }

  lemma {:induction false} KnownStays(ops: seq<Op>, more: seq<Op>, key: string)
    requires key in Run(EMPTY, ops).keys
    ensures key in Run(EMPTY, ops + more).keys
    decreases more
  {
    if more == [] {
      assert ops + more == ops;
    } else {
      assert (ops + more)[..|ops + more| - 1] == ops + more[..|more| - 1];
      KnownStays(ops, more[..|more| - 1], key);
      KeysGrow(Run(EMPTY, ops + more[..|more| - 1]), more[|more| - 1]);
    }
  }

  // A scoped revocation withdraws trust from the fork point on and spares the trunk.
  lemma ScopedRevocation(ops: seq<Op>, key: string, fork: int, seqNo: int)
    requires key in Run(EMPTY, ops).keys && Run(EMPTY, ops).keys[key].standing != Revoked
    ensures var r := Run(EMPTY, ops); var r' := After(r, Revoke(key, Some(fork)));
      && StandingAt(r', key, None) == Revoked
      && StandingAt(r', key, Some(seqNo)) == if seqNo < fork then StandingAt(r, key, Some(seqNo)) else Revoked
  {
    RunKeysWf(ops);
  }

  // ---- incarnation lineage ----

  // A rank that strictly drops along every parent link, within one node.
  ghost predicate Ranked(r: Registry, rank: map<string, nat>) {
    forall i :: i in r.incarnations && r.incarnations[i].parent.Some? ==>
      var p := r.incarnations[i].parent.value;
      p in r.incarnations && r.incarnations[p].node == r.incarnations[i].node
      && i in rank && p in rank && rank[p] < rank[i]
  }

  ghost predicate RanksAll(r: Registry, rank: map<string, nat>) { forall i :: i in r.incarnations ==> i in rank }

  function Above(r: Registry, rank: map<string, nat>, op: Op): map<string, nat> {
    var inc := match op
      case Enroll(node, _, incarnation, _) => EnrollIncarnation(node, incarnation)
      case Rotate(node, oldKey, _) => if oldKey in r.keys then r.keys[oldKey].incarnation else Genesis(node)
      case Succeed(_, _, inc, _) => inc
      case _ => "";
    if inc in rank then rank
    else rank[inc := if op.Succeed? && op.parent in rank then rank[op.parent] + 1 else 0]
  }

  lemma StepRanked(r: Registry, rank: map<string, nat>, op: Op)
    requires Ranked(r, rank) && RanksAll(r, rank) && rank.Keys == r.incarnations.Keys
    ensures exists next ::
              Ranked(After(r, op), next) && RanksAll(After(r, op), next) && next.Keys == After(r, op).incarnations.Keys
  {
    var r' := After(r, op);
    if r'.incarnations.Keys == r.incarnations.Keys {
      assert Ranked(r', rank) && RanksAll(r', rank);
    } else {
      var next := Above(r, rank, op);
      assert next.Keys == r'.incarnations.Keys;
      assert Ranked(r', next) && RanksAll(r', next);
    }
  }

  lemma {:induction false} RunRanked(ops: seq<Op>) returns (rank: map<string, nat>)
    ensures var r := Run(EMPTY, ops); Ranked(r, rank) && RanksAll(r, rank) && rank.Keys == r.incarnations.Keys
  {
    if ops == [] {
      rank := map[];
    } else {
      var before := RunRanked(ops[..|ops| - 1]);
      var r := Run(EMPTY, ops[..|ops| - 1]);
      StepRanked(r, before, ops[|ops| - 1]);
      rank :| Ranked(After(r, ops[|ops| - 1]), rank) && RanksAll(After(r, ops[|ops| - 1]), rank)
              && rank.Keys == After(r, ops[|ops| - 1]).incarnations.Keys;
    }
  }

  // p climbs parent links: p[i + 1] is the recorded parent of p[i].
  ghost predicate Lineage(r: Registry, p: seq<string>) {
    && |p| >= 1 && p[0] in r.incarnations
    && forall i :: 0 <= i < |p| - 1 ==> p[i] in r.incarnations && r.incarnations[p[i]].parent == Some(p[i + 1])
  }

  lemma {:induction false} LineageDescends(r: Registry, rank: map<string, nat>, p: seq<string>, i: nat, j: nat)
    requires Ranked(r, rank) && RanksAll(r, rank) && Lineage(r, p) && i <= j < |p|
    ensures p[i] in r.incarnations && p[j] in r.incarnations
    ensures r.incarnations[p[j]].node == r.incarnations[p[i]].node
    ensures i < j ==> rank[p[j]] < rank[p[i]]
    decreases j
  {
    if j == 0 {
    } else if i == j {
      LineageDescends(r, rank, p, j - 1, j - 1);
    } else {
      LineageDescends(r, rank, p, i, j - 1);
    }
  }

  // In every run, climbing parent links never returns to an incarnation already met and
  // never leaves the node.
  lemma LineageAcyclicWithinNode(ops: seq<Op>, p: seq<string>)
    requires Lineage(Run(EMPTY, ops), p)
    ensures var r := Run(EMPTY, ops);
      && (forall i :: 0 <= i < |p| ==> p[i] in r.incarnations && r.incarnations[p[i]].node == r.incarnations[p[0]].node)
      && (forall i, j :: 0 <= i < j < |p| ==> p[i] != p[j])
  {
    var r := Run(EMPTY, ops);
    var rank := RunRanked(ops);
    forall i | 0 <= i < |p| ensures p[i] in r.incarnations && r.incarnations[p[i]].node == r.incarnations[p[0]].node {
      LineageDescends(r, rank, p, 0, i);
    }
    forall i, j | 0 <= i < j < |p| ensures p[i] != p[j] {
      LineageDescends(r, rank, p, i, j);
    }
  }

  // ---- does a key speak for an incarnation of its own node? ----

  ghost predicate Attributed(r: Registry) {
    forall k :: k in r.keys ==>
      r.keys[k].incarnation in r.incarnations && r.incarnations[r.keys[k].incarnation].node == r.keys[k].node
  }

  // The one call that breaks it: rotating from a key that was never bound, for a node
  // whose genesis name another node has already registered.
  predicate SquattedGenesis(r: Registry, op: Op) {
    && op.Rotate? && op.oldKey !in r.keys
    && Genesis(op.node) in r.incarnations && r.incarnations[Genesis(op.node)].node != op.node
  }

  lemma AttributionStep(r: Registry, op: Op)
    requires Attributed(r) && Check(r, op) == Done
    ensures Attributed(After(r, op)) <==> !SquattedGenesis(r, op)
  {
    var r' := After(r, op);
    if SquattedGenesis(r, op) {
      assert op.newKey in r'.keys;
    }
  }

  // The broken case is reachable from the empty registry.
  lemma AttributionCanBreak()
    ensures !Attributed(Run(EMPTY, [Enroll("a", "k1", Some(Genesis("b")), []), Rotate("b", "k0", "k2")]))
  {
    var first := Enroll("a", "k1", Some(Genesis("b")), []);
    var ops := [first, Rotate("b", "k0", "k2")];
    assert ops[..1] == [first] && [first][..0] == [];
    assert Run(EMPTY, []) == EMPTY;
    assert Genesis("b") == "inc:b:genesis";
    assert Run(EMPTY, [first]) == After(EMPTY, first);
    var r := Run(EMPTY, [first]);
    assert r.incarnations[Genesis("b")].node == "a";
    var r' := Run(EMPTY, ops);
    assert r'.keys["k2"].incarnation == Genesis("b");
  }

  // ---- scope grants ----

  ghost predicate GrantsWf(r: Registry) { forall n :: n in r.grants ==> Distinct(r.grants[n]) }

  lemma {:induction false} GrantedAllMeans(grants: map<string, seq<string>>, node: string, scopes: seq<string>)
    requires forall n :: n in grants ==> Distinct(grants[n])
    ensures var g := GrantedAll(grants, node, scopes);
      && (forall n :: n in g ==> Distinct(g[n]))
      && (forall n :: n != node ==> (n in g <==> n in grants) && (n in g ==> g[n] == grants[n]))
      && (node in grants ==> node in g) && (scopes != [] ==> node in g)
      && (forall s :: node in g && s in g[node] <==> (node in grants && s in grants[node]) || s in scopes)
  {
    if scopes != [] {
      var init, last := scopes[..|scopes| - 1], scopes[|scopes| - 1];
      GrantedAllMeans(grants, node, init);
      assert scopes == init + [last];
      assert forall s :: s in scopes <==> s in init || s == last;
    }
  }

  lemma RemovedOnce(s: seq<string>, x: string)
    requires Distinct(s) && x in s
    ensures var i := IndexOf(s, x);
            Distinct(s[..i] + s[i + 1..]) && forall y :: y in s[..i] + s[i + 1..] <==> y in s && y != x
  {
    var i := IndexOf(s, x);
    var t := s[..i] + s[i + 1..];
    forall y | y in s && y != x ensures y in t {
      var k :| 0 <= k < |s| && s[k] == y;
      assert k < i ==> t[k] == y;
      assert k > i ==> t[k - 1] == y;
    }
    forall k | 0 <= k < |t| ensures t[k] in s && t[k] != x {
      assert t[k] == if k < i then s[k] else s[k + 1];
    }
  }

  // Grants are sets kept as lists: granting adds exactly the scope, revoking removes
  // exactly it, and no other node's grants move.
  lemma GrantStep(r: Registry, op: Op, node: string)
    requires GrantsWf(r)
    ensures GrantsWf(After(r, op))
    ensures GrantsOf(After(r, op), node) ==
      if Check(r, op) != Done then GrantsOf(r, node)
      else match op
        case Enroll(n, _, _, scopes) =>
          if n == node then GrantsOf(r, node) + (set s | s in scopes) else GrantsOf(r, node)
        case GrantScope(n, scope) => if n == node then GrantsOf(r, node) + {scope} else GrantsOf(r, node)
        case RevokeScope(n, scope) => if n == node then GrantsOf(r, node) - {scope} else GrantsOf(r, node)
        case _ => GrantsOf(r, node)
  {
    match op {
      case Enroll(n, _, _, scopes) => GrantedAllMeans(r.grants, n, scopes);
      case RevokeScope(n, scope) =>
        if n in r.grants && scope in r.grants[n] { RemovedOnce(r.grants[n], scope); }
      case _ =>
    }
  }

  // ---- the registry object ----

  class TrustRegistry {
    var keys: map<string, KeyEntry>
    var incarnations: map<string, Incarnation>
    var grants: map<string, seq<string>>

    function R(): Registry
      reads this
    {
      Registry(keys, incarnations, grants)
    }

    constructor ()
      ensures R() == EMPTY
    {
      keys, incarnations, grants := map[], map[], map[];
    }

    method Enroll(node: string, key: string, incarnation: Option<string>, scopes: seq<string>) returns (o: Outcome)
      modifies this
      ensures o == Check(old(R()), Op.Enroll(node, key, incarnation, scopes))
      ensures R() == After(old(R()), Op.Enroll(node, key, incarnation, scopes))
    {
      if StandingAt(R(), key, None) == Revoked {
        return Refused(KeyRevoked);
      }
      if key in keys && keys[key].node != node {
        return Refused(KeyBoundElsewhere);
      }
      var inc := if incarnation.Some? && incarnation.value != "" then incarnation.value else Genesis(node);
      if inc in incarnations && incarnations[inc].node != node {
        return Refused(IncarnationBoundElsewhere);
      }
      if inc !in incarnations {
        incarnations := incarnations[inc := Incarnation(node, None)];
      }
      keys := keys[key := KeyEntry(node, Active, inc, None, None)];
      GrantAll(node, scopes);
      o := Done;
    }

    method GrantAll(node: string, scopes: seq<string>)
      modifies this`grants
      ensures grants == GrantedAll(old(grants), node, scopes)
    {
      for i := 0 to |scopes|
        invariant grants == GrantedAll(old(grants), node, scopes[..i])
      {
        if node !in grants {
          grants := grants[node := []];
        }
        if scopes[i] !in grants[node] {
          grants := grants[node := grants[node] + [scopes[i]]];
        }
        assert scopes[..i + 1][..i] == scopes[..i];
      }
      assert scopes[..|scopes|] == scopes;
    }

    method Rotate(node: string, oldKey: string, newKey: string) returns (o: Outcome)
      modifies this
      ensures o == Check(old(R()), Op.Rotate(node, oldKey, newKey))
      ensures R() == After(old(R()), Op.Rotate(node, oldKey, newKey))
    {
      if StandingAt(R(), newKey, None) == Revoked || StandingAt(R(), oldKey, None) == Revoked {
        return Refused(KeyRevoked);
      }
      if BoundElsewhere(R(), node, oldKey) || BoundElsewhere(R(), node, newKey) {
        return Refused(KeyBoundElsewhere);
      }
      var inc := if oldKey in keys then keys[oldKey].incarnation else Genesis(node);
      if oldKey in keys && keys[oldKey].standing == Active {
        keys := keys[oldKey := keys[oldKey].(standing := Rotated)];
      }
      if inc !in incarnations {
        incarnations := incarnations[inc := Incarnation(node, None)];
      }
      keys := keys[newKey := KeyEntry(node, Active, inc, None, None)];
      o := Done;
    }

    method SucceedIncarnation(node: string, parent: string, incarnation: string, newKey: string) returns (o: Outcome)
      modifies this
      ensures o == Check(old(R()), Succeed(node, parent, incarnation, newKey))
      ensures R() == After(old(R()), Succeed(node, parent, incarnation, newKey))
    {
      if newKey in keys {
        return Refused(KeyNotFresh);
      }
      if parent !in incarnations {
        return Refused(UnknownParent);
      }
      if incarnations[parent].node != node {
        return Refused(ParentElsewhere);
      }
      if incarnation in incarnations {
        return Refused(IncarnationExists);
      }
      incarnations := incarnations[incarnation := Incarnation(node, Some(parent))];
      keys := keys[newKey := KeyEntry(node, Active, incarnation, None, None)];
      o := Done;
    }

    method Revoke(key: string, fromSeq: Option<int>)
      modifies this`keys
      ensures R() == After(old(R()), Op.Revoke(key, fromSeq))
    {
      if key in keys {
        var entry := keys[key];
        if entry.standing != Revoked {
          if fromSeq.Some? {
            entry := entry.(revokedFrom := fromSeq, prior := Some(entry.standing));
          }
          entry := entry.(standing := Revoked);
        } else if fromSeq.None? {
          entry := entry.(revokedFrom := None, prior := None);
        }
        keys := keys[key := entry];
      }
    }

    method GrantScope(node: string, scope: string)
      modifies this`grants
      ensures R() == After(old(R()), Op.GrantScope(node, scope))
    {
      if node !in grants {
        grants := grants[node := []];
      }
      if scope !in grants[node] {
        grants := grants[node := grants[node] + [scope]];
      }
    }

    method RevokeScope(node: string, scope: string)
      modifies this`grants
      ensures R() == After(old(R()), Op.RevokeScope(node, scope))
    {
      if node in grants && scope in grants[node] {
        var s, i := grants[node], IndexOf(grants[node], scope);
        grants := grants[node := s[..i] + s[i + 1..]];
      }
    }
  }
}
