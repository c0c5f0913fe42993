// The authority contract (formal/check_authority.py) lifted from its four-node instance
// to every configuration tree, every quorum size and every fault bound.

module Contract {
  import opened Prelude

  datatype Parent = Founding | Recovery | Of(config: string)
  datatype Candidate = Candidate(members: set<nat>, parent: Parent)
  type Pool = map<string, Candidate>
  datatype Accepted = Accepted(config: string, op: string)
  datatype State = State(legit: set<string>, superseded: set<string>, accepted: set<Accepted>, distrusted: set<nat>)

  // The instance the bounded model fixes, as parameters.
  datatype Instance = Instance(pool: Pool, root: string, quorum: nat, ops: set<string>, nodes: set<nat>)
  datatype Rules = Rules(uniqueSuccession: bool, nonEquivocation: bool)

  datatype Action = Reconfigure(config: string) | Accept(config: string, op: string) | Distrust(node: nat)

  function Initial(m: Instance): State { State({m.root}, {}, {}, {}) }

  predicate QuorumOf(m: Instance, members: set<nat>, distrusted: set<nat>) { |members - distrusted| >= m.quorum }

  predicate OverlapIsQuorum(m: Instance, a: set<nat>, b: set<nat>) { |a * b| >= m.quorum }

  predicate Enabled(m: Instance, rules: Rules, s: State, a: Action) {
    match a
    case Reconfigure(c) =>
      && c in m.pool && c !in s.legit && m.pool[c].parent.Of?
      && var parent := m.pool[c].parent.config;
      && parent in s.legit && parent in m.pool
      && (rules.uniqueSuccession ==> parent !in s.superseded)
      && QuorumOf(m, m.pool[parent].members, s.distrusted)
      && OverlapIsQuorum(m, m.pool[parent].members, m.pool[c].members)
    case Accept(c, op) =>
      && c in s.legit && c in m.pool && c !in s.superseded
      && QuorumOf(m, m.pool[c].members, s.distrusted)
      && op in m.ops && Accepted(c, op) !in s.accepted
      && (rules.nonEquivocation ==> forall x :: x in s.accepted ==> x.config != c)
    case Distrust(n) => n in m.nodes && n !in s.distrusted
  }

  function Apply(m: Instance, s: State, a: Action): State {
    match a
    case Reconfigure(c) =>
      s.(legit := s.legit + {c},
         superseded := s.superseded + if c in m.pool && m.pool[c].parent.Of? then {m.pool[c].parent.config} else {})
    case Accept(c, op) => s.(accepted := s.accepted + {Accepted(c, op)})
    case Distrust(n) => s.(distrusted := s.distrusted + {n})
  }

  ghost predicate Trace(m: Instance, rules: Rules, ss: seq<State>, acts: seq<Action>) {
    && |ss| == |acts| + 1 && ss[0] == Initial(m)
    && forall i :: 0 <= i < |acts| ==> Enabled(m, rules, ss[i], acts[i]) && ss[i + 1] == Apply(m, ss[i], acts[i])
  }

  ghost predicate Reachable(m: Instance, rules: Rules, s: State) {
    exists ss, acts :: Trace(m, rules, ss, acts) && ss[|ss| - 1] == s
  }

  // ---- what must never happen ----

  // p climbs from c by recorded parents.
  ghost predicate Climb(pool: Pool, p: seq<string>) {
    |p| >= 1 && forall i :: 0 <= i < |p| - 1 ==> p[i] in pool && pool[p[i]].parent == Of(p[i + 1])
  }

  ghost predicate AncestorOf(pool: Pool, a: string, c: string) {
    exists p :: Climb(pool, p) && |p| >= 2 && p[0] == c && p[|p| - 1] == a
  }

  ghost predicate Comparable(pool: Pool, a: string, b: string) {
    a == b || AncestorOf(pool, a, b) || AncestorOf(pool, b, a)
  }

  // Parents strictly drop in depth, so climbing ends.
  ghost predicate Acyclic(pool: Pool, depth: map<string, nat>) {
    forall c :: c in pool && pool[c].parent.Of? ==>
      c in depth && pool[c].parent.config in depth && depth[pool[c].parent.config] < depth[c]
  }

  lemma {:induction false} ClimbsNest(pool: Pool, p: seq<string>, q: seq<string>, i: nat)
    requires Climb(pool, p) && Climb(pool, q) && p[0] == q[0] && i < |p| && i < |q|
    ensures p[i] == q[i]
  {
    if i > 0 { ClimbsNest(pool, p, q, i - 1); }
  }

  // A climb that can go no further has met every ancestor.
  lemma ClimbedAll(pool: Pool, c: string, p: seq<string>, a: string)
    requires Climb(pool, p) && p[0] == c && (p[|p| - 1] in pool ==> !pool[p[|p| - 1]].parent.Of?)
    ensures a in p[1..] <==> AncestorOf(pool, a, c)
  {
    if a in p[1..] {
      var k :| 0 <= k < |p[1..]| && p[1..][k] == a;
      var q := p[..k + 2];
      assert Climb(pool, q) && |q| >= 2 && q[0] == c && q[|q| - 1] == a;
    }
    if AncestorOf(pool, a, c) {
      var q :| Climb(pool, q) && |q| >= 2 && q[0] == c && q[|q| - 1] == a;
      if |q| > |p| {
        assert pool[q[|p| - 1]].parent == Of(q[|p|]) && q[|p| - 1] in pool;
        ClimbsNest(pool, p, q, |p| - 1);
      }
      ClimbsNest(pool, p, q, |q| - 1);
      assert p[1..][|q| - 2] == a;
    }
  }

  // The loop over recorded parents collects exactly the ancestors.
  method Ancestors(pool: Pool, c: string, ghost depth: map<string, nat>) returns (seen: set<string>)
    requires Acyclic(pool, depth)
    ensures forall a :: a in seen <==> AncestorOf(pool, a, c)
  {
    seen := {};
    var cur := c;
    ghost var p := [c];
    while cur in pool && pool[cur].parent.Of?
      invariant Climb(pool, p) && p[0] == c && p[|p| - 1] == cur
      invariant forall a :: a in seen <==> a in p[1..]
      decreases if cur in depth then depth[cur] + 1 else 0
    {
      cur := pool[cur].parent.config;
      assert (p + [cur])[1..] == p[1..] + [cur];
      p := p + [cur];
      seen := seen + {cur};
    }
    forall a ensures a in seen <==> AncestorOf(pool, a, c) { ClimbedAll(pool, c, p, a); }
  }

  method AreComparable(pool: Pool, a: string, b: string, ghost depth: map<string, nat>) returns (r: bool)
    requires Acyclic(pool, depth)
    ensures r <==> Comparable(pool, a, b)
  {
    if a == b {
      return true;
    }
    var above := Ancestors(pool, b, depth);
    var below := Ancestors(pool, a, depth);
    r := a in above || b in below;
  }

  ghost predicate Equivocates(s: State) {
    exists x, y :: x in s.accepted && y in s.accepted && x.op != y.op && x.config == y.config
  }

  ghost predicate SplitBrain(m: Instance, s: State) {
    exists x, y :: x in s.accepted && y in s.accepted && x.op != y.op && !Comparable(m.pool, x.config, y.config)
  }

  ghost predicate Ungrounded(s: State) { exists x :: x in s.accepted && x.config !in s.legit }

  ghost predicate Violates(m: Instance, s: State) { Ungrounded(s) || Equivocates(s) || SplitBrain(m, s) }

  // ---- the correct model, on every tree ----

  // line runs from the root to the tip, each configuration the parent of the next.
  ghost predicate ParentChain(m: Instance, line: seq<string>) {
    && |line| >= 1 && line[0] == m.root
    && (forall i :: 1 <= i < |line| ==> line[i] in m.pool && m.pool[line[i]].parent == Of(line[i - 1]))
    && (forall i, j :: 0 <= i < j < |line| ==> line[i] != line[j])
  }

  function Front(line: seq<string>): seq<string>
    requires |line| >= 1
  {
    line[..|line| - 1]
  }

  ghost predicate OnChain(m: Instance, s: State, line: seq<string>) {
    && ParentChain(m, line)
    && s.legit == (set c | c in line)
    && s.superseded == (set c | c in Front(line))
  }

  ghost predicate Sound(m: Instance, s: State) {
    && (exists line :: OnChain(m, s, line))
    && (forall x :: x in s.accepted ==> x.config in s.legit)
    && (forall x, y :: x in s.accepted && y in s.accepted && x.config == y.config ==> x == y)
  }

  const CORRECT: Rules := Rules(true, true)

  lemma ChainGrows(m: Instance, line: seq<string>, c: string)
    requires ParentChain(m, line) && c in m.pool && m.pool[c].parent == Of(line[|line| - 1]) && c !in line
    ensures ParentChain(m, line + [c])
  {
  }

  lemma FrontOf(line: seq<string>, c: string)
    ensures Front(line + [c]) == line
    ensures (set x | x in line + [c]) == (set x | x in line) + {c}
    ensures |line| >= 1 ==> (set x | x in line) == (set x | x in Front(line)) + {line[|line| - 1]}
  {
    assert Front(line + [c]) == line;
    if |line| >= 1 { assert line == Front(line) + [line[|line| - 1]]; }
  }

  // The only legitimate configuration not superseded is the tip.
  lemma TipOnly(m: Instance, s: State, line: seq<string>, c: string)
    requires OnChain(m, s, line) && c in s.legit && c !in s.superseded
    ensures c == line[|line| - 1]
  {
    assert line == Front(line) + [line[|line| - 1]];
  }

  lemma SoundReconfigure(m: Instance, s: State, line: seq<string>, c: string)
    requires OnChain(m, s, line) && Enabled(m, CORRECT, s, Reconfigure(c))
    ensures OnChain(m, Apply(m, s, Reconfigure(c)), line + [c])
  {
    var parent := m.pool[c].parent.config;
    TipOnly(m, s, line, parent);
    ChainGrows(m, line, c);
    FrontOf(line, c);
  }

  lemma SoundStep(m: Instance, s: State, a: Action)
    requires Sound(m, s) && Enabled(m, CORRECT, s, a)
    ensures Sound(m, Apply(m, s, a))
  {
    var line :| OnChain(m, s, line);
    if a.Reconfigure? {
      SoundReconfigure(m, s, line, a.config);
    } else {
      assert OnChain(m, Apply(m, s, a), line);
    }
  }

  lemma {:induction false} TraceSound(m: Instance, ss: seq<State>, acts: seq<Action>, i: nat)
    requires Trace(m, CORRECT, ss, acts) && i < |ss|
    ensures Sound(m, ss[i])
  {
    if i == 0 {
      assert OnChain(m, ss[0], [m.root]);
    } else {
      TraceSound(m, ss, acts, i - 1);
      SoundStep(m, ss[i - 1], acts[i - 1]);
    }
  }

  lemma ChainComparable(m: Instance, line: seq<string>, i: nat, j: nat)
    requires ParentChain(m, line) && i < j < |line|
    ensures AncestorOf(m.pool, line[i], line[j])
  {
    var p := seq(j - i + 1, k requires 0 <= k <= j - i => line[j - k]);
    forall k | 0 <= k < |p| - 1 ensures p[k] in m.pool && m.pool[p[k]].parent == Of(p[k + 1]) {
      assert p[k] == line[j - k] && p[k + 1] == line[j - k - 1];
    }
    assert Climb(m.pool, p) && p[0] == line[j] && p[|p| - 1] == line[i];
  }

  // On every pool, root, quorum and node set: each reachable state has its legitimate
  // configurations on one parent chain with all but the tip superseded, and no violation.
  lemma ContractIsSafe(m: Instance, s: State)
    requires Reachable(m, CORRECT, s)
    ensures exists line :: OnChain(m, s, line)
    ensures !Violates(m, s)
  {
    var ss, acts :| Trace(m, CORRECT, ss, acts) && ss[|ss| - 1] == s;
    TraceSound(m, ss, acts, |ss| - 1);
    var line :| OnChain(m, s, line);
    forall x, y | x in s.accepted && y in s.accepted && x.op != y.op ensures Comparable(m.pool, x.config, y.config) {
      var i :| 0 <= i < |line| && line[i] == x.config;
      var j :| 0 <= j < |line| && line[j] == y.config;
      if i < j { ChainComparable(m, line, i, j); }
      if j < i { ChainComparable(m, line, j, i); }
    }
  }

  // ---- each rule is load-bearing ----

  lemma {:induction false} TraceOf(m: Instance, rules: Rules, ss: seq<State>, acts: seq<Action>, a: Action)
    returns (ss': seq<State>)
    requires Trace(m, rules, ss, acts) && Enabled(m, rules, ss[|ss| - 1], a)
    ensures Trace(m, rules, ss', acts + [a]) && ss'[|ss'| - 1] == Apply(m, ss[|ss| - 1], a)
  {
    ss' := ss + [Apply(m, ss[|ss| - 1], a)];
    var acts' := acts + [a];
    forall i | 0 <= i < |acts'|
      ensures Enabled(m, rules, ss'[i], acts'[i]) && ss'[i + 1] == Apply(m, ss'[i], acts'[i])
    {
      if i < |acts| { assert ss'[i] == ss[i] && ss'[i + 1] == ss[i + 1] && acts'[i] == acts[i]; }
    }
  }

  // Two distinct children of the founding configuration that each share a quorum with it.
  ghost predicate RivalChildren(m: Instance, c: string, d: string) {
    && m.root in m.pool && c in m.pool && d in m.pool && c != d && c != m.root && d != m.root
    && m.pool[c].parent == Of(m.root) && m.pool[d].parent == Of(m.root)
    && |m.pool[m.root].members| >= m.quorum && |m.pool[c].members| >= m.quorum && |m.pool[d].members| >= m.quorum
    && OverlapIsQuorum(m, m.pool[m.root].members, m.pool[c].members)
    && OverlapIsQuorum(m, m.pool[m.root].members, m.pool[d].members)
  }

  lemma RivalSteps(m: Instance, c: string, d: string, a: string, b: string)
    requires RivalChildren(m, c, d) && a in m.ops && b in m.ops
    ensures var rules := Rules(false, true);
      && Enabled(m, rules, Initial(m), Reconfigure(c))
      && Enabled(m, rules, State({m.root, c}, {m.root}, {}, {}), Reconfigure(d))
      && Enabled(m, rules, State({m.root, c, d}, {m.root}, {}, {}), Accept(c, a))
      && Enabled(m, rules, State({m.root, c, d}, {m.root}, {Accepted(c, a)}, {}), Accept(d, b))
  {
    NobodyDistrusted(m, m.pool[m.root].members);
    NobodyDistrusted(m, m.pool[c].members);
    NobodyDistrusted(m, m.pool[d].members);
  }

  lemma RivalApplies(m: Instance, c: string, d: string, a: string, b: string)
    requires RivalChildren(m, c, d)
    ensures Apply(m, Initial(m), Reconfigure(c)) == State({m.root, c}, {m.root}, {}, {})
    ensures Apply(m, State({m.root, c}, {m.root}, {}, {}), Reconfigure(d)) == State({m.root, c, d}, {m.root}, {}, {})
    ensures Apply(m, State({m.root, c, d}, {m.root}, {}, {}), Accept(c, a)) ==
            State({m.root, c, d}, {m.root}, {Accepted(c, a)}, {})
    ensures Apply(m, State({m.root, c, d}, {m.root}, {Accepted(c, a)}, {}), Accept(d, b))
            == State({m.root, c, d}, {m.root}, {Accepted(c, a), Accepted(d, b)}, {})
  {
  }

  lemma InitialReachable(m: Instance, rules: Rules)
    ensures Reachable(m, rules, Initial(m))
  {
    assert Trace(m, rules, [Initial(m)], []) && [Initial(m)][0] == Initial(m);
  }

  // Rival children that are not ancestors of each other split the brain as soon as unique
  // succession is dropped.
  lemma WithoutUniqueSuccession(m: Instance, c: string, d: string, a: string, b: string)
    requires RivalChildren(m, c, d) && !Comparable(m.pool, c, d) && a in m.ops && b in m.ops && a != b
    ensures exists s :: Reachable(m, Rules(false, true), s) && SplitBrain(m, s)
  {
    var rules := Rules(false, true);
    RivalSteps(m, c, d, a, b);
    RivalApplies(m, c, d, a, b);
    InitialReachable(m, rules);
    ReachableStep(m, rules, Initial(m), Reconfigure(c));
    ReachableStep(m, rules, State({m.root, c}, {m.root}, {}, {}), Reconfigure(d));
    ReachableStep(m, rules, State({m.root, c, d}, {m.root}, {}, {}), Accept(c, a));
    ReachableStep(m, rules, State({m.root, c, d}, {m.root}, {Accepted(c, a)}, {}), Accept(d, b));
    var s := State({m.root, c, d}, {m.root}, {Accepted(c, a), Accepted(d, b)}, {});
    assert Accepted(c, a) in s.accepted && Accepted(d, b) in s.accepted;
    assert SplitBrain(m, s);
  }

  lemma NobodyDistrusted(m: Instance, members: set<nat>)
    ensures QuorumOf(m, members, {}) <==> |members| >= m.quorum
  {
    assert members - {} == members;
  }

  lemma WithoutNonEquivocation(m: Instance, a: string, b: string)
    requires m.root in m.pool && |m.pool[m.root].members| >= m.quorum && a in m.ops && b in m.ops && a != b
    ensures exists s :: Reachable(m, Rules(true, false), s) && Equivocates(s)
  {
    var rules := Rules(true, false);
    var ss, acts := [Initial(m)], [];
    assert Trace(m, rules, ss, acts);
    assert m.pool[m.root].members - {} == m.pool[m.root].members;
    ss := TraceOf(m, rules, ss, acts, Accept(m.root, a));
    acts := acts + [Accept(m.root, a)];
    ss := TraceOf(m, rules, ss, acts, Accept(m.root, b));
    acts := acts + [Accept(m.root, b)];
    var s := ss[|ss| - 1];
    assert Accepted(m.root, a) in s.accepted && Accepted(m.root, b) in s.accepted;
    assert Reachable(m, rules, s);
  }

  // ---- below the oracle: certificates from individual signatures ----

  type Votes = map<nat, set<string>>

  // Everyone votes; a member outside byz signs at most one statement.
  ghost predicate HonestVotes(votes: Votes, members: set<nat>, byz: set<nat>) {
    && votes.Keys == members
    && forall m :: m in members && m !in byz ==> |votes[m]| <= 1
  }

  function CertSigners(votes: Votes, op: string): set<nat> { set m | m in votes && op in votes[m] }

  lemma TwoStatements(s: set<string>, a: string, b: string)
    requires a in s && b in s && |s| <= 1
    ensures a == b
  {
    assert s == {a} + (s - {a});
    assert |s - {a}| == 0;
  }

  lemma {:induction false} Intersection(a: set<nat>, b: set<nat>, u: set<nat>)
    requires a <= u && b <= u
    ensures |a * b| >= |a| + |b| - |u|
  {
    assert |a + b| == |a| + |b| - |a * b|;
    assert u == (a + b) + (u - (a + b));
  }

  // Any two certificates for different statements share at least f + 1 signers, and every
  // shared signer is Byzantine: the bitmap names the equivocators.
  lemma ConflictingCertsName(f: nat, members: set<nat>, byz: set<nat>, votes: Votes, a: string, b: string)
    requires |members| == 3 * f + 1 && HonestVotes(votes, members, byz) && a != b
    requires |CertSigners(votes, a)| >= 2 * f + 1 && |CertSigners(votes, b)| >= 2 * f + 1
    ensures CertSigners(votes, a) * CertSigners(votes, b) <= byz
    ensures |CertSigners(votes, a) * CertSigners(votes, b)| >= f + 1
  {
    Intersection(CertSigners(votes, a), CertSigners(votes, b), members);
    forall m | m in CertSigners(votes, a) * CertSigners(votes, b) ensures m in byz {
      if m !in byz { TwoStatements(votes[m], a, b); }
    }
  }

  lemma {:induction false} Take(s: set<nat>, k: nat) returns (t: set<nat>)
    requires k <= |s|
    ensures t <= s && |t| == k
  {
    if k == 0 {
      t := {};
    } else {
      var x :| x in s;
      var rest := Take(s - {x}, k - 1);
      t := rest + {x};
    }
  }

  ghost predicate ConflictPossible(members: set<nat>, byz: set<nat>, quorum: nat, a: string, b: string) {
    exists votes :: HonestVotes(votes, members, byz)
      && |CertSigners(votes, a)| >= quorum && |CertSigners(votes, b)| >= quorum
  }

  // With 3f + 1 members and quorum 2f + 1, two conflicting certificates (two operations,
  // or two rival successions of one parent) can form exactly when more than f members are
  // Byzantine. No instance is too small and no bound is slack.
  lemma FaultBoundIsExact(f: nat, members: set<nat>, byz: set<nat>, a: string, b: string)
    requires |members| == 3 * f + 1 && byz <= members && a != b
    ensures ConflictPossible(members, byz, 2 * f + 1, a, b) <==> |byz| > f
  {
    if ConflictPossible(members, byz, 2 * f + 1, a, b) {
      var votes :| HonestVotes(votes, members, byz) && |CertSigners(votes, a)| >= 2 * f + 1
                   && |CertSigners(votes, b)| >= 2 * f + 1;
      ConflictingCertsName(f, members, byz, votes, a, b);
      SubsetSize(CertSigners(votes, a) * CertSigners(votes, b), byz);
    }
    if |byz| > f {
      var votes := Equivocation(f, members, byz, a, b);
      assert ConflictPossible(members, byz, 2 * f + 1, a, b);
    }
  }

  lemma Equivocation(f: nat, members: set<nat>, byz: set<nat>, a: string, b: string) returns (votes: Votes)
    requires |members| == 3 * f + 1 && byz <= members && a != b && |byz| > f
    ensures HonestVotes(votes, members, byz)
    ensures |CertSigners(votes, a)| >= 2 * f + 1 && |CertSigners(votes, b)| >= 2 * f + 1
  {
    // f + 1 equivocators sign both; f of the rest sign a only, everyone else signs b.
    var both := Take(byz, f + 1);
    var rest := members - both;
    assert members == both + rest;
    var left := Take(rest, f);
    var right := rest - left;
    assert rest == left + right;
    votes := map m | m in members :: if m in both then {a, b} else if m in left then {a} else {b};
    assert CertSigners(votes, a) == both + left;
    assert CertSigners(votes, b) == both + right;
  }

  // ---- consume-once authority ----

  // Accept under a live configuration; consume-once blocks it once anything was accepted.
  predicate ConsumeEnabled(m: Instance, once: bool, s: State, a: Action) {
    match a
    case Reconfigure(c) =>
      c in m.pool && c !in s.legit && m.pool[c].parent.Of? && m.pool[c].parent.config in s.legit
      && m.pool[c].parent.config !in s.superseded
    case Accept(c, op) =>
      c in s.legit && c !in s.superseded && op in m.ops && Accepted(c, op) !in s.accepted && (once ==> s.accepted == {})
    case Distrust(_) => false
  }

  ghost predicate ConsumeTrace(m: Instance, once: bool, ss: seq<State>, acts: seq<Action>) {
    && |ss| == |acts| + 1 && ss[0] == Initial(m)
    && forall i :: 0 <= i < |acts| ==> ConsumeEnabled(m, once, ss[i], acts[i]) && ss[i + 1] == Apply(m, ss[i], acts[i])
  }

  // At most one authorization across all configurations, however succession interleaves.
  lemma {:induction false} ConsumedOnce(m: Instance, ss: seq<State>, acts: seq<Action>, i: nat)
    requires ConsumeTrace(m, true, ss, acts) && i < |ss|
    ensures |ss[i].accepted| <= 1
  {
    if i > 0 { ConsumedOnce(m, ss, acts, i - 1); }
  }

  // Without the guard, every legitimate succession re-authorizes the effect.
  lemma SuccessionReauthorizes(m: Instance, child: string, a: string, b: string)
    returns (ss: seq<State>, acts: seq<Action>)
    requires child in m.pool && child != m.root && m.pool[child].parent == Of(m.root) && a in m.ops && b in m.ops
    requires a != b
    ensures ConsumeTrace(m, false, ss, acts)
    ensures ss[|ss| - 1].accepted == {Accepted(m.root, a), Accepted(child, b)}
  {
    acts := [Accept(m.root, a), Reconfigure(child), Accept(child, b)];
    var s0 := Initial(m);
    var s1 := Apply(m, s0, acts[0]);
    var s2 := Apply(m, s1, acts[1]);
    ss := [s0, s1, s2, Apply(m, s2, acts[2])];
  }

  // ---- the explorer itself ----

  // Every state any run can visit lives in this finite set.
  function Universe(m: Instance): set<State> {
    var configs := m.pool.Keys + {m.root};
    var pairs := set c, op | c in configs && op in m.ops :: Accepted(c, op);
    set l, s, acc, d | l <= configs && s <= configs && acc <= pairs && d <= m.nodes :: State(l, s, acc, d)
  }

  function Actions(m: Instance): set<Action> {
    (set c | c in m.pool :: Reconfigure(c))
    + (set c, op | c in m.pool && op in m.ops :: Accept(c, op))
    + (set n | n in m.nodes :: Distrust(n))
  }

  function Successors(m: Instance, rules: Rules, s: State): set<State> {
    set a | a in Actions(m) && Enabled(m, rules, s, a) :: Apply(m, s, a)
  }

  lemma SuccessorsAreSteps(m: Instance, rules: Rules, s: State, s': State)
    ensures s' in Successors(m, rules, s) <==> exists a :: Enabled(m, rules, s, a) && s' == Apply(m, s, a)
  {
    if a :| Enabled(m, rules, s, a) && s' == Apply(m, s, a) {
      assert a in Actions(m);
    }
  }

  lemma StaysInUniverse(m: Instance, rules: Rules, s: State, a: Action)
    requires s in Universe(m) && Enabled(m, rules, s, a)
    ensures Apply(m, s, a) in Universe(m)
  {
    var s' := Apply(m, s, a);
    var configs := m.pool.Keys + {m.root};
    assert s'.legit <= configs && s'.superseded <= configs && s'.distrusted <= m.nodes;
  }

  lemma ReachableStep(m: Instance, rules: Rules, s: State, a: Action)
    requires Reachable(m, rules, s) && Enabled(m, rules, s, a)
    ensures Reachable(m, rules, Apply(m, s, a))
  {
    var ss, acts :| Trace(m, rules, ss, acts) && ss[|ss| - 1] == s;
    var ss' := TraceOf(m, rules, ss, acts, a);
    assert Trace(m, rules, ss', acts + [a]);
  }

  lemma {:induction false} ClosedCovers(m: Instance, rules: Rules, seen: set<State>, ss: seq<State>, acts: seq<Action>,
                                        i: nat)
    requires Trace(m, rules, ss, acts) && i < |ss| && Initial(m) in seen
    requires forall s :: s in seen ==> Successors(m, rules, s) <= seen
    ensures ss[i] in seen
  {
    if i > 0 {
      ClosedCovers(m, rules, seen, ss, acts, i - 1);
      SuccessorsAreSteps(m, rules, ss[i - 1], ss[i]);
    }
  }

  // Whatever has been taken off the frontier passed the test and is closed under steps.
  ghost predicate Explored(m: Instance, rules: Rules, bad: State -> bool, seen: set<State>, frontier: seq<State>) {
    forall s :: s in seen && s !in frontier ==> !bad(s) && Successors(m, rules, s) <= seen
  }

  lemma ExploredNext(m: Instance, rules: Rules, bad: State -> bool, seen: set<State>, frontier: seq<State>,
                     seen': set<State>, frontier': seq<State>)
    requires Explored(m, rules, bad, seen, frontier) && frontier != [] && !bad(frontier[0])
    requires seen' == seen + Successors(m, rules, frontier[0])
    requires forall x :: x in frontier' <==> x in frontier[1..] || x in seen' - seen
    ensures Explored(m, rules, bad, seen', frontier')
  {
    assert forall x :: x in frontier <==> x == frontier[0] || x in frontier[1..];
  }

  lemma AllCovered(m: Instance, rules: Rules, seen: set<State>)
    requires Initial(m) in seen && forall s :: s in seen ==> Successors(m, rules, s) <= seen
    ensures forall s :: Reachable(m, rules, s) ==> s in seen
  {
    forall s | Reachable(m, rules, s) ensures s in seen {
      var ss, acts :| Trace(m, rules, ss, acts) && ss[|ss| - 1] == s;
      ClosedCovers(m, rules, seen, ss, acts, |ss| - 1);
    }
  }

  lemma InitialSeen(m: Instance, rules: Rules)
    ensures Initial(m) in Universe(m) && Reachable(m, rules, Initial(m))
  {
    InitialReachable(m, rules);
    InitialInUniverse(m);
  }

  // Breadth-first search over states: None means every reachable state passes the test,
  // a state means that one is reachable and fails it.
  method Check(m: Instance, rules: Rules, bad: State -> bool) returns (found: Option<State>)
    ensures found.Some? ==> Reachable(m, rules, found.value) && bad(found.value)
    ensures found.None? ==> forall s :: Reachable(m, rules, s) ==> !bad(s)
  {
    var seen, frontier := {Initial(m)}, [Initial(m)];
    InitialSeen(m, rules);
    while frontier != []
      invariant Initial(m) in seen && seen <= Universe(m)
      invariant forall s :: s in frontier ==> s in seen
      invariant forall s :: s in seen ==> Reachable(m, rules, s)
      invariant Explored(m, rules, bad, seen, frontier)
      decreases |Universe(m)| - |seen|, |frontier|
    {
      var s, rest := frontier[0], frontier[1..];
      if bad(s) {
        return Some(s);
      }
      var seen', frontier' := Discover(m, rules, s, seen, rest);
      ExploredNext(m, rules, bad, seen, frontier, seen', frontier');
      SubsetSize(seen', Universe(m));
      if seen' != seen {
        ProperSubset(seen, seen');
      }
      seen, frontier := seen', frontier';
    }
    AllCovered(m, rules, seen);
    found := None;
  }

  lemma SuccessorFits(m: Instance, rules: Rules, s: State, ns: State)
    requires s in Universe(m) && Reachable(m, rules, s) && ns in Successors(m, rules, s)
    ensures Reachable(m, rules, ns) && ns in Universe(m)
  {
    SuccessorsAreSteps(m, rules, s, ns);
    var a :| Enabled(m, rules, s, a) && ns == Apply(m, s, a);
    ReachableStep(m, rules, s, a);
    StaysInUniverse(m, rules, s, a);
  }

  method Discover(m: Instance, rules: Rules, s: State, seen0: set<State>, rest: seq<State>)
    returns (seen: set<State>, frontier: seq<State>)
    requires s in seen0 && seen0 <= Universe(m) && (forall x :: x in seen0 ==> Reachable(m, rules, x))
    ensures seen == seen0 + Successors(m, rules, s) && seen <= Universe(m) && forall x :: x in seen ==>
            Reachable(m, rules, x)
    ensures forall x :: x in frontier <==> x in rest || x in seen - seen0
    ensures seen == seen0 ==> frontier == rest
  {
    seen, frontier := seen0, rest;
    var todo := Successors(m, rules, s);
    while todo != {}
      invariant todo <= Successors(m, rules, s)
      invariant seen == seen0 + (Successors(m, rules, s) - todo)
      invariant seen <= Universe(m) && forall x :: x in seen ==> Reachable(m, rules, x)
      invariant forall x :: x in frontier <==> x in rest || x in seen - seen0
      invariant seen == seen0 ==> frontier == rest
      decreases todo
    {
      var ns :| ns in todo;
      SuccessorFits(m, rules, s, ns);
      if ns !in seen {
        seen := seen + {ns};
        frontier := frontier + [ns];
      }
      todo := todo - {ns};
    }
  }

  lemma InitialInUniverse(m: Instance)
    ensures Initial(m) in Universe(m)
  {
    var none: set<string> := {};
    assert {m.root} <= m.pool.Keys + {m.root};
  }
}
