// Claim standing (reducers._recompute_standing): its definition over the support graph,
// and the explicit-stack search that decides it.

module Support {
  import opened Prelude
  import opened Vocabulary

  datatype Standing = Unevaluated | GroundedSupported | Contradicted | Contested | SupersededClaim

  // ---- definition over claims C, observations O and resolved links L ----

  predicate IsSuperseded(c: string, C: set<string>, L: set<Link>) {
    c in C && exists l :: l in L && l.relation == Supersedes && l.target == c
  }

  predicate LiveClaim(c: string, C: set<string>, L: set<Link>) {
    c in C && !IsSuperseded(c, C, L)
  }

  // p leads from a claim back through live claims: p[i + 1] supports p[i].
  ghost predicate Chain(p: seq<string>, claim: string, C: set<string>, L: set<Link>) {
    && |p| >= 1 && p[0] == claim
    && (forall i :: 0 < i < |p| ==> LiveClaim(p[i], C, L))
    && (forall i :: 0 < i < |p| ==> Link(p[i], Supports, p[i - 1]) in L)
  }

  ghost predicate SupportPath(p: seq<string>, o: string, claim: string, C: set<string>, O: set<string>, L: set<Link>) {
    Chain(p, claim, C, L) && o in O && Link(o, Supports, p[|p| - 1]) in L
  }

  // Grounded: some chain of live claims ends in an observation.
  ghost predicate Grounded(claim: string, C: set<string>, O: set<string>, L: set<Link>) {
    exists p, o :: SupportPath(p, o, claim, C, O, L)
  }

  predicate IsContradicted(c: string, C: set<string>, O: set<string>, L: set<Link>) {
    && c in C
    && exists l :: l in L && l.relation == Contradicts && l.target == c && l.source in C + O
                     && !(l.source in C && IsSuperseded(l.source, C, L))
  }

  function SupersededClaims(C: set<string>, L: set<Link>): (s: set<string>)
    ensures forall c :: c in s <==> IsSuperseded(c, C, L)
  {
    set l | l in L && l.relation == Supersedes && l.target in C :: l.target
  }

  function ContradictedClaims(C: set<string>, O: set<string>, L: set<Link>): (s: set<string>)
    ensures forall c :: c in s <==> IsContradicted(c, C, O, L)
  {
    var superseded := SupersededClaims(C, L);
    set l | l in L && l.relation == Contradicts && l.target in C && l.source in C + O
            && !(l.source in C && l.source in superseded) :: l.target
  }

  ghost function StandingOf(c: string, C: set<string>, O: set<string>, L: set<Link>): Standing {
    if IsSuperseded(c, C, L) then SupersededClaim
    else if Grounded(c, C, O, L) then
      if IsContradicted(c, C, O, L) then Contested else GroundedSupported
    else if IsContradicted(c, C, O, L) then Contradicted
    else Unevaluated
  }

  ghost function StandingTable(C: set<string>, O: set<string>, L: set<Link>): map<string, Standing> {
    map c | c in C :: StandingOf(c, C, O, L)
  }

  // Only links that land on a claim can matter, so a stub endpoint elsewhere is inert.
  predicate AgreeIntoClaims(C: set<string>, L: set<Link>, M: set<Link>) {
    (forall l :: l in L && l.target in C ==> l in M) && (forall l :: l in M && l.target in C ==> l in L)
  }

  lemma SupersededAgrees(C: set<string>, L: set<Link>, M: set<Link>)
    requires AgreeIntoClaims(C, L, M)
    ensures forall c :: IsSuperseded(c, C, L) == IsSuperseded(c, C, M)
  {
    forall c | c in C ensures IsSuperseded(c, C, L) == IsSuperseded(c, C, M) {
      if l :| l in L && l.relation == Supersedes && l.target == c { assert l in M; }
      if l :| l in M && l.relation == Supersedes && l.target == c { assert l in L; }
    }
  }

  lemma GroundedCarries(c: string, C: set<string>, O: set<string>, L: set<Link>, M: set<Link>)
    requires AgreeIntoClaims(C, L, M) && c in C && Grounded(c, C, O, L)
    ensures Grounded(c, C, O, M)
  {
    SupersededAgrees(C, L, M);
    var p, o :| SupportPath(p, o, c, C, O, L);
    forall i | 0 < i < |p| ensures LiveClaim(p[i], C, M) && Link(p[i], Supports, p[i - 1]) in M {
      assert LiveClaim(p[i], C, L);
      assert i > 1 ==> LiveClaim(p[i - 1], C, L);
    }
    assert |p| > 1 ==> LiveClaim(p[|p| - 1], C, L);
    assert SupportPath(p, o, c, C, O, M);
  }

  lemma StandingDependsOnLinksIntoClaims(C: set<string>, O: set<string>, L: set<Link>, M: set<Link>)
    requires AgreeIntoClaims(C, L, M)
    ensures StandingTable(C, O, L) == StandingTable(C, O, M)
  {
    SupersededAgrees(C, L, M);
    forall c | c in C ensures StandingOf(c, C, O, L) == StandingOf(c, C, O, M) {
      if Grounded(c, C, O, L) { GroundedCarries(c, C, O, L, M); }
      if Grounded(c, C, O, M) { GroundedCarries(c, C, O, M, L); }
      if IsContradicted(c, C, O, L) {
        var l :| l in L && l.relation == Contradicts && l.target == c && l.source in C + O
                 && !(l.source in C && IsSuperseded(l.source, C, L));
        assert l in M;
      }
      if IsContradicted(c, C, O, M) {
        var l :| l in M && l.relation == Contradicts && l.target == c && l.source in C + O
                 && !(l.source in C && IsSuperseded(l.source, C, M));
        assert l in L;
      }
    }
  }

  // ---- what a standing means for the reader ----

  // Something that may support or contradict: an observation, or a claim not superseded.
  predicate HasVoice(s: string, C: set<string>, O: set<string>, L: set<Link>) { s in O || LiveClaim(s, C, L) }

  predicate Supported(standing: Standing) { standing == GroundedSupported || standing == Contested }

  predicate Disputed(standing: Standing) { standing == Contradicted || standing == Contested }

  // Any link that supersedes retires its claim, whoever asserts it; otherwise the claim is
  // disputed exactly when something with a voice contradicts it.
  lemma VerdictReads(c: string, C: set<string>, O: set<string>, L: set<Link>)
    requires c in C && C !! O
    ensures StandingOf(c, C, O, L) == SupersededClaim <==> exists s :: Link(s, Supersedes, c) in L
    ensures (forall s :: Link(s, Supersedes, c) !in L) ==>
      (Disputed(StandingOf(c, C, O, L)) <==> exists s :: Link(s, Contradicts, c) in L && HasVoice(s, C, O, L))
  {
    if s :| Link(s, Supersedes, c) in L { assert Link(s, Supersedes, c).target == c; }
    if l :| l in L && l.relation == Supersedes && l.target == c { assert l == Link(l.source, Supersedes, c); }
    if s :| Link(s, Contradicts, c) in L && HasVoice(s, C, O, L) { assert Link(s, Contradicts, c).target == c; }
    if IsContradicted(c, C, O, L) {
      var l :| l in L && l.relation == Contradicts && l.target == c && l.source in C + O
               && !(l.source in C && IsSuperseded(l.source, C, L));
      assert l == Link(l.source, Contradicts, c);
    }
  }

  // Support comes from an observation, directly or through a supported claim that is not
  // superseded.
  lemma SupportSpreads(c: string, C: set<string>, O: set<string>, L: set<Link>)
    requires c in C && !IsSuperseded(c, C, L)
    ensures Supported(StandingOf(c, C, O, L)) <==> exists s ::
              Link(s, Supports, c) in L && (s in O || (LiveClaim(s, C, L) && Supported(StandingOf(s, C, O, L))))
  {
    if Grounded(c, C, O, L) {
      var p, o :| SupportPath(p, o, c, C, O, L);
      if |p| == 1 {
        assert Link(o, Supports, c) in L;
      } else {
        assert LiveClaim(p[1], C, L) && Link(p[1], Supports, p[0]) in L;
        assert SupportPath(p[1..], o, p[1], C, O, L);
      }
    }
    if s :| Link(s, Supports, c) in L && (s in O || (LiveClaim(s, C, L) && Supported(StandingOf(s, C, O, L)))) {
      if s in O {
        assert SupportPath([c], s, c, C, O, L);
      } else {
        Lengthened(s, c, C, O, L);
      }
    }
  }

  lemma Lengthened(s: string, c: string, C: set<string>, O: set<string>, L: set<Link>)
    requires Grounded(s, C, O, L) && LiveClaim(s, C, L) && Link(s, Supports, c) in L
    ensures Grounded(c, C, O, L)
  {
    var p, o :| SupportPath(p, o, s, C, O, L);
    var q := [c] + p;
    forall i | 0 < i < |q| ensures LiveClaim(q[i], C, L) && Link(q[i], Supports, q[i - 1]) in L {
      assert q[i] == p[i - 1];
    }
    assert SupportPath(q, o, c, C, O, L);
  }

  // Without observations nothing is supported, however claims support each other.
  lemma NothingSupportsItself(c: string, C: set<string>, L: set<Link>)
    ensures !Supported(StandingOf(c, C, {}, L))
  {
  }

  // ---- the search ----

  // The adjacency the search reads: for each target, the sources of its supports links.
  ghost predicate Adjacency(supportsInto: map<string, seq<string>>, L: set<Link>) {
    && (forall t, i :: t in supportsInto && 0 <= i < |supportsInto[t]| ==> Link(supportsInto[t][i], Supports, t) in L)
    && (forall s, t :: Link(s, Supports, t) in L ==> t in supportsInto && s in supportsInto[t])
  }

  // n has been expanded: no source is an observation and every live source was seen.
  ghost predicate Expanded(n: string, seen: set<string>, C: set<string>, O: set<string>, L: set<Link>) {
    forall s :: Link(s, Supports, n) in L ==> s !in O && (LiveClaim(s, C, L) ==> s in seen)
  }

  // A set that contains the claim and is closed under live support meets every chain.
  lemma {:induction false} ChainStaysInside(p: seq<string>, k: nat, claim: string, seen: set<string>, C: set<string>,
                                            O: set<string>, L: set<Link>)
    requires Chain(p, claim, C, L) && claim in seen && k < |p|
    requires forall n :: n in seen ==> Expanded(n, seen, C, O, L)
    ensures p[k] in seen
  {
    if k > 0 {
      ChainStaysInside(p, k - 1, claim, seen, C, O, L);
      assert Expanded(p[k - 1], seen, C, O, L);
    }
  }

  lemma NothingGrounds(claim: string, seen: set<string>, C: set<string>, O: set<string>, L: set<Link>)
    requires claim in seen
    requires forall n :: n in seen ==> Expanded(n, seen, C, O, L)
    ensures !Grounded(claim, C, O, L)
  {
    if p, o :| SupportPath(p, o, claim, C, O, L) {
      ChainStaysInside(p, |p| - 1, claim, seen, C, O, L);
    }
  }

  lemma ChainExtends(p: seq<string>, s: string, claim: string, C: set<string>, L: set<Link>)
    requires Chain(p, claim, C, L) && LiveClaim(s, C, L) && Link(s, Supports, p[|p| - 1]) in L
    ensures Chain(p + [s], claim, C, L)
  {
  }

  ghost predicate Reached(n: string, claim: string, C: set<string>, L: set<Link>) {
    exists p :: Chain(p, claim, C, L) && p[|p| - 1] == n
  }

  ghost predicate AllReached(seen: set<string>, claim: string, C: set<string>, L: set<Link>) {
    forall n :: n in seen ==> Reached(n, claim, C, L)
  }

  lemma ReachedExtends(node: string, src: string, claim: string, C: set<string>, L: set<Link>)
    requires Reached(node, claim, C, L) && LiveClaim(src, C, L) && Link(src, Supports, node) in L
    ensures Reached(src, claim, C, L)
  {
    var p :| Chain(p, claim, C, L) && p[|p| - 1] == node;
    ChainExtends(p, src, claim, C, L);
    assert (p + [src])[|p + [src]| - 1] == src;
  }

  lemma ObservationGrounds(node: string, o: string, claim: string, C: set<string>, O: set<string>, L: set<Link>)
    requires Reached(node, claim, C, L) && o in O && Link(o, Supports, node) in L
    ensures Grounded(claim, C, O, L)
  {
    var p :| Chain(p, claim, C, L) && p[|p| - 1] == node;
    assert SupportPath(p, o, claim, C, O, L);
  }

  // One turn of the outer loop: walk the sources of one popped node.
  method Expand(node: string, sources: seq<string>, stack0: seq<string>, seen0: set<string>, C: set<string>,
                O: set<string>,
                superseded: set<string>, ghost claim: string, ghost L: set<Link>)
    returns (found: bool, stack: seq<string>, seen: set<string>)
    requires forall s :: s in sources <==> Link(s, Supports, node) in L
    requires forall c :: c in superseded <==> IsSuperseded(c, C, L)
    requires node in seen0 && AllReached(seen0, claim, C, L)
    ensures found ==> Grounded(claim, C, O, L)
    ensures !found ==> Expanded(node, seen, C, O, L) && AllReached(seen, claim, C, L)
    ensures seen0 <= seen <= seen0 + C
    ensures seen == seen0 ==> stack == stack0
    ensures forall n :: n in stack <==> n in stack0 || n in seen - seen0
  {
    found, stack, seen := false, stack0, seen0;
    var k := 0;
    while k < |sources|
      invariant k <= |sources|
      invariant seen0 <= seen <= seen0 + C
      invariant seen == seen0 ==> stack == stack0
      invariant forall n :: n in stack <==> n in stack0 || n in seen - seen0
      invariant AllReached(seen, claim, C, L)
      invariant forall j :: 0 <= j < k ==> sources[j] !in O && (LiveClaim(sources[j], C, L) ==> sources[j] in seen)
    {
      var src := sources[k];
      assert src in sources;
      if src in O {
        ObservationGrounds(node, src, claim, C, O, L);
        return true, stack, seen;
      }
      if src in C && src !in superseded && src !in seen {
        ReachedExtends(node, src, claim, C, L);
        seen := seen + {src};
        stack := stack + [src];
      }
      k := k + 1;
    }
  }

  // The search terminates on every graph, cycles included, and answers the definition.
  method IsGrounded(claim: string, supportsInto: map<string, seq<string>>, C: set<string>, O: set<string>,
                    superseded: set<string>, ghost L: set<Link>) returns (g: bool)
    requires Adjacency(supportsInto, L)
    requires forall c :: c in superseded <==> IsSuperseded(c, C, L)
    ensures g <==> Grounded(claim, C, O, L)
  {
    var stack, seen := [claim], {claim};
    assert Chain([claim], claim, C, L) && [claim][0] == claim;
    while stack != []
      invariant claim in seen && seen <= C + {claim}
      invariant forall n :: n in stack ==> n in seen
      invariant AllReached(seen, claim, C, L)
      invariant forall n :: n in seen && n !in stack ==> Expanded(n, seen, C, O, L)
      decreases |C + {claim}| - |seen|, |stack|
    {
      var node, rest := stack[|stack| - 1], stack[..|stack| - 1];
      assert forall n :: n in stack <==> n == node || n in rest;
      var sources := if node in supportsInto then supportsInto[node] else [];
      var found, stack', seen' := Expand(node, sources, rest, seen, C, O, superseded, claim, L);
      if found {
        return true;
      }
      forall n | n in seen' && n !in stack' ensures Expanded(n, seen', C, O, L) {
        if n != node {
          assert Expanded(n, seen, C, O, L);
        }
      }
      if seen' != seen {
        ProperSubset(seen, seen');
      }
      SubsetSize(seen', C + {claim});
      stack, seen := stack', seen';
    }
    NothingGrounds(claim, seen, C, O, L);
    g := false;
  }
}
