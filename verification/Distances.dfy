// What the neighbourhood run returns (kawa/retrieval.py): every node once, never the root,
// at its shortest distance, and every candidate edge accounted for exactly once.

module Distances {
  import opened Prelude
  import opened Vocabulary
  import opened Neighborhood

  // ---- the candidate graph ----

  predicate Adjacent(g: Graph, a: string, b: string) { exists k :: 0 <= k < |At(g, a)| && At(g, a)[k].other == b }

  ghost predicate IsWalk(g: Graph, w: seq<string>, a: string, b: string) {
    |w| >= 1 && w[0] == a && w[|w| - 1] == b && forall i :: 0 <= i < |w| - 1 ==> Adjacent(g, w[i], w[i + 1])
  }

  ghost predicate Reaches(g: Graph, root: string, v: string, d: int) {
    exists w :: IsWalk(g, w, root, v) && |w| == d + 1
  }

  lemma ReachesNext(g: Graph, root: string, u: string, v: string, d: int)
    requires Reaches(g, root, u, d) && Adjacent(g, u, v)
    ensures Reaches(g, root, v, d + 1)
  {
    var w :| IsWalk(g, w, root, u) && |w| == d + 1;
    var longer := w + [v];
    forall i | 0 <= i < |longer| - 1 ensures Adjacent(g, longer[i], longer[i + 1]) {
      if i < |w| - 1 { assert Adjacent(g, w[i], w[i + 1]); }
    }
    assert IsWalk(g, longer, root, v);
  }

  // ---- the order of discovery: the root, then the records ----

  function Order(root: string, out: seq<Record>): (o: seq<Item>)
    ensures |o| == |out| + 1 && o[0] == Item(root, 0)
    ensures forall j :: 1 <= j < |o| ==> o[j] == Item(out[j - 1].ref, out[j - 1].depth)
  {
    [Item(root, 0)] + seq(|out|, j requires 0 <= j < |out| => Item(out[j].ref, out[j].depth))
  }

  lemma OrderGrows(root: string, out: seq<Record>, r: Record)
    ensures Order(root, out + [r]) == Order(root, out) + [Item(r.ref, r.depth)]
  {
  }

  // Found by depth at most d.
  predicate Near(o: seq<Item>, v: string, d: int) { exists j :: 0 <= j < |o| && o[j].node == v && o[j].depth <= d }

  predicate Ordered(o: seq<Item>) {
    && (forall i, j :: 0 <= i < j < |o| ==> o[i].node != o[j].node)
    && (forall i, j :: 0 <= i < j < |o| ==> o[i].depth <= o[j].depth)
  }

  ghost predicate Sound(g: Graph, root: string, o: seq<Item>, cap: int) {
    && (forall j :: 0 <= j < |o| ==> Reaches(g, root, o[j].node, o[j].depth))
    && (forall j :: 1 <= j < |o| ==> 1 <= o[j].depth <= cap)
  }

  // The queue is the tail of the order; what is before it has been expanded.
  ghost predicate Queued(o: seq<Item>, s: State, popped: nat) {
    && popped <= |o| && s.queue == o[popped..]
    && forall v :: v in s.visited <==> Seen(o, v)
  }

  predicate Seen(o: seq<Item>, v: string) { exists j :: 0 <= j < |o| && o[j].node == v }

  ghost predicate Tracks(g: Graph, root: string, s: State, caps: Caps, popped: nat) {
    var o := Order(root, s.out);
    Queued(o, s, popped) && Ordered(o) && Sound(g, root, o, caps.depth)
  }

  // Nothing discovered is deeper than one level past d.
  predicate Level(o: seq<Item>, d: int) { forall j :: 0 <= j < |o| ==> o[j].depth <= d + 1 }

  lemma Discover(g: Graph, root: string, s: State, u: Item, e: Edge, caps: Caps, popped: nat)
    requires Tracks(g, root, s, caps, popped) && Level(Order(root, s.out), u.depth)
    requires 0 < popped && Order(root, s.out)[popped - 1] == u
    requires e.other !in s.visited && u.depth + 1 <= caps.depth && Adjacent(g, u.node, e.other)
    ensures var s' := State(s.queue + [Item(e.other, u.depth + 1)], s.visited + {e.other},
                            s.out + [Record(u.node, e.relation, e.other, u.depth + 1)], s.frontier);
      && Tracks(g, root, s', caps, popped) && Level(Order(root, s'.out), u.depth)
      && Prefix(Order(root, s.out), Order(root, s'.out))
  {
    var o, x := Order(root, s.out), Item(e.other, u.depth + 1);
    OrderGrows(root, s.out, Record(u.node, e.relation, e.other, u.depth + 1));
    ReachesNext(g, root, u.node, e.other, u.depth);
    DepthNonNegative(g, root, o, caps.depth, popped - 1);
    QueuedGrows(o, s, x, popped);
    OrderedGrows(o, x);
    SoundGrows(g, root, o, x, caps.depth);
  }

  lemma QueuedGrows(o: seq<Item>, s: State, x: Item, popped: nat)
    requires Queued(o, s, popped) && x.node !in s.visited
    ensures !Seen(o, x.node) && Queued(o + [x], s.(queue := s.queue + [x], visited := s.visited + {x.node}), popped)
  {
    SeenGrows(o, x);
    assert (o + [x])[popped..] == o[popped..] + [x];
  }

  lemma SeenGrows(o: seq<Item>, x: Item)
    ensures forall v :: Seen(o + [x], v) <==> Seen(o, v) || v == x.node
  {
    forall v ensures Seen(o + [x], v) <==> Seen(o, v) || v == x.node {
      if Seen(o, v) { var j :| 0 <= j < |o| && o[j].node == v; assert (o + [x])[j] == o[j]; }
      assert (o + [x])[|o|] == x;
    }
  }

  lemma OrderedGrows(o: seq<Item>, x: Item)
    requires Ordered(o) && !Seen(o, x.node) && forall j :: 0 <= j < |o| ==> o[j].depth <= x.depth
    ensures Ordered(o + [x])
  {
  }

  lemma SoundGrows(g: Graph, root: string, o: seq<Item>, x: Item, cap: int)
    requires Sound(g, root, o, cap) && Reaches(g, root, x.node, x.depth) && 1 <= x.depth <= cap && |o| >= 1
    ensures Sound(g, root, o + [x], cap)
  {
  }

  lemma DepthNonNegative(g: Graph, root: string, o: seq<Item>, cap: int, j: nat)
    requires Sound(g, root, o, cap) && j < |o|
    ensures o[j].depth >= 0
  {
    assert Reaches(g, root, o[j].node, o[j].depth);
  }

  // What one edge keeps while u, the last item expanded, is being expanded.
  ghost predicate Expanding(g: Graph, root: string, s: State, u: Item, caps: Caps, popped: nat) {
    && Tracks(g, root, s, caps, popped) && Level(Order(root, s.out), u.depth)
    && 0 < popped <= |Order(root, s.out)| && Order(root, s.out)[popped - 1] == u
  }

  lemma TakeTracks(g: Graph, root: string, s: State, u: Item, e: Edge, caps: Caps, popped: nat)
    requires Expanding(g, root, s, u, caps, popped) && Adjacent(g, u.node, e.other)
    ensures var s' := Take(s, u, e, caps);
      Expanding(g, root, s', u, caps, popped) && Prefix(Order(root, s.out), Order(root, s'.out))
  {
    if e.other !in s.visited && u.depth + 1 <= caps.depth && !Full(s.out, caps) {
      Discover(g, root, s, u, e, caps, popped);
    }
  }

  // Without a row cap, the edge's far end is found no deeper than one level on.
  lemma TakeFinds(g: Graph, root: string, s: State, u: Item, e: Edge, caps: Caps, popped: nat)
    requires Expanding(g, root, s, u, caps, popped)
    requires caps.rows == None && u.depth + 1 <= caps.depth
    ensures Near(Order(root, Take(s, u, e, caps).out), e.other, u.depth + 1)
  {
    if e.other in s.visited {
      SeenIsNear(Order(root, s.out), e.other, u.depth);
    } else {
      LastIsNear(root, s.out, Record(u.node, e.relation, e.other, u.depth + 1));
    }
  }

  lemma LastIsNear(root: string, out: seq<Record>, r: Record)
    ensures Near(Order(root, out + [r]), r.ref, r.depth)
  {
    assert Order(root, out + [r])[|out| + 1] == Item(r.ref, r.depth);
  }

  lemma SeenIsNear(o: seq<Item>, v: string, d: int)
    requires Seen(o, v) && Level(o, d)
    ensures Near(o, v, d + 1)
  {
  }

  lemma NearStays(o: seq<Item>, o': seq<Item>, v: string, d: int)
    requires Prefix(o, o') && Near(o, v, d)
    ensures Near(o', v, d)
  {
    var j :| 0 <= j < |o| && o[j].node == v && o[j].depth <= d;
    assert o'[j] == o[j];
  }

  lemma {:induction false} TakeAllTracks(g: Graph, root: string, s: State, u: Item, n: nat, caps: Caps, popped: nat)
    requires Expanding(g, root, s, u, caps, popped) && n <= |At(g, u.node)|
    ensures var s' := TakeAll(s, u, At(g, u.node)[..n], caps);
      Expanding(g, root, s', u, caps, popped) && Prefix(Order(root, s.out), Order(root, s'.out))
  {
    if n > 0 {
      TakeAllTracks(g, root, s, u, n - 1, caps, popped);
      TakeAllNext(s, u, At(g, u.node), n, caps);
      TakeNth(g, root, s, TakeAll(s, u, At(g, u.node)[..n - 1], caps), u, n - 1, caps, popped);
    }
  }

  lemma TakeNth(g: Graph, root: string, s: State, t: State, u: Item, k: nat, caps: Caps, popped: nat)
    requires k < |At(g, u.node)| && Expanding(g, root, t, u, caps, popped)
    requires Prefix(Order(root, s.out), Order(root, t.out))
    ensures var s' := Take(t, u, At(g, u.node)[k], caps);
      && Expanding(g, root, s', u, caps, popped)
      && Prefix(Order(root, t.out), Order(root, s'.out)) && Prefix(Order(root, s.out), Order(root, s'.out))
  {
    assert Adjacent(g, u.node, At(g, u.node)[k].other);
    TakeTracks(g, root, t, u, At(g, u.node)[k], caps, popped);
    PrefixTransitive(Order(root, s.out), Order(root, t.out), Order(root, Take(t, u, At(g, u.node)[k], caps).out));
  }

  lemma PrefixTransitive(a: seq<Item>, b: seq<Item>, c: seq<Item>)
    requires Prefix(a, b) && Prefix(b, c)
    ensures Prefix(a, c)
  {
  }

  lemma TakeAllNext(s: State, u: Item, edges: seq<Edge>, n: nat, caps: Caps)
    requires 0 < n <= |edges|
    ensures TakeAll(s, u, edges[..n], caps) == Take(TakeAll(s, u, edges[..n - 1], caps), u, edges[n - 1], caps)
  {
    assert edges[..n][..n - 1] == edges[..n - 1];
  }

  lemma {:induction false} TakeAllFinds(g: Graph, root: string, s: State, u: Item, n: nat, k: nat, caps: Caps,
                                        popped: nat)
    requires Expanding(g, root, s, u, caps, popped) && k < n <= |At(g, u.node)|
    requires caps.rows == None && u.depth + 1 <= caps.depth
    ensures Near(Order(root, TakeAll(s, u, At(g, u.node)[..n], caps).out), At(g, u.node)[k].other, u.depth + 1)
  {
    var edges := At(g, u.node);
    var t := TakeAll(s, u, edges[..n - 1], caps);
    TakeAllTracks(g, root, s, u, n - 1, caps, popped);
    TakeAllNext(s, u, edges, n, caps);
    if k == n - 1 {
      TakeFinds(g, root, t, u, edges[k], caps, popped);
    } else {
      TakeAllFinds(g, root, s, u, n - 1, k, caps, popped);
      TakeKeepsNear(g, root, t, u, n - 1, k, caps, popped);
    }
  }

  lemma TakeKeepsNear(g: Graph, root: string, t: State, u: Item, m: nat, k: nat, caps: Caps, popped: nat)
    requires Expanding(g, root, t, u, caps, popped) && k < m < |At(g, u.node)|
    requires Near(Order(root, t.out), At(g, u.node)[k].other, u.depth + 1)
    ensures Near(Order(root, Take(t, u, At(g, u.node)[m], caps).out), At(g, u.node)[k].other, u.depth + 1)
  {
    var edges := At(g, u.node);
    assert Adjacent(g, u.node, edges[m].other);
    TakeTracks(g, root, t, u, edges[m], caps, popped);
    NearStays(Order(root, t.out), Order(root, Take(t, u, edges[m], caps).out), edges[k].other, u.depth + 1);
  }

  lemma NearIsNoLess(o: seq<Item>, i: nat, d: int)
    requires Ordered(o) && i < |o| && Near(o, o[i].node, d)
    ensures o[i].depth <= d
  {
  }

  // Every expanded node within the depth cap has all its neighbours found one level on.
  ghost predicate Closed(g: Graph, o: seq<Item>, popped: nat, cap: int)
    requires popped <= |o|
  {
    forall i :: 0 <= i < popped && o[i].depth + 1 <= cap ==> ClosedAt(g, o, o[i])
  }

  predicate ClosedAt(g: Graph, o: seq<Item>, u: Item) {
    forall k :: 0 <= k < |At(g, u.node)| ==> Near(o, At(g, u.node)[k].other, u.depth + 1)
  }

  ghost predicate SearchInv(g: Graph, root: string, s: State, caps: Caps, popped: nat) {
    var o := Order(root, s.out);
    && Tracks(g, root, s, caps, popped)
    && (s.queue != [] ==> Level(o, s.queue[0].depth))
    && (caps.rows == None ==> Closed(g, o, popped, caps.depth))
  }

  lemma BeginExpand(g: Graph, root: string, s: State, caps: Caps, popped: nat)
    requires SearchInv(g, root, s, caps, popped) && s.queue != []
    ensures Expanding(g, root, s.(queue := s.queue[1..]), s.queue[0], caps, popped + 1)
    ensures popped < |Order(root, s.out)| && s.queue[0] == Order(root, s.out)[popped]
  {
    assert Order(root, s.out)[popped] == s.queue[0];
  }

  lemma ClosedStays(g: Graph, o: seq<Item>, o': seq<Item>, popped: nat, cap: int)
    requires popped < |o| && Prefix(o, o') && Closed(g, o, popped, cap)
    requires o[popped].depth + 1 <= cap ==> ClosedAt(g, o', o[popped])
    ensures Closed(g, o', popped + 1, cap)
  {
    forall i | 0 <= i < popped + 1 && o'[i].depth + 1 <= cap ensures ClosedAt(g, o', o'[i]) {
      if i < popped {
        assert ClosedAt(g, o, o[i]);
        forall k | 0 <= k < |At(g, o[i].node)| ensures Near(o', At(g, o[i].node)[k].other, o[i].depth + 1) {
          NearStays(o, o', At(g, o[i].node)[k].other, o[i].depth + 1);
        }
      }
    }
  }

  lemma ExpandTracks(g: Graph, root: string, s: State, caps: Caps, popped: nat)
    requires SearchInv(g, root, s, caps, popped) && s.queue != []
    ensures SearchInv(g, root, Expand(s, g, caps), caps, popped + 1)
  {
    var u, edges, t := s.queue[0], At(g, s.queue[0].node), s.(queue := s.queue[1..]);
    BeginExpand(g, root, s, caps, popped);
    TakeAllTracks(g, root, t, u, |edges|, caps, popped + 1);
    assert edges[..|edges|] == edges;
    var s' := Expand(s, g, caps);
    if caps.rows == None {
      if u.depth + 1 <= caps.depth {
        forall k | 0 <= k < |edges| ensures Near(Order(root, s'.out), edges[k].other, u.depth + 1) {
          TakeAllFinds(g, root, t, u, |edges|, k, caps, popped + 1);
        }
      }
      ClosedStays(g, Order(root, s.out), Order(root, s'.out), popped, caps.depth);
    }
    if s'.queue != [] { ExpandedLevel(g, root, s', u, caps, popped + 1); }
  }

  // Whatever is next in the queue is no shallower than what was just expanded.
  lemma ExpandedLevel(g: Graph, root: string, s: State, u: Item, caps: Caps, popped: nat)
    requires Expanding(g, root, s, u, caps, popped) && s.queue != []
    ensures Level(Order(root, s.out), s.queue[0].depth)
  {
    assert s.queue[0] == Order(root, s.out)[popped];
  }

  lemma {:induction false} SearchTracks(g: Graph, root: string, s: State, caps: Caps, popped: nat)
    requires SearchInv(g, root, s, caps, popped)
    ensures var r := Search(s, g, caps); SearchInv(g, root, r, caps, |Order(root, r.out)|)
    decreases Left(s, g)
  {
    if s.queue != [] {
      ExpandSpends(s, g, caps);
      ExpandTracks(g, root, s, caps, popped);
      SearchTracks(g, root, Expand(s, g, caps), caps, popped + 1);
    }
  }

  lemma InitialTracks(g: Graph, root: string, caps: Caps)
    ensures SearchInv(g, root, Initial(root), caps, 0)
  {
    assert IsWalk(g, [root], root, root);
    assert Order(root, []) == [Item(root, 0)];
    assert Order(root, [])[0].node == root;
  }

  function Result(root: string, g: Graph, caps: Caps): State { Search(Initial(root), g, caps) }

  // Along any walk from the root, each node within the depth cap is found no later than its step.
  lemma {:induction false} WalkFound(g: Graph, root: string, caps: Caps, w: seq<string>, i: nat)
    requires caps.rows == None && |w| >= 1 && IsWalk(g, w, root, w[|w| - 1]) && i < |w| && (i == 0 || i <= caps.depth)
    ensures Near(Order(root, Result(root, g, caps).out), w[i], i)
  {
    var o := Order(root, Result(root, g, caps).out);
    if i == 0 {
      assert o[0].node == root;
    } else {
      WalkFound(g, root, caps, w, i - 1);
      InitialTracks(g, root, caps);
      SearchTracks(g, root, Initial(root), caps, 0);
      var j :| 0 <= j < |o| && o[j].node == w[i - 1] && o[j].depth <= i - 1;
      assert Adjacent(g, w[i - 1], w[i]);
      var k :| 0 <= k < |At(g, w[i - 1])| && At(g, w[i - 1])[k].other == w[i];
      assert ClosedAt(g, o, o[j]);
      assert Near(o, w[i], o[j].depth + 1);
    }
  }

  // The uncapped run finds exactly the other nodes within the depth cap.
  lemma FindsTheNeighbourhood(g: Graph, root: string, cap: int, v: string)
    ensures (exists k ::
              0 <= k < |Result(root, g, Caps(cap, None)).out| && Result(root, g, Caps(cap, None)).out[k].ref == v) <==>
            v != root && exists d :: 1 <= d <= cap && Reaches(g, root, v, d)
  {
    var caps := Caps(cap, None);
    var out := Result(root, g, caps).out;
    var o := Order(root, out);
    InitialTracks(g, root, caps);
    SearchTracks(g, root, Initial(root), caps, 0);
    if k :| 0 <= k < |out| && out[k].ref == v {
      assert o[k + 1].node == v && Reaches(g, root, v, o[k + 1].depth);
      assert o[0].node == root;
    }
    if v != root && exists d :: 1 <= d <= cap && Reaches(g, root, v, d) {
      var d :| 1 <= d <= cap && Reaches(g, root, v, d);
      var w :| IsWalk(g, w, root, v) && |w| == d + 1;
      WalkFound(g, root, caps, w, d);
      var j :| 0 <= j < |o| && o[j].node == v;
      assert out[j - 1].ref == v;
    }
  }

  // Emitted nodes are distinct, never the root, within the depth cap, and at their
  // shortest distance, whatever the row cap.
  lemma EmittedAtShortestDistance(g: Graph, root: string, cap: int, rows: int, k: nat)
    requires k < |Result(root, g, Caps(cap, Some(rows))).out|
    ensures var r := Result(root, g, Caps(cap, Some(rows))).out[k];
      && r.ref != root && 1 <= r.depth <= cap
      && (forall j :: 0 <= j < |Result(root, g, Caps(cap, Some(rows))).out| && j != k ==>
           Result(root, g, Caps(cap, Some(rows))).out[j].ref != r.ref)
      && Reaches(g, root, r.ref, r.depth) && forall d :: Reaches(g, root, r.ref, d) ==> r.depth <= d
  {
    RowCapTruncates(root, g, cap, rows);
    var full, cut := Result(root, g, Caps(cap, None)).out, Result(root, g, Caps(cap, Some(rows))).out;
    ShortestUncapped(g, root, cap, k);
    assert forall j :: 0 <= j < |cut| ==> cut[j] == full[j];
  }

  lemma ShortestUncapped(g: Graph, root: string, cap: int, k: nat)
    requires k < |Result(root, g, Caps(cap, None)).out|
    ensures var out := Result(root, g, Caps(cap, None)).out; var r := out[k];
      && r.ref != root && 1 <= r.depth <= cap
      && (forall j :: 0 <= j < |out| && j != k ==> out[j].ref != r.ref)
      && Reaches(g, root, r.ref, r.depth) && forall d :: Reaches(g, root, r.ref, d) ==> r.depth <= d
  {
    var caps := Caps(cap, None);
    var out := Result(root, g, caps).out;
    var o, r := Order(root, out), out[k];
    InitialTracks(g, root, caps);
    SearchTracks(g, root, Initial(root), caps, 0);
    assert o[0].node == root && o[k + 1] == Item(r.ref, r.depth);
    forall j | 0 <= j < |out| && j != k ensures out[j].ref != r.ref { assert o[j + 1].node == out[j].ref; }
    forall d | Reaches(g, root, r.ref, d) ensures r.depth <= d {
      if d < r.depth { NoShorter(g, root, caps, o, k, r.ref, d); }
    }
  }

  lemma NoShorter(g: Graph, root: string, caps: Caps, o: seq<Item>, k: nat, v: string, d: int)
    requires caps.rows == None && d < caps.depth && o == Order(root, Result(root, g, caps).out) && Ordered(o)
    requires k + 1 < |o| && o[k + 1].node == v && Reaches(g, root, v, d)
    ensures o[k + 1].depth <= d
  {
    var w :| IsWalk(g, w, root, v) && |w| == d + 1;
    WalkFound(g, root, caps, w, d);
    NearIsNoLess(o, k + 1, d);
  }

  // ---- every candidate edge once ----

  datatype Step = Step(source: string, relation: Relation, target: string)

  function EdgesAt(u: string, edges: seq<Edge>): multiset<Step> {
    if edges == [] then multiset{}
    else EdgesAt(u, edges[..|edges| - 1]) + multiset{Step(u, edges[|edges| - 1].relation, edges[|edges| - 1].other)}
  }

  function EdgesOf(g: Graph, o: seq<Item>): multiset<Step> {
    if o == [] then multiset{} else EdgesOf(g, o[..|o| - 1]) + EdgesAt(o[|o| - 1].node, At(g, o[|o| - 1].node))
  }

  function Recorded(out: seq<Record>): multiset<Step> {
    if out == [] then multiset{}
    else Recorded(out[..|out| - 1]) + multiset{Step(out[|out| - 1].source, out[|out| - 1].relation, out[|out| - 1].ref)}
  }

  function Deferred(frontier: seq<Entry>): multiset<Step> {
    if frontier == [] then multiset{}
    else Deferred(frontier[..|frontier| - 1]) +
         multiset{Step(frontier[|frontier| - 1].source, frontier[|frontier| - 1].relation,
             frontier[|frontier| - 1].next)}
  }

  function Accounted(s: State): multiset<Step> { Recorded(s.out) + Deferred(s.frontier) }

  lemma RecordedAppend(out: seq<Record>, r: Record)
    ensures Recorded(out + [r]) == Recorded(out) + multiset{Step(r.source, r.relation, r.ref)}
  {
    assert (out + [r])[..|out + [r]| - 1] == out;
  }

  lemma DeferredAppend(frontier: seq<Entry>, x: Entry)
    ensures Deferred(frontier + [x]) == Deferred(frontier) + multiset{Step(x.source, x.relation, x.next)}
  {
    assert (frontier + [x])[..|frontier + [x]| - 1] == frontier;
  }

  lemma TakeAccounts(s: State, u: Item, e: Edge, caps: Caps)
    ensures Accounted(Take(s, u, e, caps)) == Accounted(s) + multiset{Step(u.node, e.relation, e.other)}
  {
    if e.other in s.visited {
      Deferring(s, Entry(u.node, e.relation, e.other, Cycle));
    } else if u.depth + 1 > caps.depth {
      Deferring(s, Entry(u.node, e.relation, e.other, DepthLimit));
    } else if Full(s.out, caps) {
      Deferring(s, Entry(u.node, e.relation, e.other, RowCap));
    } else {
      RecordedAppend(s.out, Record(u.node, e.relation, e.other, u.depth + 1));
    }
  }

  lemma Deferring(s: State, x: Entry)
    ensures Accounted(s.(frontier := s.frontier + [x])) == Accounted(s) + multiset{Step(x.source, x.relation, x.next)}
  {
    DeferredAppend(s.frontier, x);
  }

  lemma {:induction false} TakeAllAccounts(s: State, u: Item, edges: seq<Edge>, caps: Caps)
    ensures Accounted(TakeAll(s, u, edges, caps)) == Accounted(s) + EdgesAt(u.node, edges)
    decreases |edges|
  {
    if edges != [] {
      TakeAllAccounts(s, u, edges[..|edges| - 1], caps);
      TakeAccounts(TakeAll(s, u, edges[..|edges| - 1], caps), u, edges[|edges| - 1], caps);
    }
  }

  lemma ExpandAccounts(g: Graph, root: string, s: State, caps: Caps, popped: nat)
    requires popped < |Order(root, s.out)| && s.queue != [] && s.queue[0] == Order(root, s.out)[popped]
    requires Accounted(s) == EdgesOf(g, Order(root, s.out)[..popped])
    ensures var s' := Expand(s, g, caps);
      Prefix(s.out, s'.out) && Accounted(s') == EdgesOf(g, Order(root, s'.out)[..popped + 1])
  {
    var o, u, t := Order(root, s.out), s.queue[0], s.(queue := s.queue[1..]);
    TakeAllAccounts(t, u, At(g, u.node), caps);
    TakeAllGrows(t, u, At(g, u.node), caps);
    OrderPrefix(root, s.out, Expand(s, g, caps).out, popped);
    EdgesOfAppend(g, o[..popped], u);
  }

  lemma OrderPrefix(root: string, out: seq<Record>, out': seq<Record>, n: nat)
    requires Prefix(out, out') && n < |Order(root, out)|
    ensures Order(root, out')[..n + 1] == Order(root, out)[..n] + [Order(root, out)[n]]
  {
  }

  lemma EdgesOfAppend(g: Graph, o: seq<Item>, u: Item)
    ensures EdgesOf(g, o + [u]) == EdgesOf(g, o) + EdgesAt(u.node, At(g, u.node))
  {
    assert (o + [u])[..|o + [u]| - 1] == o;
  }

  lemma {:induction false} SearchAccounts(g: Graph, root: string, s: State, caps: Caps, popped: nat)
    requires SearchInv(g, root, s, caps, popped) && Accounted(s) == EdgesOf(g, Order(root, s.out)[..popped])
    ensures var r := Search(s, g, caps); Accounted(r) == EdgesOf(g, Order(root, r.out))
    decreases Left(s, g)
  {
    if s.queue == [] {
      assert Order(root, s.out)[..popped] == Order(root, s.out);
    } else {
      BeginExpand(g, root, s, caps, popped);
      ExpandSpends(s, g, caps);
      ExpandTracks(g, root, s, caps, popped);
      ExpandAccounts(g, root, s, caps, popped);
      SearchAccounts(g, root, Expand(s, g, caps), caps, popped + 1);
    }
  }

  // Each candidate edge of each expanded node, the root and every record, becomes exactly
  // one record or one frontier entry: nothing is dropped and nothing is counted twice.
  lemma EveryEdgeOnce(g: Graph, root: string, cap: int, rows: int)
    ensures var r := Result(root, g, Caps(cap, Some(rows)));
      Recorded(r.out) + Deferred(r.frontier) == EdgesOf(g, Order(root, r.out))
  {
    var caps := Caps(cap, Some(rows));
    InitialTracks(g, root, caps);
    assert Order(root, [])[..0] == [];
    SearchAccounts(g, root, Initial(root), caps, 0);
  }

  // ---- what a frontier entry says ----

  predicate EntryTrue(s: State, o: seq<Item>, caps: Caps, x: Entry) {
    match x.reason
    case Cycle => x.next in s.visited
    case DepthLimit => exists j :: 0 <= j < |o| && o[j].node == x.source && o[j].depth + 1 > caps.depth
    case RowCap =>
      && Full(s.out, caps)
      && exists j :: 0 <= j < |o| && o[j].node == x.source && o[j].depth + 1 <= caps.depth
  }

  predicate EntriesTrue(s: State, o: seq<Item>, caps: Caps) {
    forall i :: 0 <= i < |s.frontier| ==> EntryTrue(s, o, caps, s.frontier[i])
  }

  lemma EntriesOutlive(root: string, s: State, s': State, caps: Caps)
    requires EntriesTrue(s, Order(root, s.out), caps) && s.visited <= s'.visited && Prefix(s.out, s'.out)
    requires s'.frontier == s.frontier
    ensures EntriesTrue(s', Order(root, s'.out), caps)
  {
    var o, o' := Order(root, s.out), Order(root, s'.out);
    forall i | 0 <= i < |s'.frontier| ensures EntryTrue(s', o', caps, s'.frontier[i]) {
      assert EntryTrue(s, o, caps, s.frontier[i]);
      if s.frontier[i].reason == DepthLimit {
        var j :| 0 <= j < |o| && o[j].node == s.frontier[i].source && o[j].depth + 1 > caps.depth;
        assert o'[j] == o[j];
      }
      if s.frontier[i].reason == RowCap {
        var j :| 0 <= j < |o| && o[j].node == s.frontier[i].source && o[j].depth + 1 <= caps.depth;
        assert o'[j] == o[j];
      }
    }
  }

  lemma {:induction false} TakeAllEntries(root: string, s: State, u: Item, edges: seq<Edge>, caps: Caps, popped: nat)
    requires EntriesTrue(s, Order(root, s.out), caps) && popped <= |s.out| && Order(root, s.out)[popped] == u
    ensures var s' := TakeAll(s, u, edges, caps);
      EntriesTrue(s', Order(root, s'.out), caps) && Prefix(s.out, s'.out) && Order(root, s'.out)[popped] == u
    decreases |edges|
  {
    if edges != [] {
      TakeAllEntries(root, s, u, edges[..|edges| - 1], caps, popped);
      var t := TakeAll(s, u, edges[..|edges| - 1], caps);
      var s' := TakeAll(s, u, edges, caps);
      EntriesOutlive(root, t, s'.(frontier := t.frontier), caps);
    }
  }

  lemma ExpandEntries(g: Graph, root: string, s: State, caps: Caps, popped: nat)
    requires popped < |Order(root, s.out)| && s.queue != [] && s.queue[0] == Order(root, s.out)[popped]
    requires EntriesTrue(s, Order(root, s.out), caps)
    ensures var s' := Expand(s, g, caps); EntriesTrue(s', Order(root, s'.out), caps)
  {
    var t := s.(queue := s.queue[1..]);
    EntriesOutlive(root, s, t, caps);
    TakeAllEntries(root, t, s.queue[0], At(g, s.queue[0].node), caps, popped);
  }

  lemma {:induction false} SearchEntries(g: Graph, root: string, s: State, caps: Caps, popped: nat)
    requires SearchInv(g, root, s, caps, popped) && EntriesTrue(s, Order(root, s.out), caps)
    ensures var r := Search(s, g, caps); EntriesTrue(r, Order(root, r.out), caps)
    decreases Left(s, g)
  {
    if s.queue != [] {
      BeginExpand(g, root, s, caps, popped);
      ExpandSpends(s, g, caps);
      ExpandTracks(g, root, s, caps, popped);
      ExpandEntries(g, root, s, caps, popped);
      SearchEntries(g, root, Expand(s, g, caps), caps, popped + 1);
    }
  }

  // ---- a node that is stopped at is not in the result ----

  // Past a cap nothing new is found, so what was stopped at stays unfound.
  ghost predicate StopsHold(s: State, over: bool) {
    && (forall i :: 0 <= i < |s.frontier| && s.frontier[i].reason != Cycle ==> s.frontier[i].next !in s.visited)
    && (over || forall i :: 0 <= i < |s.frontier| ==> s.frontier[i].reason == Cycle)
  }

  // Whether expanding u can find nothing more, under the caps.
  predicate Over(s: State, u: Item, caps: Caps) { Full(s.out, caps) || u.depth + 1 > caps.depth }

  lemma TakeStops(s: State, u: Item, e: Edge, caps: Caps)
    requires StopsHold(s, Over(s, u, caps))
    ensures StopsHold(Take(s, u, e, caps), Over(Take(s, u, e, caps), u, caps))
  {
    var s' := Take(s, u, e, caps);
    if Over(s, u, caps) {
      assert s'.visited == s.visited && Over(s', u, caps);
      assert forall i :: 0 <= i < |s.frontier| ==> s'.frontier[i] == s.frontier[i];
    }
  }

  lemma {:induction false} TakeAllStops(s: State, u: Item, edges: seq<Edge>, caps: Caps)
    requires StopsHold(s, Over(s, u, caps))
    ensures StopsHold(TakeAll(s, u, edges, caps), Over(TakeAll(s, u, edges, caps), u, caps))
    decreases |edges|
  {
    if edges != [] {
      TakeAllStops(s, u, edges[..|edges| - 1], caps);
      TakeStops(TakeAll(s, u, edges[..|edges| - 1], caps), u, edges[|edges| - 1], caps);
    }
  }

  // Whether anything in the queue can still find something.
  predicate Spent(s: State, caps: Caps) {
    Full(s.out, caps) || forall i :: 0 <= i < |s.queue| ==> s.queue[i].depth + 1 > caps.depth
  }

  lemma ExpandStops(g: Graph, root: string, s: State, caps: Caps, popped: nat)
    requires SearchInv(g, root, s, caps, popped) && s.queue != [] && StopsHold(s, Spent(s, caps))
    ensures StopsHold(Expand(s, g, caps), Spent(Expand(s, g, caps), caps))
  {
    var u, t, s' := s.queue[0], s.(queue := s.queue[1..]), Expand(s, g, caps);
    TakeAllStops(t, u, At(g, u.node), caps);
    BeginExpand(g, root, s, caps, popped);
    TakeAllTracks(g, root, t, u, |At(g, u.node)|, caps, popped + 1);
    assert At(g, u.node)[..|At(g, u.node)|] == At(g, u.node);
    QueueIsDeeper(g, root, s', u, caps, popped + 1);
  }

  lemma QueueIsDeeper(g: Graph, root: string, s: State, u: Item, caps: Caps, popped: nat)
    requires Expanding(g, root, s, u, caps, popped)
    ensures forall i :: 0 <= i < |s.queue| ==> s.queue[i].depth >= u.depth
  {
    var o := Order(root, s.out);
    forall i | 0 <= i < |s.queue| ensures s.queue[i].depth >= u.depth { assert s.queue[i] == o[popped + i]; }
  }

  lemma {:induction false} SearchStops(g: Graph, root: string, s: State, caps: Caps, popped: nat)
    requires SearchInv(g, root, s, caps, popped) && StopsHold(s, Spent(s, caps))
    ensures StopsHold(Search(s, g, caps), Spent(Search(s, g, caps), caps))
    decreases Left(s, g)
  {
    if s.queue != [] {
      ExpandSpends(s, g, caps);
      ExpandTracks(g, root, s, caps, popped);
      ExpandStops(g, root, s, caps, popped);
      SearchStops(g, root, Expand(s, g, caps), caps, popped + 1);
    }
  }

  // An entry stopped at a cap names a node that the result does not hold.
  lemma StoppedIsAbsent(g: Graph, root: string, cap: int, rows: int, i: nat)
    requires i < |Result(root, g, Caps(cap, Some(rows))).frontier|
    requires Result(root, g, Caps(cap, Some(rows))).frontier[i].reason != Cycle
    ensures var r := Result(root, g, Caps(cap, Some(rows)));
      r.frontier[i].next != root && forall j :: 0 <= j < |r.out| ==> r.out[j].ref != r.frontier[i].next
  {
    var caps := Caps(cap, Some(rows));
    InitialTracks(g, root, caps);
    SearchTracks(g, root, Initial(root), caps, 0);
    SearchStops(g, root, Initial(root), caps, 0);
    var r := Result(root, g, caps);
    var o := Order(root, r.out);
    assert !Seen(o, r.frontier[i].next);
    assert o[0].node == root && forall j :: 0 <= j < |r.out| ==> o[j + 1].node == r.out[j].ref;
  }

  // A stop is stated for what it is: a node already found, a source at the depth cap, or a
  // source within it when the result had filled the row cap.
  lemma FrontierIsHonest(g: Graph, root: string, cap: int, rows: int, i: nat)
    requires i < |Result(root, g, Caps(cap, Some(rows))).frontier|
    ensures var r := Result(root, g, Caps(cap, Some(rows))); var x := r.frontier[i];
      match x.reason
      case Cycle => Seen(Order(root, r.out), x.next)
      case DepthLimit =>
        exists j ::
          0 <= j < |r.out| + 1 && Order(root, r.out)[j].node == x.source && Order(root, r.out)[j].depth + 1 > cap
      case RowCap =>
        && |r.out| >= rows
        && exists j ::
             0 <= j < |r.out| + 1 && Order(root, r.out)[j].node == x.source && Order(root, r.out)[j].depth + 1 <= cap
  {
    var caps := Caps(cap, Some(rows));
    InitialTracks(g, root, caps);
    SearchTracks(g, root, Initial(root), caps, 0);
    SearchEntries(g, root, Initial(root), caps, 0);
    var r := Result(root, g, caps);
    assert EntryTrue(r, Order(root, r.out), caps, r.frontier[i]);
  }
}
