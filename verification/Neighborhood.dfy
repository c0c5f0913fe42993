// The capped breadth-first expansion (kawa/retrieval.py, _exec_neighborhood) over a fixed
// candidate function: every node's candidate edges, already in expansion order.

module Neighborhood {
  import opened Prelude
  import opened Vocabulary

  datatype Direction = Outgoing | Incoming
  datatype Edge = Edge(relation: Relation, other: string, direction: Direction)
  type Graph = map<string, seq<Edge>>

  datatype Item = Item(node: string, depth: int)
  datatype Record = Record(source: string, relation: Relation, ref: string, depth: int)
  datatype Reason = Cycle | DepthLimit | RowCap
  datatype Entry = Entry(source: string, relation: Relation, next: string, reason: Reason)
  datatype State = State(queue: seq<Item>, visited: set<string>, out: seq<Record>, frontier: seq<Entry>)

  // The caps: `rows` is None for the uncapped run.
  datatype Caps = Caps(depth: int, rows: Option<int>)

  function At(g: Graph, node: string): seq<Edge> { if node in g then g[node] else [] }

  function Full(out: seq<Record>, caps: Caps): bool { caps.rows.Some? && |out| >= caps.rows.value }

  // One candidate edge of the node being expanded.
  function Take(s: State, u: Item, e: Edge, caps: Caps): State {
    if e.other in s.visited then s.(frontier := s.frontier + [Entry(u.node, e.relation, e.other, Cycle)])
    else if u.depth + 1 > caps.depth then s.(frontier := s.frontier + [Entry(u.node, e.relation, e.other, DepthLimit)])
    else if Full(s.out, caps) then s.(frontier := s.frontier + [Entry(u.node, e.relation, e.other, RowCap)])
    else State(s.queue + [Item(e.other, u.depth + 1)], s.visited + {e.other},
               s.out + [Record(u.node, e.relation, e.other, u.depth + 1)], s.frontier)
  }

  function TakeAll(s: State, u: Item, edges: seq<Edge>, caps: Caps): State
    decreases |edges|
  {
    if edges == [] then s
    else Take(TakeAll(s, u, edges[..|edges| - 1], caps), u, edges[|edges| - 1], caps)
  }

  function Expand(s: State, g: Graph, caps: Caps): State
    requires s.queue != []
  {
    TakeAll(s.(queue := s.queue[1..]), s.queue[0], At(g, s.queue[0].node), caps)
  }

  function Universe(g: Graph): set<string> { set n, i | n in g && 0 <= i < |g[n]| :: g[n][i].other }

  function Left(s: State, g: Graph): nat { |Universe(g) - s.visited| + |s.queue| }

  lemma SmallerByOne(u: set<string>, visited: set<string>, x: string)
    requires x in u && x !in visited
    ensures |u - (visited + {x})| == |u - visited| - 1
  {
    assert u - (visited + {x}) == (u - visited) - {x};
  }

  lemma TakeSpends(s: State, u: Item, e: Edge, g: Graph, caps: Caps)
    requires e.other in Universe(g)
    ensures Left(Take(s, u, e, caps), g) == Left(s, g)
  {
    if e.other !in s.visited { SmallerByOne(Universe(g), s.visited, e.other); }
  }

  lemma {:induction false} TakeAllSpends(s: State, u: Item, edges: seq<Edge>, g: Graph, caps: Caps)
    requires forall i :: 0 <= i < |edges| ==> edges[i].other in Universe(g)
    ensures Left(TakeAll(s, u, edges, caps), g) == Left(s, g)
    decreases |edges|
  {
    if edges != [] {
      TakeAllSpends(s, u, edges[..|edges| - 1], g, caps);
      TakeSpends(TakeAll(s, u, edges[..|edges| - 1], caps), u, edges[|edges| - 1], g, caps);
    }
  }

  // A popped item is paid for by every node it pushes: the search ends.
  lemma ExpandSpends(s: State, g: Graph, caps: Caps)
    requires s.queue != []
    ensures Left(Expand(s, g, caps), g) == Left(s, g) - 1
  {
    TakeAllSpends(s.(queue := s.queue[1..]), s.queue[0], At(g, s.queue[0].node), g, caps);
  }

  function Search(s: State, g: Graph, caps: Caps): (r: State)
    ensures r.queue == []
    decreases Left(s, g)
  {
    if s.queue == [] then s
    else
      ExpandSpends(s, g, caps);
      Search(Expand(s, g, caps), g, caps)
  }

  function Initial(root: string): State { State([Item(root, 0)], {root}, [], []) }

  // Every candidate edge of one node, in order.
  method ExpandNode(u: Item, edges: seq<Edge>, s: State, depthCap: int, rowCap: int) returns (t: State)
    ensures t == TakeAll(s, u, edges, Caps(depthCap, Some(rowCap)))
  {
    var queue, visited, out, frontier := s.queue, s.visited, s.out, s.frontier;
    assert edges[..0] == [];
    for i := 0 to |edges|
      invariant State(queue, visited, out, frontier) == TakeAll(s, u, edges[..i], Caps(depthCap, Some(rowCap)))
    {
      var e := edges[i];
      assert edges[..i + 1][..i] == edges[..i];
      if e.other in visited {
        frontier := frontier + [Entry(u.node, e.relation, e.other, Cycle)];
        continue;
      }
      if u.depth + 1 > depthCap {
        frontier := frontier + [Entry(u.node, e.relation, e.other, DepthLimit)];
        continue;
      }
      if |out| >= rowCap {
        frontier := frontier + [Entry(u.node, e.relation, e.other, RowCap)];
        continue;
      }
      visited := visited + {e.other};
      out := out + [Record(u.node, e.relation, e.other, u.depth + 1)];
      queue := queue + [Item(e.other, u.depth + 1)];
    }
    assert edges[..|edges|] == edges;
    t := State(queue, visited, out, frontier);
  }

  method ExecNeighborhood(root: string, g: Graph, depthCap: int, rowCap: int)
    returns (out: seq<Record>, frontier: seq<Entry>)
    ensures var r := Search(Initial(root), g, Caps(depthCap, Some(rowCap))); out == r.out && frontier == r.frontier
  {
    ghost var caps := Caps(depthCap, Some(rowCap));
    var s := Initial(root);
    while s.queue != []
      invariant Search(s, g, caps) == Search(Initial(root), g, caps)
      decreases Left(s, g)
    {
      ExpandSpends(s, g, caps);
      var u := s.queue[0];
      s := ExpandNode(u, At(g, u.node), s.(queue := s.queue[1..]), depthCap, rowCap);
    }
    out, frontier := s.out, s.frontier;
  }

  // ---- the row cap only cuts the tail ----

  function Uncapped(caps: Caps): Caps { caps.(rows := None) }

  predicate Prefix<X(==)>(a: seq<X>, b: seq<X>) { |a| <= |b| && a == b[..|a|] }

  lemma {:induction false} TakeAllGrows(s: State, u: Item, edges: seq<Edge>, caps: Caps)
    ensures Prefix(s.out, TakeAll(s, u, edges, caps).out)
    ensures Full(s.out, caps) ==> TakeAll(s, u, edges, caps).out == s.out
    decreases |edges|
  {
    if edges != [] { TakeAllGrows(s, u, edges[..|edges| - 1], caps); }
  }

  lemma {:induction false} SearchGrows(s: State, g: Graph, caps: Caps)
    ensures Prefix(s.out, Search(s, g, caps).out)
    ensures Full(s.out, caps) ==> Search(s, g, caps).out == s.out
    decreases Left(s, g)
  {
    if s.queue != [] {
      ExpandSpends(s, g, caps);
      TakeAllGrows(s.(queue := s.queue[1..]), s.queue[0], At(g, s.queue[0].node), caps);
      SearchGrows(Expand(s, g, caps), g, caps);
    }
  }

  // The two runs go in step until the cap is reached; from then on the capped one adds no row.
  lemma {:induction false} TakeAllInStep(s: State, u: Item, edges: seq<Edge>, caps: Caps)
    requires caps.rows.Some?
    ensures var c, f := TakeAll(s, u, edges, caps), TakeAll(s, u, edges, Uncapped(caps));
      c == f || (Full(c.out, caps) && Prefix(c.out, f.out))
    decreases |edges|
  {
    if edges != [] { TakeAllInStep(s, u, edges[..|edges| - 1], caps); }
  }

  lemma {:induction false} CappedIsPrefix(s: State, g: Graph, caps: Caps)
    requires caps.rows.Some?
    ensures var c, f := Search(s, g, caps).out, Search(s, g, Uncapped(caps)).out;
      Prefix(c, f) && (c == f || Full(c, caps))
    decreases Left(s, g)
  {
    if s.queue != [] {
      var c, f := Expand(s, g, caps), Expand(s, g, Uncapped(caps));
      ExpandSpends(s, g, caps);
      ExpandSpends(s, g, Uncapped(caps));
      TakeAllInStep(s.(queue := s.queue[1..]), s.queue[0], At(g, s.queue[0].node), caps);
      if c == f {
        CappedIsPrefix(c, g, caps);
      } else {
        SearchGrows(c, g, caps);
        SearchGrows(f, g, Uncapped(caps));
        assert c.out == f.out[..|c.out|];
      }
    }
  }

  lemma {:induction false} TakeAllWithin(s: State, u: Item, edges: seq<Edge>, caps: Caps)
    requires caps.rows.Some? && |s.out| <= Bound(caps)
    ensures |TakeAll(s, u, edges, caps).out| <= Bound(caps)
    decreases |edges|
  {
    if edges != [] { TakeAllWithin(s, u, edges[..|edges| - 1], caps); }
  }

  function Bound(caps: Caps): nat
    requires caps.rows.Some?
  {
    if caps.rows.value > 0 then caps.rows.value else 0
  }

  lemma {:induction false} SearchWithin(s: State, g: Graph, caps: Caps)
    requires caps.rows.Some? && |s.out| <= Bound(caps)
    ensures |Search(s, g, caps).out| <= Bound(caps)
    decreases Left(s, g)
  {
    if s.queue != [] {
      ExpandSpends(s, g, caps);
      TakeAllWithin(s.(queue := s.queue[1..]), s.queue[0], At(g, s.queue[0].node), caps);
      SearchWithin(Expand(s, g, caps), g, caps);
    }
  }

  // A row-capped run returns exactly the first `rows` records of the uncapped run.
  lemma RowCapTruncates(root: string, g: Graph, depthCap: int, rowCap: int)
    ensures var c, f := Search(Initial(root), g, Caps(depthCap, Some(rowCap))).out,
                Search(Initial(root), g, Caps(depthCap, None)).out;
      c == if rowCap <= 0 then [] else if |f| <= rowCap then f else f[..rowCap]
  {
    var caps := Caps(depthCap, Some(rowCap));
    CappedIsPrefix(Initial(root), g, caps);
    SearchWithin(Initial(root), g, caps);
  }
}
