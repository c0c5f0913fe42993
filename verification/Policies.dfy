// The policy lineage over whole runs: its pointers agree in both directions, and every
// entry goes back to a receipt that authorized it.

module Policies {
  import opened Prelude
  import opened Runs
  import F = Freezing
  import G = Gate

  // An entry is keyed by its bundle; the policy it replaced is held and points back to it,
  // and what replaced it is held too.
  predicate EntryLinked(l: G.Lineage, d: string)
    requires d in l
  {
    && d == G.BundleDigest(l[d].bundle)
    && (l[d].prior.Some? ==> l[d].prior.value in l && l[l[d].prior.value].supersededBy == Some(d))
    && (l[d].supersededBy.Some? ==> l[d].supersededBy.value in l)
  }

  ghost predicate Linked(l: G.Lineage) { forall d :: d in l ==> EntryLinked(l, d) }

  // Whatever is established, an entry keeps its bundle, its receipt and what it replaced.
  ghost predicate EntriesKept(l: G.Lineage, l': G.Lineage) {
    forall d :: d in l ==>
      d in l' && l'[d].bundle == l[d].bundle && l'[d].receiptId == l[d].receiptId && l'[d].prior == l[d].prior
  }

  lemma EstablishedKeeps(l: G.Lineage, bundle: string, receiptId: string, prior: Option<string>)
    requires Linked(l) && G.CurrentPolicy(l) == G.Ok(prior) && prior != Some(G.BundleDigest(bundle))
    ensures var l' := G.Established(l, bundle, receiptId, prior); Linked(l') && EntriesKept(l, l')
  {
    HeadUnreplaced(l, prior);
    LinkedThrough(l, bundle, receiptId, prior);
  }

  lemma LinkedThrough(l: G.Lineage, bundle: string, receiptId: string, prior: Option<string>)
    requires Linked(l) && prior != Some(G.BundleDigest(bundle))
    requires prior.Some? ==> prior.value in l && l[prior.value].supersededBy == None
    ensures var l' := G.Established(l, bundle, receiptId, prior); Linked(l') && EntriesKept(l, l')
  {
    Replaced(l, prior, G.BundleDigest(bundle));
    var d, retired := G.BundleDigest(bundle), G.Superseded(l, prior, G.BundleDigest(bundle));
    var l' := G.Established(l, bundle, receiptId, prior);
    forall x | x in l' ensures EntryLinked(l', x) {
      if x in l { assert EntryLinked(l, x); }
    }
  }

  // Only the forward pointer of the policy replaced moves.
  lemma Replaced(l: G.Lineage, prior: Option<string>, successor: string)
    ensures var l' := G.Superseded(l, prior, successor);
      && l'.Keys == l.Keys
      && forall d :: d in l ==>
           l'[d] == if prior == Some(d) then l[d].(supersededBy := Some(successor)) else l[d]
  {
  }

  lemma HeadUnreplaced(l: G.Lineage, prior: Option<string>)
    requires G.CurrentPolicy(l) == G.Ok(prior)
    ensures prior.Some? ==> prior.value in l && l[prior.value].supersededBy == None
  {
    if prior.Some? {
      G.OneElement(G.Heads(l));
      assert prior.value in G.Heads(l);
    }
  }

  lemma LineageNext(ws: seq<World>, ops: seq<Op>, n: nat)
    requires Run(ws, ops) && n < |ops| && Linked(ws[n].lineage)
    ensures Linked(ws[n + 1].lineage) && EntriesKept(ws[n].lineage, ws[n + 1].lineage)
  {
    StepTaken(ws, ops, n);
    MoveKeeps(ws[n], ops[n], ws[n + 1]);
  }

  lemma MoveKeeps(w: World, op: Op, w': World)
    requires Moves(w, op, w') && Linked(w.lineage)
    ensures Linked(w'.lineage) && EntriesKept(w.lineage, w'.lineage)
  {
    if op.Establish? && op.result.Ok? {
      var prior := G.CurrentPolicy(w.lineage).value;
      if prior != Some(G.BundleDigest(op.bundle)) { EstablishedKeeps(w.lineage, op.bundle, op.receiptId, prior); }
    }
  }

  // In every run the pointers of the lineage agree.
  lemma {:induction false} RunKeepsLinked(ws: seq<World>, ops: seq<Op>, i: nat)
    requires Run(ws, ops) && i < |ws|
    ensures Linked(ws[i].lineage)
  {
    if i > 0 {
      RunKeepsLinked(ws, ops, i - 1);
      LineageNext(ws, ops, i - 1);
    }
  }

  lemma {:induction false} RunKeepsEntries(ws: seq<World>, ops: seq<Op>, i: nat, j: nat)
    requires Run(ws, ops) && i <= j < |ws|
    ensures EntriesKept(ws[i].lineage, ws[j].lineage)
  {
    if i < j {
      RunKeepsEntries(ws, ops, i, j - 1);
      NextKeepsEntries(ws, ops, j - 1);
      KeptOn(ws[i].lineage, ws[j - 1].lineage, ws[j].lineage);
    }
  }

  lemma NextKeepsEntries(ws: seq<World>, ops: seq<Op>, n: nat)
    requires Run(ws, ops) && n < |ops|
    ensures EntriesKept(ws[n].lineage, ws[n + 1].lineage)
  {
    RunKeepsLinked(ws, ops, n);
    LineageNext(ws, ops, n);
  }

  lemma KeptOn(a: G.Lineage, b: G.Lineage, c: G.Lineage)
    requires EntriesKept(a, b) && EntriesKept(b, c)
    ensures EntriesKept(a, c)
  {
  }

  // The entry was made by this step: the bundle established over the policy then in force,
  // under a held receipt that stood VALID for exactly that.
  ghost predicate MadeBy(w: World, op: Op, d: string, entry: G.Entry) {
    && op.Establish? && op.result == G.Ok(d) && d == G.BundleDigest(entry.bundle)
    && op.bundle == entry.bundle && op.receiptId == entry.receiptId && G.CurrentPolicy(w.lineage) == G.Ok(entry.prior)
    && G.PolicyAuthorized(w.log, w.lineage, w.trust, d, entry.prior, entry.receiptId, op.keys)
  }

  lemma NewEntryMade(w: World, op: Op, w': World, d: string)
    requires Linked(w.lineage) && Moves(w, op, w') && d !in w.lineage && d in w'.lineage
    ensures MadeBy(w, op, d, w'.lineage[d])
  {
    HeadsHeld(w, op, w', d);
  }

  lemma HeadsHeld(w: World, op: Op, w': World, d: string)
    requires Moves(w, op, w') && d !in w.lineage && d in w'.lineage
    ensures op.Establish? && op.result.Ok? && G.CurrentPolicy(w.lineage).Ok?
    ensures var prior := G.CurrentPolicy(w.lineage).value;
      prior != Some(G.BundleDigest(op.bundle)) && d == G.BundleDigest(op.bundle)
      && w'.lineage[d] == G.Entry(op.bundle, op.receiptId, prior, None)
  {
    G.CurrentIsHeld(w.lineage);
  }

  // Every policy ever in the lineage got there by a step that a receipt authorized.
  lemma EntryWasAuthorized(ws: seq<World>, ops: seq<Op>, j: nat, d: string) returns (n: nat)
    requires Run(ws, ops) && j < |ws| && d in ws[j].lineage
    ensures n < j && MadeBy(ws[n], ops[n], d, ws[j].lineage[d])
  {
    var held := (k: nat) => k < |ws| && d in ws[k].lineage;
    n := F.FirstTurn(held, j);
    RunKeepsLinked(ws, ops, n);
    StepTaken(ws, ops, n);
    NewEntryMade(ws[n], ops[n], ws[n + 1], d);
    RunKeepsEntries(ws, ops, n + 1, j);
  }
}
