// Hybrid logical clock (kawa/domain/ids.py): the stamp's grammar, the one causal total
// order, and the clock object that threads through local emit and admission.

module Hlc {
  import opened Prelude
  import opened Text

  const BIGINT_MAX: nat := 0x7fff_ffff_ffff_ffff

  datatype Stamp = Stamp(physical: nat, logical: nat, node: string)

  function DotAt(s: string): (i: nat)
    ensures i <= |s| && (i < |s| ==> s[i] == '.') && forall k :: 0 <= k < i ==> s[k] != '.'
  {
    if s == [] || s[0] == '.' then 0 else 1 + DotAt(s[1..])
  }

  function Parse(hlc: string): Option<Stamp> {
    var i := DotAt(hlc);
    if i == |hlc| then None
    else
      var rest := hlc[i + 1..];
      var j := DotAt(rest);
      if j == |rest| || rest[j + 1..] == [] then None
      else if i == 0 || !AllDigits(hlc[..i]) || j == 0 || !AllDigits(rest[..j]) then None
      else
        var physical, logical := Value(hlc[..i]), Value(rest[..j]);
        if physical > BIGINT_MAX || logical > BIGINT_MAX then None
        else Some(Stamp(physical, logical, rest[j + 1..]))
  }

  function Render(s: Stamp): string {
    Decimal(s.physical) + "." + Decimal(s.logical) + "." + s.node
  }

  lemma DotAfterDigits(d: string, rest: string)
    requires AllDigits(d)
    ensures DotAt(d + "." + rest) == |d|
  {
    var s := d + "." + rest;
    assert s[|d|] == '.';
    assert forall k :: 0 <= k < |d| ==> s[k] == d[k];
  }

  // A rendered stamp parses back exactly when the store can hold it and the node is named.
  lemma RoundTrip(s: Stamp)
    ensures Parse(Render(s)) ==
            if s.node != [] && s.physical <= BIGINT_MAX && s.logical <= BIGINT_MAX then Some(s) else None
  {
    var p, l := Decimal(s.physical), Decimal(s.logical);
    var tail := l + "." + s.node;
    assert Render(s) == p + "." + tail;
    DotAfterDigits(p, tail);
    assert Render(s)[|p| + 1..] == tail && Render(s)[..|p|] == p;
    DotAfterDigits(l, s.node);
    assert tail[|l| + 1..] == s.node && tail[..|l|] == l;
    DecimalRoundTrip(s.physical);
    DecimalRoundTrip(s.logical);
  }

  // A stamp is read exactly off two decimal numerals the store can hold and a name, set off
  // by the first two dots.
  lemma ParseMeans(hlc: string, s: Stamp)
    ensures Parse(hlc) == Some(s) <==> exists p, l :: (
              && hlc == p + "." + (l + "." + s.node) && s.node != []
              && p != [] && AllDigits(p) && s.physical == Value(p) <= BIGINT_MAX
              && l != [] && AllDigits(l) && s.logical == Value(l) <= BIGINT_MAX)
  {
    if Parse(hlc) == Some(s) { var p, l := ParsedFrom(hlc, s); }
    if p, l :| hlc == p + "." + (l + "." + s.node) && s.node != []
               && p != [] && AllDigits(p) && s.physical == Value(p) <= BIGINT_MAX
               && l != [] && AllDigits(l) && s.logical == Value(l) <= BIGINT_MAX {
      ParsesFrom(hlc, s, p, l);
    }
  }

  lemma ParsedFrom(hlc: string, s: Stamp) returns (p: string, l: string)
    requires Parse(hlc) == Some(s)
    ensures hlc == p + "." + (l + "." + s.node) && s.node != []
    ensures p != [] && AllDigits(p) && s.physical == Value(p) <= BIGINT_MAX
    ensures l != [] && AllDigits(l) && s.logical == Value(l) <= BIGINT_MAX
  {
    var i := DotAt(hlc);
    var rest := hlc[i + 1..];
    var j := DotAt(rest);
    p, l := hlc[..i], rest[..j];
    assert hlc == p + "." + rest;
    assert rest == l + "." + rest[j + 1..];
  }

  lemma ParsesFrom(hlc: string, s: Stamp, p: string, l: string)
    requires hlc == p + "." + (l + "." + s.node) && s.node != []
    requires p != [] && AllDigits(p) && s.physical == Value(p) <= BIGINT_MAX
    requires l != [] && AllDigits(l) && s.logical == Value(l) <= BIGINT_MAX
    ensures Parse(hlc) == Some(s)
  {
    var tail := l + "." + s.node;
    DotAfterDigits(p, tail);
    DotAfterDigits(l, s.node);
    assert hlc[|p| + 1..] == tail && hlc[..|p|] == p && tail[|l| + 1..] == s.node && tail[..|l|] == l;
  }

  lemma LargestNumber()
    ensures BIGINT_MAX == 9_223_372_036_854_775_807
  {
  }

  // ---- the causal total order: (physical, logical, tiebreak, unique), lexicographic ----

  datatype Key = Key(physical: nat, logical: nat, tiebreak: string, unique: string)

  predicate KeyBefore(a: Key, b: Key) {
    if a.physical != b.physical then a.physical < b.physical
    else if a.logical != b.logical then a.logical < b.logical
    else if a.tiebreak != b.tiebreak then Before(a.tiebreak, b.tiebreak)
    else Before(a.unique, b.unique)
  }

  lemma KeyTotal(a: Key, b: Key)
    ensures a == b || KeyBefore(a, b) || KeyBefore(b, a)
    ensures !(KeyBefore(a, b) && KeyBefore(b, a))
    ensures !KeyBefore(a, a)
  {
    Trichotomy(a.tiebreak, b.tiebreak);
    Trichotomy(a.unique, b.unique);
  }

  lemma KeyTransitive(a: Key, b: Key, c: Key)
    requires KeyBefore(a, b) && KeyBefore(b, c)
    ensures KeyBefore(a, c)
  {
    if a.tiebreak != b.tiebreak && b.tiebreak != c.tiebreak && Before(a.tiebreak, b.tiebreak)
       && Before(b.tiebreak, c.tiebreak) {
      Transitive(a.tiebreak, b.tiebreak, c.tiebreak);
      Trichotomy(a.tiebreak, c.tiebreak);
    }
    if Before(a.unique, b.unique) && Before(b.unique, c.unique) {
      Transitive(a.unique, b.unique, c.unique);
    }
    Trichotomy(b.tiebreak, c.tiebreak);
    Trichotomy(a.tiebreak, b.tiebreak);
  }

  // A reading past another: later in physical time, or the larger counter at the same time.
  predicate After(p: nat, l: nat, q: nat, m: nat) { p > q || (p == q && l > m) }

  // The order is the clock's: a stamp past another comes after it. At one reading the
  // tiebreaks decide in code-point order, and at one tiebreak the unique parts.
  lemma KeyFollowsClock(a: Key, b: Key)
    ensures After(b.physical, b.logical, a.physical, a.logical) ==> KeyBefore(a, b)
    ensures a.physical == b.physical && a.logical == b.logical && Before(a.tiebreak, b.tiebreak) ==> KeyBefore(a, b)
    ensures a.physical == b.physical && a.logical == b.logical && a.tiebreak == b.tiebreak && Before(a.unique, b.unique)
            ==> KeyBefore(a, b)
  {
    Trichotomy(a.tiebreak, b.tiebreak);
  }

  // ---- the clock ----

  class Clock {
    const node: string
    var physical: nat
    var logical: nat

    constructor (node: string)
      ensures this.node == node && physical == 0 && logical == 0
    {
      this.node := node;
      physical, logical := 0, 0;
    }

    // The next reading is the least one that is past the previous reading and not
    // behind the wall clock.
    method Tick(now: nat) returns (stamp: string)
      modifies this
      ensures physical == Max(now, old(physical))
      ensures After(physical, logical, old(physical), old(logical))
      ensures forall l: nat :: After(physical, l, old(physical), old(logical)) ==> logical <= l
      ensures stamp == Render(Stamp(physical, logical, node))
    {
      if now > physical {
        physical, logical := now, 0;
      } else {
        logical := logical + 1;
      }
      stamp := Render(Stamp(physical, logical, node));
    }

    // Merging a received stamp: the result is past both this clock and the stamp
    // (happens-before), and is the least such reading at the newest physical time known.
    method Update(other: string, now: nat) returns (stamp: string)
      requires Parse(other).Some?
      modifies this
      ensures var o := Parse(other).value;
        && physical == Max(now, Max(old(physical), o.physical))
        && After(physical, logical, old(physical), old(logical))
        && After(physical, logical, o.physical, o.logical)
        && forall l: nat :: After(physical, l, old(physical), old(logical)) ==>
                            After(physical, l, o.physical, o.logical) ==> logical <= l
      ensures stamp == Render(Stamp(physical, logical, node))
    {
      var o := Parse(other).value;
      var peak := Max(now, Max(physical, o.physical));
      if peak == physical == o.physical {
        logical := Max(logical, o.logical) + 1;
      } else if peak == physical {
        logical := logical + 1;
      } else if peak == o.physical {
        logical := o.logical + 1;
      } else {
        logical := 0;
      }
      physical := peak;
      stamp := Render(Stamp(physical, logical, node));
    }
  }
}
