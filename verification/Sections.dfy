// Splitting a committed document at its headings (kawa/repo_sections.py): the ancestor
// stack and the line spans tell one story.

module Sections {

  // ---- reading a line ----

  datatype Line = Fence | Heading(level: nat, text: string) | Plain

  predicate Space(c: char) { c == ' ' || c == '\t' || c == '\r' || c == '\U{0C}' || c == '\U{0B}' }

  function Hashes(s: string): nat { if s == [] || s[0] != '#' then 0 else 1 + Hashes(s[1..]) }

  function TrimLeft(s: string): string { if s == [] || !Space(s[0]) then s else TrimLeft(s[1..]) }

  function TrimRight(s: string): string { if s == [] || !Space(s[|s| - 1]) then s else TrimRight(s[..|s| - 1]) }

  function Read(s: string): Line {
    if |s| >= 3 && s[..3] == "```" then Fence else ReadMarked(s, Hashes(s))
  }

  function ReadMarked(s: string, n: nat): Line {
    if !(1 <= n <= 6) || n >= |s| || !Space(s[n]) then Plain else ReadBody(n, s[n..])
  }

  function ReadBody(n: nat, body: string): Line {
    if TrimLeft(body) == [] then Plain else Heading(n, TrimRight(TrimLeft(body)))
  }

  datatype Head = Head(line: nat, level: nat, text: string)

  // A fence toggles; nothing inside one is a heading.
  function Open(lines: seq<string>): bool {
    if lines == [] then false else Open(lines[..|lines| - 1]) != (Read(lines[|lines| - 1]) == Fence)
  }

  function HeadsOf(lines: seq<string>): seq<Head> {
    if lines == [] then []
    else
      var init, n := lines[..|lines| - 1], |lines| - 1;
      match Read(lines[n])
      case Heading(level, text) => HeadsOf(init) + if Open(init) then [] else [Head(n, level, text)]
      case _ => HeadsOf(init)
  }

  predicate Rising(heads: seq<Head>, total: nat) {
    && (forall i, j :: 0 <= i < j < |heads| ==> heads[i].line < heads[j].line)
    && (forall i :: 0 <= i < |heads| ==> heads[i].line < total)
  }

  lemma {:induction false} HeadsRise(lines: seq<string>)
    ensures Rising(HeadsOf(lines), |lines|)
  {
    if lines != [] { HeadsRise(lines[..|lines| - 1]); }
  }

  predicate IsHead(heads: seq<Head>, n: nat, level: nat, text: string) {
    exists k :: 0 <= k < |heads| && heads[k] == Head(n, level, text)
  }

  // The headings of a document are exactly its heading lines outside every fence.
  lemma {:induction false} HeadsMean(lines: seq<string>, n: nat, level: nat, text: string)
    ensures IsHead(HeadsOf(lines), n, level, text) <==>
            n < |lines| && Read(lines[n]) == Heading(level, text) && !Open(lines[..n])
  {
    if lines != [] {
      var last := |lines| - 1;
      var init := lines[..last];
      var before, heads := HeadsOf(init), HeadsOf(lines);
      HeadsMean(init, n, level, text);
      HeadsRise(init);
      if n < last { assert init[..n] == lines[..n]; }
      if k :| 0 <= k < |heads| && heads[k] == Head(n, level, text) { assert k < |before| ==> before[k] == heads[k]; }
      if k :| 0 <= k < |before| && before[k] == Head(n, level, text) { assert heads[k] == before[k]; }
      if n == last && Read(lines[n]) == Heading(level, text) && !Open(init) {
        assert heads[|before|] == Head(n, level, text);
      }
    }
  }

  // ---- spans and ancestry ----

  // A section ends at the next heading of the same or a higher level.
  function EndFrom(heads: seq<Head>, level: nat, k: nat, total: nat): nat
    requires k <= |heads|
    decreases |heads| - k
  {
    if k == |heads| then total
    else if heads[k].level <= level then heads[k].line
    else EndFrom(heads, level, k + 1, total)
  }

  function End(heads: seq<Head>, i: nat, total: nat): nat
    requires i < |heads|
  {
    EndFrom(heads, heads[i].level, i + 1, total)
  }

  predicate Contains(heads: seq<Head>, i: nat, total: nat, line: int)
    requires i < |heads|
  {
    heads[i].line <= line < End(heads, i, total)
  }

  // Every heading after i up to j is deeper than i.
  predicate Above(heads: seq<Head>, i: nat, j: nat)
    requires j < |heads|
  {
    i < j && forall m :: i < m <= j ==> heads[m].level > heads[i].level
  }

  predicate Below(p: seq<nat>, n: nat) { forall a :: 0 <= a < |p| ==> p[a] < n }

  // Drop the top of the stack while it is not shallower than the new heading.
  function PopTo(heads: seq<Head>, stack: seq<nat>, level: nat): (p: seq<nat>)
    requires Below(stack, |heads|)
    ensures |p| <= |stack| && p == stack[..|p|]
  {
    if stack != [] && heads[stack[|stack| - 1]].level >= level then PopTo(heads, stack[..|stack| - 1], level) else stack
  }

  // The stack with heading j pushed: what the loop carries.
  function Path(heads: seq<Head>, j: nat): (p: seq<nat>)
    requires j < |heads|
    ensures |p| > 0 && p[|p| - 1] == j && Below(p, j + 1)
  {
    if j == 0 then [0] else PopTo(heads, Path(heads, j - 1), heads[j].level) + [j]
  }

  function Ancestors(heads: seq<Head>, j: nat): seq<nat>
    requires j < |heads|
  {
    Path(heads, j)[..|Path(heads, j)| - 1]
  }

  predicate Increasing(p: seq<nat>) { forall a, b :: 0 <= a < b < |p| ==> p[a] < p[b] }

  predicate Deepening(heads: seq<Head>, p: seq<nat>) {
    Below(p, |heads|) && forall a, b :: 0 <= a < b < |p| ==> heads[p[a]].level < heads[p[b]].level
  }

  // Popping keeps exactly the shallower part of a stack whose levels rise.
  lemma {:induction false} PopToMeans(heads: seq<Head>, stack: seq<nat>, level: nat, a: nat)
    requires Deepening(heads, stack) && a < |stack|
    ensures a < |PopTo(heads, stack, level)| <==> heads[stack[a]].level < level
  {
    var top := |stack| - 1;
    if heads[stack[top]].level >= level && a < top { PopToMeans(heads, stack[..top], level, a); }
  }

  lemma {:induction false} PathShape(heads: seq<Head>, j: nat)
    requires j < |heads|
    ensures Increasing(Path(heads, j)) && Deepening(heads, Path(heads, j))
  {
    if j > 0 {
      PathShape(heads, j - 1);
      ShapePushed(heads, Path(heads, j - 1), j);
    }
  }

  lemma ShapePushed(heads: seq<Head>, before: seq<nat>, j: nat)
    requires j < |heads| && Below(before, j) && Increasing(before) && Deepening(heads, before)
    ensures var p := PopTo(heads, before, heads[j].level) + [j]; Increasing(p) && Deepening(heads, p)
  {
    var kept := PopTo(heads, before, heads[j].level);
    forall a | 0 <= a < |kept| ensures heads[kept[a]].level < heads[j].level {
      PopToMeans(heads, before, heads[j].level, a);
    }
  }

  predicate On(p: seq<nat>, i: nat) { exists a :: 0 <= a < |p| && p[a] == i }

  // The path at j: j itself and the headings above it.
  lemma {:induction false} PathMeans(heads: seq<Head>, j: nat, i: nat)
    requires j < |heads|
    ensures On(Path(heads, j), i) <==> i == j || Above(heads, i, j)
  {
    if j == 0 {
      assert Path(heads, 0) == [0];
    } else {
      PathMeans(heads, j - 1, i);
      PathShape(heads, j - 1);
      PushedMeans(heads, Path(heads, j - 1), j, i);
    }
  }

  lemma PushedMeans(heads: seq<Head>, before: seq<nat>, j: nat, i: nat)
    requires 0 < j < |heads| && Deepening(heads, before) && Below(before, j)
    requires On(before, i) <==> i == j - 1 || Above(heads, i, j - 1)
    ensures On(PopTo(heads, before, heads[j].level) + [j], i) <==> i == j || Above(heads, i, j)
  {
    OnPushed(heads, before, heads[j].level, j, i);
    if i < j { AboveNext(heads, i, j); }
  }

  lemma AboveNext(heads: seq<Head>, i: nat, j: nat)
    requires i < j < |heads|
    ensures Above(heads, i, j) <==> (i == j - 1 || Above(heads, i, j - 1)) && heads[i].level < heads[j].level
  {
  }

  lemma OnPushed(heads: seq<Head>, before: seq<nat>, level: nat, j: nat, i: nat)
    requires Deepening(heads, before) && Below(before, j)
    ensures On(PopTo(heads, before, level) + [j], i) <==> i == j || (On(before, i) && heads[i].level < level)
  {
    var kept := PopTo(heads, before, level);
    var p := kept + [j];
    assert p[|kept|] == j;
    if a :| 0 <= a < |p| && p[a] == i && i != j {
      PopToMeans(heads, before, level, a);
      assert before[a] == i;
    }
    if On(before, i) {
      var a :| 0 <= a < |before| && before[a] == i;
      PopToMeans(heads, before, level, a);
      if a < |kept| { assert p[a] == i; }
      if heads[i].level >= level && i < j {
        forall b | 0 <= b < |kept| ensures kept[b] != i { PopToMeans(heads, before, level, b); }
      }
    }
  }

  // ---- ancestry is span containment ----

  lemma {:induction false} EndMeans(heads: seq<Head>, level: nat, k: nat, j: nat, total: nat)
    requires Rising(heads, total) && k <= j < |heads|
    ensures heads[j].line < EndFrom(heads, level, k, total) <==> forall m :: k <= m <= j ==> heads[m].level > level
    decreases |heads| - k
  {
    if heads[k].level <= level {
      assert heads[k].line <= heads[j].line;
    } else if k < j {
      EndMeans(heads, level, k + 1, j, total);
    } else {
      EndBeyond(heads, level, k + 1, total);
    }
  }

  lemma {:induction false} EndBeyond(heads: seq<Head>, level: nat, k: nat, total: nat)
    requires Rising(heads, total) && 0 < k <= |heads|
    ensures heads[k - 1].line < EndFrom(heads, level, k, total) <= total
    decreases |heads| - k
  {
    if k < |heads| && heads[k].level > level { EndBeyond(heads, level, k + 1, total); }
  }

  // The stack-built ancestors of heading j are exactly the earlier headings whose span
  // contains j's line.
  lemma AncestorsAreContainers(heads: seq<Head>, i: nat, j: nat, total: nat)
    requires Rising(heads, total) && i < |heads| && j < |heads| && i != j
    ensures On(Ancestors(heads, j), i) <==> i < j && Contains(heads, i, total, heads[j].line)
  {
    PathMeans(heads, j, i);
    var p, q := Path(heads, j), Ancestors(heads, j);
    if On(q, i) { var a :| 0 <= a < |q| && q[a] == i; assert p[a] == i; }
    if On(p, i) { var a :| 0 <= a < |p| && p[a] == i; assert a < |q| && q[a] == i; }
    if i < j { EndMeans(heads, heads[i].level, i + 1, j, total); }
  }

  lemma {:induction false} EndIsAHead(heads: seq<Head>, level: nat, k: nat, total: nat) returns (m: nat)
    requires k <= |heads|
    ensures k <= m <= |heads| && EndFrom(heads, level, k, total) == if m < |heads| then heads[m].line else total
    ensures m < |heads| ==> heads[m].level <= level
    ensures forall x :: k <= x < m ==> heads[x].level > level
    decreases |heads| - k
  {
    if k == |heads| || heads[k].level <= level {
      m := k;
    } else {
      m := EndIsAHead(heads, level, k + 1, total);
    }
  }

  // A later section that starts inside an earlier one ends inside it: spans are nested or
  // disjoint.
  lemma NestedOrDisjoint(heads: seq<Head>, i: nat, j: nat, total: nat)
    requires Rising(heads, total) && i < j < |heads|
    ensures heads[i].line < End(heads, i, total) <= total
    ensures Contains(heads, i, total, heads[j].line) ==> End(heads, j, total) <= End(heads, i, total)
    ensures !Contains(heads, i, total, heads[j].line) ==> End(heads, i, total) <= heads[j].line
  {
    EndBeyond(heads, heads[i].level, i + 1, total);
    EndBeyond(heads, heads[j].level, j + 1, total);
    EndMeans(heads, heads[i].level, i + 1, j, total);
    if Contains(heads, i, total, heads[j].line) {
      var m := EndIsAHead(heads, heads[i].level, i + 1, total);
      var n := EndIsAHead(heads, heads[j].level, j + 1, total);
      assert heads[j].level > heads[i].level;
      assert m < |heads| ==> m > j && heads[m].level <= heads[j].level;
    }
  }

  predicate Extends(p: seq<nat>, q: seq<nat>) { |p| <= |q| && p == q[..|p|] }

  lemma {:induction false} PathGrows(heads: seq<Head>, i: nat, j: nat)
    requires i <= j < |heads| && On(Path(heads, j), i)
    ensures Extends(Path(heads, i), Path(heads, j))
    decreases j
  {
    if i < j {
      StaysAbove(heads, i, j);
      PathGrows(heads, i, j - 1);
      PathShape(heads, j - 1);
      KeptUpTo(heads, Path(heads, j - 1), heads[j].level, Path(heads, i), i);
      PathNext(heads, j);
    }
  }

  lemma LastIsOn(p: seq<nat>, q: seq<nat>, i: nat)
    requires |p| > 0 && p[|p| - 1] == i && Extends(p, q)
    ensures On(q, i)
  {
    assert q[|p| - 1] == i;
  }

  // The ancestry of a heading continues the ancestry of each of its ancestors.
  lemma PathExtends(heads: seq<Head>, i: nat, j: nat)
    requires i <= j < |heads|
    ensures On(Path(heads, j), i) <==> Extends(Path(heads, i), Path(heads, j))
  {
    if On(Path(heads, j), i) {
      PathGrows(heads, i, j);
    } else if Extends(Path(heads, i), Path(heads, j)) {
      LastIsOn(Path(heads, i), Path(heads, j), i);
    }
  }

  lemma StaysAbove(heads: seq<Head>, i: nat, j: nat)
    requires i < j < |heads| && On(Path(heads, j), i)
    ensures On(Path(heads, j - 1), i) && heads[i].level < heads[j].level
  {
    PathMeans(heads, j, i);
    AboveNext(heads, i, j);
    PathMeans(heads, j - 1, i);
  }

  lemma KeptUpTo(heads: seq<Head>, before: seq<nat>, level: nat, p: seq<nat>, i: nat)
    requires Below(before, |heads|) && Deepening(heads, before) && Extends(p, before) && |p| > 0 && p[|p| - 1] == i
    requires i < |heads| && heads[i].level < level
    ensures forall j: nat :: Extends(p, PopTo(heads, before, level) + [j])
  {
    assert before[|p| - 1] == i;
    PopToMeans(heads, before, level, |p| - 1);
  }

  lemma ExtendsMeansAbove(heads: seq<Head>, i: nat, j: nat)
    requires i < j < |heads|
    ensures Extends(Path(heads, i), Path(heads, j)) <==> Above(heads, i, j)
  {
    PathExtends(heads, i, j);
    PathMeans(heads, j, i);
  }

  lemma InsideMeansAbove(heads: seq<Head>, i: nat, j: nat, total: nat)
    requires Rising(heads, total) && i < j < |heads|
    ensures End(heads, j, total) <= End(heads, i, total) <==> Above(heads, i, j)
  {
    EndBeyond(heads, heads[j].level, j + 1, total);
    NestedOrDisjoint(heads, i, j, total);
    EndMeans(heads, heads[i].level, i + 1, j, total);
  }

  // One section's ancestry extends another's exactly when its span lies inside it.
  lemma AncestryIsInclusion(heads: seq<Head>, i: nat, j: nat, total: nat)
    requires Rising(heads, total) && i < |heads| && j < |heads|
    ensures Extends(Path(heads, i), Path(heads, j)) <==>
            heads[i].line <= heads[j].line && End(heads, j, total) <= End(heads, i, total)
  {
    if i < j {
      ExtendsMeansAbove(heads, i, j);
      InsideMeansAbove(heads, i, j, total);
    } else if j < i {
      NotDeeper(heads, i, j);
    }
  }

  lemma NotDeeper(heads: seq<Head>, i: nat, j: nat)
    requires j < i < |heads|
    ensures !Extends(Path(heads, i), Path(heads, j))
  {
    var p, q := Path(heads, i), Path(heads, j);
    assert |p| <= |q| ==> q[|p| - 1] < j + 1;
  }

  // ---- the loop ----

  datatype Section = Section(start: nat, end: nat, path: seq<string>)

  function Texts(heads: seq<Head>, p: seq<nat>): (r: seq<string>)
    requires Below(p, |heads|)
    ensures |r| == |p| && forall k :: 0 <= k < |r| ==> r[k] == heads[p[k]].text
  {
    seq(|p|, k requires 0 <= k < |p| => heads[p[k]].text)
  }

  method FindHeads(lines: seq<string>) returns (heads: seq<Head>)
    ensures heads == HeadsOf(lines)
  {
    heads := [];
    var inFence := false;
    for i := 0 to |lines|
      invariant heads == HeadsOf(lines[..i]) && inFence == Open(lines[..i])
    {
      assert lines[..i + 1][..i] == lines[..i];
      match Read(lines[i]) {
        case Fence => inFence := !inFence;
        case Heading(level, text) =>
          if !inFence {
            heads := heads + [Head(i, level, text)];
          }
        case Plain =>
      }
    }
    assert lines[..|lines|] == lines;
  }

  method FindEnd(heads: seq<Head>, idx: nat, total: nat) returns (end: nat)
    requires idx < |heads|
    ensures end == End(heads, idx, total)
  {
    var k := idx + 1;
    while k < |heads|
      invariant idx < k <= |heads|
      invariant EndFrom(heads, heads[idx].level, k, total) == End(heads, idx, total)
    {
      if heads[k].level <= heads[idx].level {
        return heads[k].line;
      }
      k := k + 1;
    }
    end := total;
  }

  method Push(heads: seq<Head>, given: seq<nat>, idx: nat) returns (stack: seq<nat>)
    requires idx < |heads| && Below(given, idx)
    ensures stack == PopTo(heads, given, heads[idx].level) + [idx]
  {
    stack := given;
    while stack != [] && heads[stack[|stack| - 1]].level >= heads[idx].level
      invariant Below(stack, idx)
      invariant PopTo(heads, stack, heads[idx].level) == PopTo(heads, given, heads[idx].level)
    {
      stack := stack[..|stack| - 1];
    }
    stack := stack + [idx];
  }

  function SectionAt(heads: seq<Head>, j: nat, total: nat): Section
    requires j < |heads|
  {
    Section(heads[j].line, End(heads, j, total), Texts(heads, Path(heads, j)))
  }

  method SplitSections(lines: seq<string>) returns (out: seq<Section>)
    ensures |out| == |HeadsOf(lines)|
    ensures forall j :: 0 <= j < |out| ==> out[j] == SectionAt(HeadsOf(lines), j, |lines|)
  {
    var heads := FindHeads(lines);
    out := [];
    var stack: seq<nat> := [];
    for idx := 0 to |heads|
      invariant |out| == idx && stack == Pending(heads, idx)
      invariant forall j :: 0 <= j < idx ==> out[j] == SectionAt(heads, j, |lines|)
    {
      PathNext(heads, idx);
      stack := Push(heads, stack, idx);
      var end := FindEnd(heads, idx, |lines|);
      var section := Section(heads[idx].line, end, Texts(heads, stack));
      assert section == SectionAt(heads, idx, |lines|);
      out := out + [section];
    }
  }

  // The stack before heading idx is met.
  function Pending(heads: seq<Head>, idx: nat): (p: seq<nat>)
    requires idx <= |heads|
    ensures Below(p, idx)
  {
    if idx == 0 then [] else Path(heads, idx - 1)
  }

  lemma PathNext(heads: seq<Head>, idx: nat)
    requires idx < |heads|
    ensures Path(heads, idx) == PopTo(heads, Pending(heads, idx), heads[idx].level) + [idx] == Pending(heads, idx + 1)
  {
  }

  // ---- what the lines look like ----

  predicate AllBlank(s: string) { forall i :: 0 <= i < |s| ==> Space(s[i]) }

  predicate Trimmed(s: string) { s != [] && !Space(s[0]) && !Space(s[|s| - 1]) }

  function Marks(n: nat): (s: string)
    ensures |s| == n && forall i :: 0 <= i < n ==> s[i] == '#'
  {
    seq(n, i => '#')
  }

  lemma {:induction false} HashesRead(n: nat, rest: string)
    requires rest == [] || rest[0] != '#'
    ensures Hashes(Marks(n) + rest) == n
  {
    if n > 0 {
      assert (Marks(n) + rest)[1..] == Marks(n - 1) + rest;
      HashesRead(n - 1, rest);
    }
  }

  lemma {:induction false} HashesMarks(s: string)
    ensures Hashes(s) <= |s| && s[..Hashes(s)] == Marks(Hashes(s))
  {
    if s != [] && s[0] == '#' {
      HashesMarks(s[1..]);
      assert s[..Hashes(s)] == ['#'] + s[1..][..Hashes(s[1..])];
    }
  }

  lemma {:induction false} LeftTrims(blank: string, s: string)
    requires AllBlank(blank) && (s == [] || !Space(s[0]))
    ensures TrimLeft(blank + s) == s
  {
    if blank == [] {
      assert blank + s == s;
    } else {
      assert (blank + s)[1..] == blank[1..] + s;
      LeftTrims(blank[1..], s);
    }
  }

  lemma {:induction false} RightTrims(s: string, blank: string)
    requires AllBlank(blank) && (s == [] || !Space(s[|s| - 1]))
    ensures TrimRight(s + blank) == s
  {
    if blank == [] {
      assert s + blank == s;
    } else {
      assert (s + blank)[..|s + blank| - 1] == s + blank[..|blank| - 1];
      RightTrims(s, blank[..|blank| - 1]);
    }
  }

  lemma {:induction false} LeftTrimmed(s: string) returns (blank: string)
    ensures AllBlank(blank) && s == blank + TrimLeft(s) && (TrimLeft(s) == [] || !Space(TrimLeft(s)[0]))
  {
    if s == [] || !Space(s[0]) {
      blank := [];
    } else {
      var rest := LeftTrimmed(s[1..]);
      var t := TrimLeft(s[1..]);
      blank := [s[0]] + rest;
      assert blank + t == [s[0]] + (rest + t) == s;
    }
  }

  lemma {:induction false} RightTrimmed(s: string) returns (blank: string)
    ensures AllBlank(blank) && s == TrimRight(s) + blank
    ensures TrimRight(s) == [] || !Space(TrimRight(s)[|TrimRight(s)| - 1])
  {
    if s == [] || !Space(s[|s| - 1]) {
      blank := [];
    } else {
      var rest := RightTrimmed(s[..|s| - 1]);
      var t := TrimRight(s[..|s| - 1]);
      blank := rest + [s[|s| - 1]];
      assert t + blank == (t + rest) + [s[|s| - 1]] == s;
    }
  }

  // One to six marks, blanks, and a text that begins and ends in something else.
  ghost predicate LooksLikeHeading(s: string, n: nat, text: string) {
    && 1 <= n <= 6 && Trimmed(text)
    && exists before, after ::
         s == Marks(n) + before + text + after && before != [] && AllBlank(before) && AllBlank(after)
  }

  lemma HeadingReads(s: string, n: nat, text: string)
    ensures Read(s) == Heading(n, text) <==> LooksLikeHeading(s, n, text)
  {
    if LooksLikeHeading(s, n, text) { LookedLike(s, n, text); }
    if Read(s) == Heading(n, text) { ReadLooks(s, n, text); }
  }

  lemma LookedLike(s: string, n: nat, text: string)
    requires LooksLikeHeading(s, n, text)
    ensures Read(s) == Heading(n, text)
  {
    var before, after :| s == Marks(n) + before + text + after && before != [] && AllBlank(before) && AllBlank(after);
    var rest := before + (text + after);
    assert s == Marks(n) + rest && s[n..] == rest && s[0] == '#';
    assert rest[0] == before[0];
    HashesRead(n, rest);
    LeftTrims(before, text + after);
    RightTrims(text, after);
  }

  lemma ReadLooks(s: string, n: nat, text: string)
    requires Read(s) == Heading(n, text)
    ensures LooksLikeHeading(s, n, text)
  {
    HeadingParts(s, n);
    HashesMarks(s);
    var before, after := BodyTrimmed(s[n..]);
    HeadingJoined(s, n, before, text, after);
  }

  lemma HeadingJoined(s: string, n: nat, before: string, text: string, after: string)
    requires n <= |s| && s[..n] == Marks(n) && s[n..] == before + text + after
    ensures s == Marks(n) + before + text + after
  {
    assert s == s[..n] + s[n..];
    assert Marks(n) + (before + text + after) == Marks(n) + before + text + after;
  }

  lemma HeadingParts(s: string, n: nat)
    requires Read(s).Heading? && Read(s).level == n
    ensures 1 <= n <= 6 && Hashes(s) == n < |s| && Space(s[n]) && TrimLeft(s[n..]) != []
    ensures Read(s).text == TrimRight(TrimLeft(s[n..]))
  {
    MarkedParts(s, Hashes(s));
  }

  lemma MarkedParts(s: string, n: nat)
    requires ReadMarked(s, n).Heading?
    ensures 1 <= n <= 6 && n < |s| && Space(s[n]) && TrimLeft(s[n..]) != []
    ensures ReadMarked(s, n) == Heading(n, TrimRight(TrimLeft(s[n..])))
  {
  }

  lemma BodyTrimmed(body: string) returns (before: string, after: string)
    requires body != [] && Space(body[0]) && TrimLeft(body) != []
    ensures var text := TrimRight(TrimLeft(body));
      Trimmed(text) && body == before + text + after && before != [] && AllBlank(before) && AllBlank(after)
  {
    before := LeftTrimmed(body);
    var inner := TrimLeft(body);
    after := RightTrimmed(inner);
    var text := TrimRight(inner);
    assert before == [] ==> before + inner == inner;
    assert text == [] ==> text + after == after;
  }

  lemma FenceReads(s: string)
    ensures Read(s) == Fence <==> exists rest :: s == "```" + rest
  {
    if Read(s) == Fence { assert s == "```" + s[3..]; }
    if rest :| s == "```" + rest { assert s[..3] == "```"; }
  }

  function FenceLines(lines: seq<string>): set<nat> { set i: nat | i < |lines| && Read(lines[i]) == Fence }

  // A line is inside a fence exactly when an odd number of fence lines came before it.
  lemma {:induction false} OpenCounts(lines: seq<string>)
    ensures Open(lines) <==> |FenceLines(lines)| % 2 == 1
  {
    if lines != [] {
      OpenCounts(lines[..|lines| - 1]);
      FenceLinesGrow(lines);
    }
  }

  lemma FenceLinesGrow(lines: seq<string>)
    requires lines != []
    ensures var n := |lines| - 1;
      |FenceLines(lines)| == |FenceLines(lines[..n])| + if Read(lines[n]) == Fence then 1 else 0
  {
    var n := |lines| - 1;
    assert FenceLines(lines) == FenceLines(lines[..n]) + if Read(lines[n]) == Fence then {n} else {};
  }
}
