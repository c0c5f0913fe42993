// The fast-export rewriter (scripts/export_public_mirror.py): a byte-level loop that
// commutes with rewriting the records themselves.

module Mirror {
  import opened Prelude
  import opened Text

  datatype Kind = Commit | Tag | Blob | Other
  datatype Mode = Mode(kind: Kind, original: Option<string>)

  predicate StartsWith(s: string, p: string) { |p| <= |s| && s[..|p|] == p }

  // ---- identity lines: (author|committer|tagger) NAME <ADDRESS> TIME ZONE ----

  function Person(line: string): Option<string> {
    if StartsWith(line, "author ") then Some("author")
    else if StartsWith(line, "committer ") then Some("committer")
    else if StartsWith(line, "tagger ") then Some("tagger")
    else None
  }

  function LastClose(s: string): (i: int)
    ensures -1 <= i < |s| && (i >= 0 ==> s[i] == '>') && forall k :: i < k < |s| ==> s[k] != '>'
  {
    if s == [] then -1 else if s[|s| - 1] == '>' then |s| - 1 else LastClose(s[..|s| - 1])
  }

  // Digits, a blank, a sign and four digits.
  predicate IsStamp(s: string) {
    && |s| >= 7 && s[|s| - 6] == ' ' && (s[|s| - 5] == '+' || s[|s| - 5] == '-')
    && AllDigits(s[..|s| - 6]) && AllDigits(s[|s| - 4..])
  }

  // Some " <" after the keyword opens the address that the last '>' closes.
  predicate Opens(line: string, start: nat, close: nat) {
    exists k :: start <= k < |line| && OpensAt(line, k, close)
  }

  predicate OpensAt(line: string, k: nat, close: nat) {
    k + 1 < close <= |line| && line[k] == ' ' && line[k + 1] == '<' && forall m :: k + 2 <= m < close ==> line[m] != '>'
  }

  // The keyword and the stamp of an identity line, the parts that are kept.
  datatype Parts = Parts(person: string, stamp: string)

  function Identity(line: string): Option<Parts> { IdentityAt(line, Person(line), LastClose(line)) }

  function IdentityAt(line: string, p: Option<string>, g: int): Option<Parts> {
    if p.None? || g < 0 || g + 1 >= |line| || line[g + 1] != ' ' || !IsStamp(line[g + 2..])
       || !Opens(line, |p.value| + 1, g) then None
    else Some(Parts(p.value, line[g + 2..]))
  }

  // ---- one line ----

  function Enter(m: Mode, line: string): Mode {
    if StartsWith(line, "commit ") || line == "commit" then Mode(Commit, None)
    else if StartsWith(line, "tag ") then Mode(Tag, None)
    else if StartsWith(line, "blob") then Mode(Blob, None)
    else if StartsWith(line, "reset ") then Mode(Other, None)
    else m
  }

  const ORIGINAL := "original-oid "
  const DATA := "data "

  predicate Attributed(m: Mode, line: string) { (m.kind == Commit || m.kind == Tag) && Identity(line).Some? }

  // A header line as it is written out, and the mode after it.
  function HeaderOut(m: Mode, line: string, ident: string): string {
    var e := Enter(m, line);
    if StartsWith(line, ORIGINAL) then line
    else if Attributed(e, line) then Identity(line).value.person + " " + ident + " " + Identity(line).value.stamp
    else line
  }

  function ModeAfter(m: Mode, line: string): Mode {
    var e := Enter(m, line);
    if StartsWith(line, ORIGINAL) then e.(original := Some(line[|ORIGINAL|..])) else e
  }

  predicate Message(m: Mode) { m.kind == Commit && m.original.Some? }

  function WithTrailer(payload: string, original: string): string {
    (if |payload| > 0 && payload[|payload| - 1] == '\n' then payload else payload + "\n")
    + "\nSource-Commit: " + original + "\n"
  }

  function Block(payload: string): string { DATA + Decimal(|payload|) + "\n" + payload }

  // ---- the byte level ----

  function LineEnd(s: string): (j: nat)
    ensures j <= |s| && (j < |s| ==> s[j] == '\n') && forall k :: 0 <= k < j ==> s[k] != '\n'
  {
    if s == [] || s[0] == '\n' then 0 else 1 + LineEnd(s[1..])
  }

  function Cut(s: string, n: nat): string { if n <= |s| then s[..n] else s }
  function Rest(s: string, n: nat): string { if n <= |s| then s[n..] else [] }

  // One turn over the rest of the stream: what is written, how much is consumed, and the
  // mode after. Unreadable: a data line whose size is not a plain decimal numeral.
  datatype Turn = Unreadable | Wrote(piece: string, used: nat, next: Mode)

  function TurnOf(s: string, m: Mode, ident: string): (t: Turn)
    requires s != []
    ensures t.Wrote? ==> t.used > 0
  {
    var j := LineEnd(s);
    var line, e := s[..j], Enter(m, s[..j]);
    if StartsWith(line, ORIGINAL) || Attributed(e, line)
      then Wrote(HeaderOut(m, line, ident) + "\n", j + 1, ModeAfter(m, line))
    else if StartsWith(line, DATA) then BlockTurn(line, Rest(s, j + 1), e)
    else Wrote(if j < |s| then line + "\n" else line, j + 1, e)
  }

  function BlockTurn(line: string, rest: string, e: Mode): (t: Turn)
    requires StartsWith(line, DATA)
    ensures t.Wrote? ==> t.used > 0
  {
    var digits := line[|DATA|..];
    if !AllDigits(digits) || digits == [] then Unreadable
    else
      var payload := Cut(rest, Value(digits));
      if Message(e)
        then Wrote(Block(WithTrailer(payload, e.original.value)), |line| + 1 + Value(digits), Mode(e.kind, None))
      else Wrote(line + "\n" + payload, |line| + 1 + Value(digits), e)
  }

  function Rewritten(s: string, m: Mode, ident: string): Option<string>
    decreases |s|
  {
    if s == [] then Some("")
    else match TurnOf(s, m, ident)
      case Unreadable => None
      case Wrote(piece, used, next) => Before(piece, Rewritten(Rest(s, used), next, ident))
  }

  function Before(out: string, rest: Option<string>): Option<string> {
    match rest case None => None case Some(r) => Some(out + r)
  }

  lemma BeforeConcat(a: string, b: string, rest: Option<string>)
    ensures Before(a + b, rest) == Before(a, Before(b, rest))
    ensures Before("", rest) == rest
  {
    if rest.Some? { assert a + b + rest.value == a + (b + rest.value) && "" + rest.value == rest.value; }
  }

  const START: Mode := Mode(Other, None)

  method EnterRecord(line: string, given: Kind, held: Option<string>) returns (kind: Kind, original: Option<string>)
    ensures Mode(kind, original) == Enter(Mode(given, held), line)
  {
    kind, original := given, held;
    if StartsWith(line, "commit ") || line == "commit" {
      kind, original := Commit, None;
    } else if StartsWith(line, "tag ") {
      kind, original := Tag, None;
    } else if StartsWith(line, "blob") {
      kind, original := Blob, None;
    } else if StartsWith(line, "reset ") {
      kind, original := Other, None;
    }
  }

  // One data block, its line already read.
  method RewriteBlock(line: string, rest: string, kind: Kind, original: Option<string>) returns (t: Turn)
    requires StartsWith(line, DATA)
    ensures t == BlockTurn(line, rest, Mode(kind, original))
  {
    if !AllDigits(line[|DATA|..]) || line[|DATA|..] == [] {
      return Unreadable;
    }
    var size := Value(line[|DATA|..]);
    var payload := Cut(rest, size);
    if kind == Commit && original.Some? {
      var msg := if |payload| > 0 && payload[|payload| - 1] == '\n' then payload else payload + "\n";
      var trailed := msg + ("\nSource-Commit: " + original.value + "\n");
      assert trailed == WithTrailer(payload, original.value);
      return Wrote(DATA + Decimal(|trailed|) + "\n" + trailed, |line| + 1 + size, Mode(kind, None));
    }
    t := Wrote(line + "\n" + payload, |line| + 1 + size, Mode(kind, original));
  }

  method RewriteLine(s: string, m: Mode, ident: string) returns (t: Turn)
    requires s != []
    ensures t == TurnOf(s, m, ident)
  {
    var j := LineEnd(s);
    var line := s[..j];
    var kind, original := EnterRecord(line, m.kind, m.original);
    if StartsWith(line, ORIGINAL) {
      return Wrote(line + "\n", j + 1, Mode(kind, Some(line[|ORIGINAL|..])));
    }
    if (kind == Commit || kind == Tag) && Identity(line).Some? {
      var parts := Identity(line).value;
      return Wrote(parts.person + " " + ident + " " + parts.stamp + "\n", j + 1, Mode(kind, original));
    }
    if StartsWith(line, DATA) {
      t := RewriteBlock(line, Rest(s, j + 1), kind, original);
      return;
    }
    t := Wrote(if j < |s| then line + "\n" else line, j + 1, Mode(kind, original));
  }

  method RewriteStream(stream: string, ident: string) returns (r: Option<string>)
    ensures r == Rewritten(stream, START, ident)
  {
    var out: string := [];
    var i, n := 0, |stream|;
    var mode := START;
    NoneTaken(stream, START, ident);
    while i < n
      invariant 0 <= i
      invariant Before(out, Rewritten(Rest(stream, i), mode, ident)) == Rewritten(stream, START, ident)
      decreases n - i
    {
      var t := RewriteTurn(stream[i..], mode, ident);
      TurnTaken(stream, i, mode, ident, out, t);
      if t.Unreadable? {
        return None;
      }
      out, i, mode := out + t.piece, i + t.used, t.next;
    }
    AllTaken(stream, i, mode, ident, out);
    r := Some(out);
  }

  lemma NoneTaken(stream: string, m: Mode, ident: string)
    ensures Before("", Rewritten(Rest(stream, 0), m, ident)) == Rewritten(stream, m, ident)
  {
    BeforeConcat("", "", Rewritten(stream, m, ident));
  }

  lemma AllTaken(stream: string, i: nat, m: Mode, ident: string, out: string)
    requires i >= |stream|
    ensures Before(out, Rewritten(Rest(stream, i), m, ident)) == Some(out)
  {
    assert Rest(stream, i) == "" && out + "" == out;
  }

  // What the rewrite of the rest is, once a turn has been taken at its start.
  function Continued(s: string, t: Turn, ident: string): Option<string> {
    match t
    case Unreadable => None
    case Wrote(piece, used, next) => Before(piece, Rewritten(Rest(s, used), next, ident))
  }

  lemma RewrittenTurns(s: string, m: Mode, ident: string)
    requires s != []
    ensures Rewritten(s, m, ident) == Continued(s, TurnOf(s, m, ident), ident)
  {
  }

  method RewriteTurn(s: string, m: Mode, ident: string) returns (t: Turn)
    requires s != []
    ensures t.Wrote? ==> t.used > 0
    ensures Rewritten(s, m, ident) == Continued(s, t, ident)
  {
    t := RewriteLine(s, m, ident);
    RewrittenTurns(s, m, ident);
  }

  // One turn moves its piece from what is to be rewritten to what has been.
  lemma TurnTaken(stream: string, i: nat, m: Mode, ident: string, out: string, t: Turn)
    requires i < |stream| && Rewritten(stream[i..], m, ident) == Continued(stream[i..], t, ident)
    ensures var before := Before(out, Rewritten(Rest(stream, i), m, ident));
      if t.Unreadable? then before == None
      else Before(out + t.piece, Rewritten(Rest(stream, i + t.used), t.next, ident)) == before
  {
    assert Rest(stream, i) == stream[i..];
    if t.Wrote? {
      RestTwice(stream, i, t.used);
      BeforeConcat(out, t.piece, Rewritten(Rest(stream, i + t.used), t.next, ident));
    }
  }

  lemma RestTwice(s: string, a: nat, b: nat)
    ensures Rest(Rest(s, a), b) == Rest(s, a + b)
  {
  }

  // ---- the record level ----

  datatype Record = Header(line: string) | Data(payload: string)

  predicate IsHeader(line: string) { '\n' !in line && !StartsWith(line, DATA) }

  function PrintOne(r: Record): string {
    match r case Header(line) => line + "\n" case Data(payload) => Block(payload)
  }

  function Print(rs: seq<Record>): string { if rs == [] then "" else PrintOne(rs[0]) + Print(rs[1..]) }

  function ReadMode(m: Mode, r: Record): Mode {
    match r
    case Header(line) => ModeAfter(m, line)
    case Data(_) => if Message(m) then m.(original := None) else m
  }

  function RewriteOne(m: Mode, r: Record, ident: string): Record {
    match r
    case Header(line) => Header(HeaderOut(m, line, ident))
    case Data(payload) => if Message(m) then Data(WithTrailer(payload, m.original.value)) else r
  }

  function RewriteRecords(rs: seq<Record>, m: Mode, ident: string): (out: seq<Record>)
    ensures |out| == |rs|
  {
    if rs == [] then [] else [RewriteOne(m, rs[0], ident)] + RewriteRecords(rs[1..], ReadMode(m, rs[0]), ident)
  }

  predicate WellFormed(rs: seq<Record>) { forall i :: 0 <= i < |rs| && rs[i].Header? ==> IsHeader(rs[i].line) }

  lemma {:induction false} LineEndOf(line: string, rest: string)
    requires '\n' !in line
    ensures LineEnd(line + "\n" + rest) == |line|
  {
    if line != [] {
      assert (line + "\n" + rest)[1..] == line[1..] + "\n" + rest;
      LineEndOf(line[1..], rest);
    }
  }

  lemma FirstLine(line: string, rest: string)
    requires '\n' !in line
    ensures var s := line + "\n" + rest;
            LineEnd(s) == |line| < |s| && s[..|line|] == line && Rest(s, |line| + 1) == rest
  {
    LineEndOf(line, rest);
  }

  lemma HeaderStep(line: string, rest: string, m: Mode, ident: string)
    requires IsHeader(line)
    ensures var s := line + "\n" + rest;
      TurnOf(s, m, ident) == Wrote(HeaderOut(m, line, ident) + "\n", |line| + 1, ModeAfter(m, line))
      && Rest(s, |line| + 1) == rest
  {
    FirstLine(line, rest);
  }

  lemma {:induction false} DigitsHaveNoBreak(d: string)
    requires AllDigits(d)
    ensures '\n' !in d
  {
  }

  lemma DataLine(n: nat)
    ensures var line := DATA + Decimal(n);
      && '\n' !in line && StartsWith(line, DATA) && line[|DATA|..] == Decimal(n)
      && AllDigits(Decimal(n)) && Decimal(n) != [] && Value(Decimal(n)) == n
  {
    DecimalRoundTrip(n);
    DigitsHaveNoBreak(Decimal(n));
  }

  lemma DataKeepsMode(d: string, m: Mode)
    ensures Enter(m, DATA + d) == m && Identity(DATA + d).None? && !StartsWith(DATA + d, ORIGINAL)
  {
    assert (DATA + d)[0] == 'd';
  }

  lemma DataStep(payload: string, rest: string, m: Mode, ident: string)
    ensures var s, used := Block(payload) + rest, |Block(payload)|;
      && TurnOf(s, m, ident) == Wrote(PrintOne(RewriteOne(m, Data(payload), ident)), used, ReadMode(m, Data(payload)))
      && Rest(s, used) == rest
  {
    var line := DATA + Decimal(|payload|);
    DataLine(|payload|);
    DataKeepsMode(Decimal(|payload|), m);
    var s := Block(payload) + rest;
    assert s == line + "\n" + (payload + rest);
    FirstLine(line, payload + rest);
    assert Cut(payload + rest, |payload|) == payload;
  }

  // Rewriting the printed stream equals printing the rewritten records: payload bytes are
  // never interpreted, whatever they look like.
  lemma {:induction false} RewriteCommutes(rs: seq<Record>, m: Mode, ident: string)
    requires WellFormed(rs)
    ensures Rewritten(Print(rs), m, ident) == Some(Print(RewriteRecords(rs, m, ident)))
  {
    if rs != [] {
      var r, rest := rs[0], rs[1..];
      RewriteCommutes(rest, ReadMode(m, r), ident);
      match r {
        case Header(line) => HeaderStep(line, Print(rest), m, ident);
        case Data(payload) => DataStep(payload, Print(rest), m, ident);
      }
      assert RewriteRecords(rs, m, ident)[1..] == RewriteRecords(rest, ReadMode(m, r), ident);
    }
  }

  // ---- what the record-level rewrite does ----

  function ModeAt(rs: seq<Record>, m: Mode, k: nat): Mode
    requires k <= |rs|
  {
    if k == 0 then m else ModeAt(rs[1..], ReadMode(m, rs[0]), k - 1)
  }

  lemma {:induction false} RecordAt(rs: seq<Record>, m: Mode, ident: string, k: nat)
    requires k < |rs|
    ensures RewriteRecords(rs, m, ident)[k] == RewriteOne(ModeAt(rs, m, k), rs[k], ident)
  {
    FirstRecord(rs, m, ident);
    if k > 0 {
      RecordAt(rs[1..], ReadMode(m, rs[0]), ident, k - 1);
      LaterMode(rs, m, k);
    }
  }

  lemma FirstRecord(rs: seq<Record>, m: Mode, ident: string)
    requires rs != []
    ensures RewriteRecords(rs, m, ident) ==
            [RewriteOne(m, rs[0], ident)] + RewriteRecords(rs[1..], ReadMode(m, rs[0]), ident)
  {
  }

  lemma LaterMode(rs: seq<Record>, m: Mode, k: nat)
    requires 0 < k <= |rs|
    ensures ModeAt(rs, m, k) == ModeAt(rs[1..], ReadMode(m, rs[0]), k - 1)
  {
  }

  // Only the first block after a commit's original-oid line is touched, and then only to
  // carry the trailer; every other payload is the same bytes.
  lemma PayloadsKept(rs: seq<Record>, ident: string, k: nat)
    requires k < |rs| && rs[k].Data?
    ensures var r := RewriteRecords(rs, START, ident)[k]; var m := ModeAt(rs, START, k);
      && r.Data? && (!Message(m) ==> r == rs[k])
      && (Message(m) ==>
          && |r.payload| >= |rs[k].payload| && r.payload[..|rs[k].payload|] == rs[k].payload
          && r.payload == WithTrailer(rs[k].payload, m.original.value)
          && ModeAt(rs, START, k + 1) == Mode(Commit, None))
  {
    RecordAt(rs, START, ident, k);
    ModeNext(rs, START, k);
  }

  lemma {:induction false} ModeNext(rs: seq<Record>, m: Mode, k: nat)
    requires k < |rs|
    ensures ModeAt(rs, m, k + 1) == ReadMode(ModeAt(rs, m, k), rs[k])
  {
    if k > 0 { ModeNext(rs[1..], ReadMode(m, rs[0]), k - 1); }
  }

  // No identity line of a commit or tag keeps its name or address.
  lemma IdentitiesReplaced(rs: seq<Record>, ident: string, k: nat)
    requires k < |rs| && rs[k].Header? && !StartsWith(rs[k].line, ORIGINAL)
    ensures var r := RewriteRecords(rs, START, ident)[k]; var e := Enter(ModeAt(rs, START, k), rs[k].line);
      && r.Header?
      && (Attributed(e, rs[k].line) ==>
          r.line == Identity(rs[k].line).value.person + " " + ident + " " + Identity(rs[k].line).value.stamp)
      && (!Attributed(e, rs[k].line) ==> r == rs[k])
  {
    RecordAt(rs, START, ident, k);
  }

  // ---- the same, on the text of the records ----

  predicate OpensCommit(line: string) { line == "commit" || StartsWith(line, "commit ") }

  predicate OpensTag(line: string) { StartsWith(line, "tag ") }

  // A line that begins a record of any kind.
  predicate OpensRecord(line: string) {
    OpensCommit(line) || OpensTag(line) || StartsWith(line, "blob") || StartsWith(line, "reset ")
  }

  // The last header to open a record, at or before k, is the one at j.
  ghost predicate Under(rs: seq<Record>, j: nat, k: nat)
    requires k < |rs|
  {
    && j <= k && rs[j].Header? && OpensRecord(rs[j].line)
    && forall i :: j < i <= k && rs[i].Header? ==> !OpensRecord(rs[i].line)
  }

  // Nothing at or before k opens a record.
  ghost predicate UnderNothing(rs: seq<Record>, k: nat)
    requires k < |rs|
  {
    forall i :: 0 <= i <= k && rs[i].Header? ==> !OpensRecord(rs[i].line)
  }

  predicate IsKeyword(word: string) { word == "author" || word == "committer" || word == "tagger" }

  predicate IsSeconds(s: string) { s != [] && AllDigits(s) }

  predicate IsZone(s: string) { |s| == 5 && (s[0] == '+' || s[0] == '-') && AllDigits(s[1..]) }

  // word name <address> seconds zone; the name is any text.
  predicate Reads(line: string, word: string, name: string, address: string, seconds: string, zone: string) {
    && IsKeyword(word) && '>' !in address && IsSeconds(seconds) && IsZone(zone)
    && line == word + " " + name + " <" + address + "> " + seconds + " " + zone
  }

  // The keyword and the stamp are read off such a line, wherever else '<' and '>' stand.
  lemma ReadsIsIdentity(line: string, word: string, name: string, address: string, seconds: string, zone: string)
    requires Reads(line, word, name, address, seconds, zone)
    ensures Identity(line) == Some(Parts(word, seconds + " " + zone))
  {
    Rejoined(line, word, name, address, seconds, zone);
    AddressOpens(line, word, name, address, seconds + " " + zone);
    ReadAround(line, word, name + " <" + address + "> " + (seconds + " " + zone), word + " " + name + " <" + address,
               seconds, zone);
  }

  lemma ReadAround(line: string, word: string, rest: string, head: string, seconds: string, zone: string)
    requires IsKeyword(word) && IsSeconds(seconds) && IsZone(zone) && line == word + " " + rest
    requires line == head + ">" + (" " + (seconds + " " + zone)) && Opens(line, |word| + 1, |head|)
    ensures Identity(line) == Some(Parts(word, seconds + " " + zone))
  {
    var stamp := seconds + " " + zone;
    KeywordRead(line, word, rest);
    StampRead(seconds, zone);
    StampHasNoClose(seconds, zone);
    ClosedBy(line, word, head, stamp);
  }

  lemma ClosedBy(line: string, word: string, head: string, stamp: string)
    requires Person(line) == Some(word) && IsStamp(stamp) && '>' !in " " + stamp
    requires line == head + ">" + (" " + stamp) && Opens(line, |word| + 1, |head|)
    ensures Identity(line) == Some(Parts(word, stamp))
  {
    LastCloseAt(line, head, " " + stamp);
    TailRead(line, head, stamp);
    IdentityFrom(line, word, |head|);
  }

  lemma IdentityFrom(line: string, word: string, close: nat)
    requires Person(line) == Some(word) && LastClose(line) == close && close + 1 < |line| && line[close + 1] == ' '
    requires IsStamp(line[close + 2..]) && Opens(line, |word| + 1, close)
    ensures Identity(line) == Some(Parts(word, line[close + 2..]))
  {
    PartsAt(line, word, close);
  }

  lemma PartsAt(line: string, word: string, close: nat)
    requires close + 1 < |line| && line[close + 1] == ' ' && IsStamp(line[close + 2..])
    requires Opens(line, |word| + 1, close)
    ensures IdentityAt(line, Some(word), close) == Some(Parts(word, line[close + 2..]))
  {
  }

  lemma Rejoined(line: string, word: string, name: string, address: string, seconds: string, zone: string)
    requires line == word + " " + name + " <" + address + "> " + seconds + " " + zone
    ensures var stamp := seconds + " " + zone;
      && line == word + " " + (name + " <" + address + "> " + stamp)
      && line == (word + " " + name + " <" + address) + ">" + (" " + stamp)
      && line == word + " " + name + " <" + address + "> " + stamp
      && |word + " " + name + " <" + address| == |word| + |name| + |address| + 3
  {
    var stamp, before := seconds + " " + zone, word + " " + name + " <" + address + "> ";
    assert before + seconds + " " + zone == before + stamp;
  }

  lemma TailRead(line: string, head: string, stamp: string)
    requires line == head + ">" + (" " + stamp)
    ensures |head| + 1 < |line| && line[|head| + 1] == ' ' && line[|head| + 2..] == stamp
  {
  }

  lemma KeywordRead(line: string, word: string, rest: string)
    requires IsKeyword(word) && line == word + " " + rest
    ensures Person(line) == Some(word)
  {
    assert line[..|word| + 1] == word + " ";
    assert line[0] == word[0];
  }

  lemma StampHasNoClose(seconds: string, zone: string)
    requires IsSeconds(seconds) && IsZone(zone)
    ensures '>' !in " " + (seconds + " " + zone)
  {
    var s := " " + (seconds + " " + zone);
    forall i | 0 <= i < |s| ensures s[i] != '>' {
      if 1 <= i < |seconds| + 1 {
        assert s[i] == seconds[i - 1];
      } else if i >= |seconds| + 2 {
        assert s[i] == zone[i - |seconds| - 2];
        if i > |seconds| + 2 { assert zone[i - |seconds| - 2] == zone[1..][i - |seconds| - 3]; }
      }
    }
  }

  lemma {:induction false} LastCloseAt(s: string, head: string, tail: string)
    requires s == head + ">" + tail && '>' !in tail
    ensures LastClose(s) == |head|
  {
    assert s[|head|] == '>';
    assert forall m :: |head| < m < |s| ==> s[m] == tail[m - |head| - 1];
  }

  lemma StampRead(seconds: string, zone: string)
    requires IsSeconds(seconds) && IsZone(zone)
    ensures IsStamp(seconds + " " + zone)
  {
    var s := seconds + " " + zone;
    assert s[..|s| - 6] == seconds && s[|s| - 5] == zone[0] && s[|s| - 4..] == zone[1..];
  }

  lemma AddressOpens(line: string, word: string, name: string, address: string, stamp: string)
    requires line == word + " " + name + " <" + address + "> " + stamp && '>' !in address
    ensures Opens(line, |word| + 1, |word| + |name| + |address| + 3)
  {
    var k, close := |word| + 1 + |name|, |word| + |name| + |address| + 3;
    forall m | k + 2 <= m < close ensures line[m] != '>' { assert line[m] == address[m - k - 2]; }
    assert OpensAt(line, k, close);
  }

  // And only such a line is one.
  lemma IdentityReads(line: string)
    returns (word: string, name: string, address: string, seconds: string, zone: string)
    requires Identity(line).Some?
    ensures Reads(line, word, name, address, seconds, zone)
  {
    var k, g;
    word, k, g := IdentityMarks(line);
    name, address := line[|word| + 1..k], line[k + 2..g];
    seconds, zone := StampParts(line[g + 2..]);
    PiecesJoin(line, word, k, g);
    Reassociated(line, word, name, address, seconds, zone, line[g + 2..]);
    AddressClosed(line, k, g);
  }

  // Where the name ends and the address closes.
  lemma IdentityMarks(line: string) returns (word: string, k: nat, g: nat)
    requires Identity(line).Some?
    ensures IsKeyword(word) && |word| + 1 <= k && OpensAt(line, k, g) && line[..|word| + 1] == word + " "
    ensures g + 1 < |line| && line[g] == '>' && line[g + 1] == ' ' && IsStamp(line[g + 2..])
  {
    word, g := Person(line).value, LastClose(line);
    k :| |word| + 1 <= k < |line| && OpensAt(line, k, g);
    PersonReads(line);
  }

  lemma PersonReads(line: string)
    requires Person(line).Some?
    ensures var word := Person(line).value;
      IsKeyword(word) && |word| + 1 <= |line| && line[..|word| + 1] == word + " "
  {
  }

  lemma AddressClosed(line: string, k: nat, g: nat)
    requires OpensAt(line, k, g)
    ensures '>' !in line[k + 2..g]
  {
    var address := line[k + 2..g];
    forall i | 0 <= i < |address| ensures address[i] != '>' { assert address[i] == line[k + 2 + i]; }
  }

  lemma StampParts(stamp: string) returns (seconds: string, zone: string)
    requires IsStamp(stamp)
    ensures IsSeconds(seconds) && IsZone(zone) && stamp == seconds + " " + zone
  {
    seconds, zone := stamp[..|stamp| - 6], stamp[|stamp| - 5..];
    assert zone[1..] == stamp[|stamp| - 4..];
  }

  lemma PiecesJoin(line: string, word: string, k: nat, g: nat)
    requires |word| + 1 <= k && k + 2 <= g && g + 1 < |line| && line[..|word| + 1] == word + " "
    requires line[k] == ' ' && line[k + 1] == '<' && line[g] == '>' && line[g + 1] == ' '
    ensures line == word + " " + line[|word| + 1..k] + " <" + line[k + 2..g] + "> " + line[g + 2..]
  {
    assert line[k..k + 2] == " <" && line[g..g + 2] == "> ";
    assert line == line[..|word| + 1] + line[|word| + 1..k] + line[k..k + 2] + line[k + 2..g] + line[g..g + 2]
                   + line[g + 2..];
  }

  lemma Reassociated(line: string, word: string, name: string, address: string, seconds: string, zone: string,
                     stamp: string)
    requires line == word + " " + name + " <" + address + "> " + stamp && stamp == seconds + " " + zone
    ensures line == word + " " + name + " <" + address + "> " + seconds + " " + zone
  {
    var head := word + " " + name + " <" + address + "> ";
    assert head + (seconds + " " + zone) == head + seconds + " " + zone;
  }

  lemma OpenersDiffer(line: string)
    ensures OpensCommit(line) ==> !OpensTag(line) && !StartsWith(line, "blob") && !StartsWith(line, "reset ")
    ensures OpensTag(line) ==> !StartsWith(line, "blob") && !StartsWith(line, "reset ")
    ensures OpensRecord(line) ==> !StartsWith(line, ORIGINAL) && Person(line) == None
  {
    CharAt(line, "commit ", 0);
    CharAt(line, "commit ", 6);
    CharAt(line, "committer ", 0);
    CharAt(line, "committer ", 6);
    CharAt(line, "tag ", 0);
    CharAt(line, "tag ", 3);
    CharAt(line, "tagger ", 0);
    CharAt(line, "tagger ", 3);
    CharAt(line, "author ", 0);
    CharAt(line, "blob", 0);
    CharAt(line, "reset ", 0);
    CharAt(line, ORIGINAL, 0);
  }

  lemma CharAt(line: string, p: string, i: nat)
    requires i < |p|
    ensures StartsWith(line, p) ==> i < |line| && line[i] == p[i]
  {
    if StartsWith(line, p) { assert line[..|p|][i] == p[i]; }
  }

  function KindOpened(line: string): Kind {
    if OpensCommit(line) then Commit
    else if OpensTag(line) then Tag
    else if StartsWith(line, "blob") then Blob
    else Other
  }

  // The mode a header is read in is that of the record it stands in.
  lemma {:induction false} KindUnder(rs: seq<Record>, j: nat, k: nat)
    requires k < |rs| && Under(rs, j, k)
    ensures ModeAt(rs, START, k + 1).kind == KindOpened(rs[j].line)
    decreases k
  {
    ModeNext(rs, START, k);
    OpenersDiffer(rs[j].line);
    if j < k { KindUnder(rs, j, k - 1); }
  }

  lemma {:induction false} KindUnderNothing(rs: seq<Record>, k: nat)
    requires k < |rs| && UnderNothing(rs, k)
    ensures ModeAt(rs, START, k + 1).kind == Other
    decreases k
  {
    ModeNext(rs, START, k);
    if k > 0 { KindUnderNothing(rs, k - 1); }
  }

  lemma {:induction false} UnderSomething(rs: seq<Record>, k: nat) returns (j: nat)
    requires k < |rs| && !UnderNothing(rs, k)
    ensures Under(rs, j, k)
    decreases k
  {
    if rs[k].Header? && OpensRecord(rs[k].line) {
      j := k;
    } else {
      j := UnderSomething(rs, k - 1);
    }
  }

  lemma EnteredKind(rs: seq<Record>, k: nat)
    requires k < |rs| && rs[k].Header?
    ensures Enter(ModeAt(rs, START, k), rs[k].line).kind == ModeAt(rs, START, k + 1).kind
  {
    ModeNext(rs, START, k);
  }

  // k is a header of a commit or a tag.
  ghost predicate InCommitOrTag(rs: seq<Record>, k: nat)
    requires k < |rs|
  {
    exists j: nat :: Under(rs, j, k) && (OpensCommit(rs[j].line) || OpensTag(rs[j].line))
  }

  lemma KindIsText(rs: seq<Record>, k: nat)
    requires k < |rs|
    ensures var kind := ModeAt(rs, START, k + 1).kind; (kind == Commit || kind == Tag) <==> InCommitOrTag(rs, k)
  {
    if UnderNothing(rs, k) {
      KindUnderNothing(rs, k);
    } else {
      var j := UnderSomething(rs, k);
      KindUnder(rs, j, k);
      forall i: nat | Under(rs, i, k) ensures i == j {}
    }
  }

  // In a commit or a tag every line that names a person comes out under the public identity,
  // with its own keyword and stamp.
  lemma PeopleReplaced(rs: seq<Record>, ident: string, k: nat,
                       word: string, name: string, address: string, seconds: string, zone: string)
    requires k < |rs| && rs[k].Header? && InCommitOrTag(rs, k)
    requires Reads(rs[k].line, word, name, address, seconds, zone)
    ensures RewriteRecords(rs, START, ident)[k] == Header(word + " " + ident + " " + seconds + " " + zone)
  {
    RecordAt(rs, START, ident, k);
    KindIsText(rs, k);
    EnteredKind(rs, k);
    ReadsIsIdentity(rs[k].line, word, name, address, seconds, zone);
    NotOriginal(rs[k].line, word, name, address, seconds, zone);
    assert word + " " + ident + " " + (seconds + " " + zone) == word + " " + ident + " " + seconds + " " + zone;
  }

  lemma NotOriginal(line: string, word: string, name: string, address: string, seconds: string, zone: string)
    requires Reads(line, word, name, address, seconds, zone)
    ensures !StartsWith(line, ORIGINAL)
  {
    assert line[0] == word[0];
  }

  // Every other header comes out as it was.
  lemma OtherHeadersKept(rs: seq<Record>, ident: string, k: nat)
    requires k < |rs| && rs[k].Header?
    requires !InCommitOrTag(rs, k)
             || forall word, name, address, seconds, zone :: !Reads(rs[k].line, word, name, address, seconds, zone)
    ensures RewriteRecords(rs, START, ident)[k] == rs[k]
  {
    RecordAt(rs, START, ident, k);
    KindIsText(rs, k);
    EnteredKind(rs, k);
    if Identity(rs[k].line).Some? {
      var word, name, address, seconds, zone := IdentityReads(rs[k].line);
    }
  }

  // ---- messages ----

  // The header at o names the original of the commit opened at j, and no message lies
  // between o and k.
  ghost predicate MessageOf(rs: seq<Record>, j: nat, o: nat, k: nat)
    requires k < |rs|
  {
    && Under(rs, j, k) && OpensCommit(rs[j].line) && j < o < k && rs[o].Header? && StartsWith(rs[o].line, ORIGINAL)
    && forall i :: o < i < k ==> rs[i].Header? && !StartsWith(rs[i].line, ORIGINAL)
  }

  // The original the mode holds is the last one named in this record, unless a message has
  // come since.
  ghost predicate NamedAt(rs: seq<Record>, o: nat, k: nat)
    requires k < |rs|
  {
    && o <= k && rs[o].Header? && StartsWith(rs[o].line, ORIGINAL)
    && forall i :: o < i <= k ==> rs[i].Header? && !StartsWith(rs[i].line, ORIGINAL) && !OpensRecord(rs[i].line)
  }

  lemma {:induction false} OriginalHeld(rs: seq<Record>, o: nat, k: nat)
    requires k < |rs| && NamedAt(rs, o, k)
    ensures ModeAt(rs, START, k + 1).original == Some(rs[o].line[|ORIGINAL|..])
    decreases k
  {
    ModeNext(rs, START, k);
    if o < k { OriginalHeld(rs, o, k - 1); }
  }

  lemma {:induction false} HeldWasNamed(rs: seq<Record>, k: nat) returns (o: nat)
    requires k < |rs| && Message(ModeAt(rs, START, k + 1))
    ensures NamedAt(rs, o, k)
    decreases k
  {
    ModeNext(rs, START, k);
    if rs[k].Header? && StartsWith(rs[k].line, ORIGINAL) {
      o := k;
    } else {
      KindStays(rs, k);
      o := HeldWasNamed(rs, k - 1);
    }
  }

  lemma KindStays(rs: seq<Record>, k: nat)
    requires k < |rs| && Message(ModeAt(rs, START, k + 1)) && !(rs[k].Header? && StartsWith(rs[k].line, ORIGINAL))
    ensures k > 0 && rs[k].Header? && !OpensRecord(rs[k].line) && Message(ModeAt(rs, START, k))
  {
    ModeNext(rs, START, k);
  }

  // A block right after a commit has named its original carries the trailer with that name;
  // a line break is supplied where the message lacks one.
  lemma MessagesMarked(rs: seq<Record>, ident: string, j: nat, o: nat, k: nat)
    requires k < |rs| && rs[k].Data? && MessageOf(rs, j, o, k)
    ensures RewriteRecords(rs, START, ident)[k] ==
            Data(Broken(rs[k].payload) + "\nSource-Commit: " + rs[o].line[|ORIGINAL|..] + "\n")
  {
    RecordAt(rs, START, ident, k);
    assert NamedAt(rs, o, k - 1);
    OriginalHeld(rs, o, k - 1);
    assert Under(rs, j, k - 1);
    KindUnder(rs, j, k - 1);
  }

  function Broken(payload: string): string {
    if payload != [] && payload[|payload| - 1] == '\n' then payload else payload + "\n"
  }

  // Every other block is the same bytes.
  lemma OtherBlocksKept(rs: seq<Record>, ident: string, k: nat)
    requires k < |rs| && rs[k].Data? && forall j, o :: !MessageOf(rs, j, o, k)
    ensures RewriteRecords(rs, START, ident)[k] == rs[k]
  {
    RecordAt(rs, START, ident, k);
    if k > 0 && Message(ModeAt(rs, START, k)) {
      var o := HeldWasNamed(rs, k - 1);
      var j := CommitBefore(rs, o, k);
      assert MessageOf(rs, j, o, k);
    }
  }

  lemma CommitBefore(rs: seq<Record>, o: nat, k: nat) returns (j: nat)
    requires 0 < k < |rs| && rs[k].Data? && NamedAt(rs, o, k - 1) && Message(ModeAt(rs, START, k))
    ensures Under(rs, j, k) && OpensCommit(rs[j].line) && j < o
  {
    if UnderNothing(rs, k - 1) { KindUnderNothing(rs, k - 1); }
    j := UnderSomething(rs, k - 1);
    KindUnder(rs, j, k - 1);
    OpenersDiffer(rs[j].line);
    OpenersDiffer(rs[o].line);
  }
}
