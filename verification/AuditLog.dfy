/** The hash-chained audit log: appending, finding the last link, verifying. */
module AuditLog {
  import opened Text

  type Byte = b: nat | b < 256

  const NEWLINE: Byte := 10
  const RETURN: Byte := 13
  const GENESIS := "0000000000000000000000000000000000000000000000000000000000000000"

  /** Everything in an event that is neither its position nor its links. */
  datatype Body = Body(
    eventId: string, timestamp: string, runId: Option<string>, taskId: Option<string>,
    stepId: Option<string>, actor: string, event: string, data: string, signature: Option<string>)

  datatype Event = Event(seqNo: nat, body: Body, previous: string, hash: string)

  /** What the hash covers: the event without its own hash. */
  datatype Unhashed = Unhashed(seqNo: nat, body: Body, previous: string)

  /**
   * The parts of the system below this model: the digest of a canonical event, reading and writing
   * one event as one line, and the tests for a line of UTF-8 and for a line of white space.
   */
  datatype Codec = Codec(
    digest: Unhashed -> string,
    parse: seq<Byte> -> Option<Event>,
    show: Event -> seq<Byte>,
    text: seq<Byte> -> bool,
    blank: seq<Byte> -> bool)
  {
    /** An event written straight after text that was not ended by a newline. */
    ghost function Glued(l: seq<Byte>, e: Event): seq<Byte> {
      l + show(e)
    }

    /** The digest has no collisions; events survive being written as one line of text. */
    ghost predicate Valid() {
      && (forall a, b :: digest(a) == digest(b) ==> a == b)
      && (forall a :: digest(a) != "")
      && (forall e :: parse(show(e)) == Some(e) && text(show(e)))
      && (forall e :: NEWLINE !in show(e) && show(e) != [] && show(e)[|show(e)| - 1] != RETURN)
      && (forall l :: blank(l) ==> text(l) && parse(l) == None)
      && blank([])
      && (forall l {:trigger Chomp(l)} ::
            parse(Chomp(l)) == parse(l) && (text(Chomp(l)) <==> text(l)) && (blank(Chomp(l)) <==> blank(l)))
      && (forall l, e {:trigger Glued(l, e)} ::
            (blank(Glued(l, e)) ==> blank(l)) && (parse(l).Some? ==> parse(Glued(l, e)) == None))
    }
  }

  function ComputeHash(c: Codec, e: Event): string {
    c.digest(Unhashed(e.seqNo, e.body, e.previous))
  }

  // -------------------------------------------------------------------- lines

  function IndexOf(s: seq<Byte>, from: nat): (k: nat)
    requires from <= |s|
    ensures from <= k <= |s|
    ensures forall i :: from <= i < k ==> s[i] != NEWLINE
    ensures k < |s| ==> s[k] == NEWLINE
    decreases |s| - from
  {
    if from == |s| || s[from] == NEWLINE then from else IndexOf(s, from + 1)
  }

  function Chomp(line: seq<Byte>): seq<Byte> {
    if line != [] && line[|line| - 1] == RETURN then line[..|line| - 1] else line
  }

  /** Lines as the reader yields them: terminators removed, a last line without one kept as it is. */
  function Lines(s: seq<Byte>): seq<seq<Byte>>
    decreases |s|
  {
    if s == [] then []
    else
      var k := IndexOf(s, 0);
      if k < |s| then [Chomp(s[..k])] + Lines(s[k + 1..]) else [s]
  }

  // ------------------------------------------------------------- verification

  datatype Problem =
    | Unparseable(line: nat)
    | SequenceGap(line: nat, expected: nat, found: nat)
    | BrokenLink(line: nat)
    | HashMismatch(line: nat)

  datatype Report = Report(events: nat, ok: bool, chained: bool, problems: seq<Problem>)

  datatype Checker = Checker(prev: string, expected: nat, events: nat, chained: bool, problems: seq<Problem>)

  const UNCHECKED := Checker(GENESIS, 0, 0, true, [])

  function EventProblems(c: Codec, e: Event, no: nat, st: Checker): seq<Problem> {
    (if e.seqNo != st.expected then [SequenceGap(no, st.expected, e.seqNo)] else [])
    + (if e.previous != st.prev then [BrokenLink(no)] else [])
    + (if ComputeHash(c, e) != e.hash then [HashMismatch(no)] else [])
  }

  function CheckLine(c: Codec, line: seq<Byte>, no: nat, st: Checker): Checker {
    if c.blank(line) then st
    else
      var n := st.(events := st.events + 1);
      match c.parse(line)
      case None => n.(problems := st.problems + [Unparseable(no)])
      case Some(e) =>
        if e.hash == "" then n.(chained := false)
        else n.(problems := st.problems + EventProblems(c, e, no, st), prev := e.hash, expected := e.seqNo + 1)
  }

  /** No result when a line is not text. */
  function CheckLines(c: Codec, lines: seq<seq<Byte>>, no: nat, st: Checker): Option<Checker>
    decreases |lines|
  {
    if lines == [] then Some(st)
    else if !c.text(lines[0]) then None
    else CheckLines(c, lines[1..], no + 1, CheckLine(c, lines[0], no, st))
  }

  function Verdict(c: Codec, content: seq<Byte>): Option<Report> {
    match CheckLines(c, Lines(content), 1, UNCHECKED)
    case None => None
    case Some(e) => Some(Report(e.events, e.problems == [], e.chained, e.problems))
  }

  /** The report, or an error on reading. */
  method VerifyFile(c: Codec, content: seq<Byte>) returns (r: Option<Report>)
    ensures r == Verdict(c, content)
  {
    var problems: seq<Problem> := [];
    var prev, chained := GENESIS, true;
    var expected: nat, n: nat := 0, 0;
    var lines := Lines(content);
    var i := 0;
    while i < |lines|
      invariant 0 <= i <= |lines|
      invariant CheckLines(c, lines, 1, UNCHECKED) ==
                CheckLines(c, lines[i..], i + 1, Checker(prev, expected, n, chained, problems))
    {
      var line := lines[i];
      ghost var st := Checker(prev, expected, n, chained, problems);
      assert lines[i..][0] == line && lines[i..][1..] == lines[i + 1..];
      i := i + 1;
      if !c.text(line) {
        return None;
      }
      if c.blank(line) {
        continue;
      }
      n := n + 1;
      match c.parse(line) {
        case None =>
          problems := problems + [Unparseable(i)];
        case Some(ev) =>
          if ev.hash == "" {
            chained := false;
          } else {
            if ev.seqNo != expected {
              problems := problems + [SequenceGap(i, expected, ev.seqNo)];
            }
            if ev.previous != prev {
              problems := problems + [BrokenLink(i)];
            }
            if ComputeHash(c, ev) != ev.hash {
              problems := problems + [HashMismatch(i)];
            }
            assert problems == st.problems + EventProblems(c, ev, i, st);
            prev := ev.hash;
            expected := ev.seqNo + 1;
          }
      }
    }
    r := Some(Report(n, problems == [], chained, problems));
  }

  /** The events of a file, when every line is text and every line that is not blank holds one. */
  function EventsOf(c: Codec, lines: seq<seq<Byte>>): Option<seq<Event>> {
    if lines == [] then Some([])
    else
      match EventsOf(c, lines[1..])
      case None => None
      case Some(rest) =>
        if !c.text(lines[0]) then None
        else if c.blank(lines[0]) then Some(rest)
        else match c.parse(lines[0])
          case None => None
          case Some(e) => Some([e] + rest)
  }

  /** Event `i` of a stretch that follows hash `prev` at position `n`: position, link and hash agree. */
  ghost predicate Linked(c: Codec, evs: seq<Event>, i: nat, prev: string, n: nat)
    requires i < |evs|
  {
    && evs[i].seqNo == n + i
    && evs[i].previous == (if i == 0 then prev else evs[i - 1].hash)
    && evs[i].hash == ComputeHash(c, evs[i])
    && evs[i].hash != ""
  }

  ghost predicate ChainFrom(c: Codec, evs: seq<Event>, prev: string, n: nat) {
    forall i :: 0 <= i < |evs| ==> Linked(c, evs, i, prev, n)
  }

  /** The declared meaning of an intact log. */
  ghost predicate Chain(c: Codec, evs: seq<Event>) {
    ChainFrom(c, evs, GENESIS, 0)
  }

  /** The file verifies and every event of it is chained. */
  ghost predicate Clean(c: Codec, content: seq<Byte>) {
    Verdict(c, content).Some? && Verdict(c, content).value.ok && Verdict(c, content).value.chained
  }

  function Events(c: Codec, content: seq<Byte>): Option<seq<Event>> {
    EventsOf(c, Lines(content))
  }

  lemma {:induction false} CheckerGoesOn(c: Codec, lines: seq<seq<Byte>>, no: nat, st: Checker)
    ensures var e := CheckLines(c, lines, no, st);
            e.Some? ==> st.problems <= e.value.problems && (!st.chained ==> !e.value.chained)
    decreases |lines|
  {
    if lines != [] {
      CheckerGoesOn(c, lines[1..], no + 1, CheckLine(c, lines[0], no, st));
    }
  }

  lemma ChainFromCons(c: Codec, e: Event, rest: seq<Event>, prev: string, n: nat)
    ensures ChainFrom(c, [e] + rest, prev, n) <==>
            (e.seqNo == n && e.previous == prev && e.hash == ComputeHash(c, e) && e.hash != ""
             && ChainFrom(c, rest, e.hash, n + 1))
  {
    var all := [e] + rest;
    assert forall i :: 0 <= i < |rest| ==> all[i + 1] == rest[i];
    assert all != [] && all[0] == e;
    if ChainFrom(c, all, prev, n) {
      assert Linked(c, all, 0, prev, n);
      var m := n + 1;
      forall i | 0 <= i < |rest| ensures Linked(c, rest, i, e.hash, m) {
        assert Linked(c, all, i + 1, prev, n);
      }
    } else if ChainFrom(c, rest, e.hash, n + 1) && Linked(c, all, 0, prev, n) {
      forall i | 0 <= i < |all| ensures Linked(c, all, i, prev, n) {
        if i > 0 { assert Linked(c, rest, i - 1, e.hash, n + 1); }
      }
    }
  }

  /** Checking line by line accepts exactly the intact chains. */
  lemma {:induction false} CheckerAccepts(c: Codec, lines: seq<seq<Byte>>, no: nat, st: Checker)
    requires st.problems == [] && st.chained
    ensures var e := CheckLines(c, lines, no, st);
            (e.Some? && e.value.problems == [] && e.value.chained) <==>
            (EventsOf(c, lines).Some? && ChainFrom(c, EventsOf(c, lines).value, st.prev, st.expected))
    ensures var e := CheckLines(c, lines, no, st);
            e.Some? && e.value.problems == [] && e.value.chained ==>
              e.value.events == st.events + |EventsOf(c, lines).value|
    decreases |lines|
  {
    if lines != [] {
      var next := CheckLine(c, lines[0], no, st);
      CheckerGoesOn(c, lines[1..], no + 1, next);
      if next.problems == [] && next.chained {
        CheckerAccepts(c, lines[1..], no + 1, next);
      }
      if EventsOf(c, lines[1..]).Some? && c.parse(lines[0]).Some? {
        var e := c.parse(lines[0]).value;
        ChainFromCons(c, e, EventsOf(c, lines[1..]).value, st.prev, st.expected);
      }
    }
  }

  lemma {:induction false} NoReportIff(c: Codec, lines: seq<seq<Byte>>, no: nat, st: Checker)
    ensures CheckLines(c, lines, no, st).None? <==> exists line :: line in lines && !c.text(line)
    decreases |lines|
  {
    if lines != [] {
      if c.text(lines[0]) {
        NoReportIff(c, lines[1..], no + 1, CheckLine(c, lines[0], no, st));
      }
      assert lines == [lines[0]] + lines[1..];
    }
  }

  /** Verification gives no report exactly when some line is not text. */
  lemma NoVerdictIff(c: Codec, content: seq<Byte>)
    ensures Verdict(c, content).None? <==> exists line :: line in Lines(content) && !c.text(line)
  {
    hide Lines;
    NoReportIff(c, Lines(content), 1, UNCHECKED);
  }

  /** A file verifies as chained exactly when its lines hold an intact chain. */
  lemma CleanIff(c: Codec, content: seq<Byte>)
    ensures Clean(c, content) <==> Events(c, content).Some? && Chain(c, Events(c, content).value)
    ensures Clean(c, content) ==> Verdict(c, content).value.events == |Events(c, content).value|
  {
    CheckerAccepts(c, Lines(content), 1, UNCHECKED);
  }

  // ------------------------------------------------- what a report says, also of unchained files

  /** The events that take part in the chain. */
  function Hashed(evs: seq<Event>): seq<Event> {
    if evs == [] then [] else (if evs[0].hash != "" then [evs[0]] else []) + Hashed(evs[1..])
  }

  lemma {:induction false} CheckerReports(c: Codec, lines: seq<seq<Byte>>, no: nat, st: Checker)
    requires st.problems == []
    ensures var e := CheckLines(c, lines, no, st);
            e.Some? ==>
              (e.value.problems == [] <==>
                 EventsOf(c, lines).Some? && ChainFrom(c, Hashed(EventsOf(c, lines).value), st.prev, st.expected))
    decreases |lines|
  {
    if lines != [] && c.text(lines[0]) {
      var next := CheckLine(c, lines[0], no, st);
      CheckerGoesOn(c, lines[1..], no + 1, next);
      if next.problems == [] {
        CheckerReports(c, lines[1..], no + 1, next);
      }
      if EventsOf(c, lines[1..]).Some? && c.parse(lines[0]).Some? {
        var e, rest := c.parse(lines[0]).value, EventsOf(c, lines[1..]).value;
        assert ([e] + rest)[1..] == rest && [] + Hashed(rest) == Hashed(rest);
        ChainFromCons(c, e, Hashed(rest), st.prev, st.expected);
      }
    }
  }

  /** An event was read from this line. */
  predicate Reads(c: Codec, line: seq<Byte>) {
    !c.blank(line) && c.parse(line).Some?
  }

  function Entries(c: Codec, lines: seq<seq<Byte>>): nat {
    if lines == [] then 0 else (if c.blank(lines[0]) then 0 else 1) + Entries(c, lines[1..])
  }

  lemma {:induction false} CheckerCounts(c: Codec, lines: seq<seq<Byte>>, no: nat, st: Checker)
    ensures var e := CheckLines(c, lines, no, st);
            e.Some? ==>
              && e.value.events == st.events + Entries(c, lines)
              && (e.value.chained <==>
                    st.chained && forall l :: l in lines && Reads(c, l) ==> c.parse(l).value.hash != "")
    decreases |lines|
  {
    if lines != [] {
      CheckerCounts(c, lines[1..], no + 1, CheckLine(c, lines[0], no, st));
      assert lines == [lines[0]] + lines[1..];
    }
  }

  /**
   * What a report says of any file: ok if and only if the events that have a hash form an intact chain, whatever
   * stands between them, and chained if and only if no event lacks one; every line that is not blank is counted.
   */
  lemma VerdictIff(c: Codec, content: seq<Byte>)
    requires Verdict(c, content).Some?
    ensures var r := Verdict(c, content).value;
            && (r.ok <==> r.problems == [])
            && (r.ok <==> Events(c, content).Some? && Chain(c, Hashed(Events(c, content).value)))
            && (r.chained <==> forall l :: l in Lines(content) && Reads(c, l) ==> c.parse(l).value.hash != "")
            && r.events == Entries(c, Lines(content))
  {
    CheckerReports(c, Lines(content), 1, UNCHECKED);
    CheckerCounts(c, Lines(content), 1, UNCHECKED);
  }

  /** The last event with a hash before line `k`. */
  function LastHashed(c: Codec, lines: seq<seq<Byte>>, k: nat): Option<Event>
    requires k <= |lines|
  {
    if k == 0 then None
    else if Reads(c, lines[k - 1]) && c.parse(lines[k - 1]).value.hash != "" then c.parse(lines[k - 1])
    else LastHashed(c, lines, k - 1)
  }

  /** The lines `first..` are reported from here. */
  ghost predicate Reported(c: Codec, lines: seq<seq<Byte>>, first: nat, p: Problem) {
    match p
    case Unparseable(n) =>
      first < n <= |lines| && !c.blank(lines[n - 1]) && c.parse(lines[n - 1]) == None
    case HashMismatch(n) =>
      first < n <= |lines| && Reads(c, lines[n - 1])
      && var e := c.parse(lines[n - 1]).value; e.hash != "" && ComputeHash(c, e) != e.hash
    case BrokenLink(n) =>
      first < n <= |lines| && Reads(c, lines[n - 1])
      && var e, before := c.parse(lines[n - 1]).value, LastHashed(c, lines, n - 1);
         e.hash != "" && e.previous != (if before.Some? then before.value.hash else GENESIS)
    case SequenceGap(n, expected, found) =>
      first < n <= |lines| && Reads(c, lines[n - 1])
      && var e, before := c.parse(lines[n - 1]).value, LastHashed(c, lines, n - 1);
         e.hash != "" && found == e.seqNo != expected
           && expected == (if before.Some? then before.value.seqNo + 1 else 0)
  }

  lemma {:induction false} CheckerLists(c: Codec, lines: seq<seq<Byte>>, k: nat, st: Checker, p: Problem)
    requires k <= |lines| && CheckLines(c, lines[k..], k + 1, st).Some?
    requires var before := LastHashed(c, lines, k);
             && st.prev == (if before.Some? then before.value.hash else GENESIS)
             && st.expected == (if before.Some? then before.value.seqNo + 1 else 0)
    ensures p in CheckLines(c, lines[k..], k + 1, st).value.problems <==> p in st.problems || Reported(c, lines, k, p)
    decreases |lines| - k
  {
    if k < |lines| {
      assert lines[k..][0] == lines[k] && lines[k..][1..] == lines[k + 1..];
      var next := CheckLine(c, lines[k], k + 1, st);
      CheckerLists(c, lines, k + 1, next, p);
      LineLists(c, lines, k, st, p);
    }
  }

  lemma LineLists(c: Codec, lines: seq<seq<Byte>>, k: nat, st: Checker, p: Problem)
    requires k < |lines|
    requires var before := LastHashed(c, lines, k);
             && st.prev == (if before.Some? then before.value.hash else GENESIS)
             && st.expected == (if before.Some? then before.value.seqNo + 1 else 0)
    ensures p in CheckLine(c, lines[k], k + 1, st).problems || Reported(c, lines, k + 1, p)
       <==> p in st.problems || Reported(c, lines, k, p)
  {
    hide ComputeHash, LastHashed;
  }

  /** A report lists exactly what is wrong, line by line, and nothing else. */
  lemma ReportIsExact(c: Codec, content: seq<Byte>, p: Problem)
    requires Verdict(c, content).Some?
    ensures p in Verdict(c, content).value.problems <==> Reported(c, Lines(content), 0, p)
  {
    var lines := Lines(content);
    assert lines[0..] == lines;
    CheckerLists(c, lines, 0, UNCHECKED, p);
  }

  // ---------------------------------------------------------- tamper evidence

  lemma {:induction false} SameHashSamePast(c: Codec, a: seq<Event>, b: seq<Event>, i: nat, j: nat)
    requires c.Valid() && Chain(c, a) && Chain(c, b)
    requires i < |a| && j < |b| && a[i].hash == b[j].hash
    ensures i == j && a[..i + 1] == b[..i + 1]
    decreases i
  {
    assert Linked(c, a, i, GENESIS, 0) && Linked(c, b, j, GENESIS, 0);
    assert a[i] == b[j];
    if i > 0 {
      assert Linked(c, a, i - 1, GENESIS, 0) && Linked(c, b, i - 1, GENESIS, 0);
      SameHashSamePast(c, a, b, i - 1, i - 1);
      assert a[..i + 1] == a[..i] + [a[i]] && b[..i + 1] == b[..i] + [b[i]];
    }
  }

  /** Two files that verify and end in the same hash hold the same events. */
  lemma HeadDeterminesLog(c: Codec, x: seq<Byte>, y: seq<Byte>)
    requires c.Valid() && Clean(c, x) && Clean(c, y)
    ensures Events(c, x).Some? && Events(c, y).Some?
    ensures var a, b := Events(c, x).value, Events(c, y).value;
            a != [] && b != [] && a[|a| - 1].hash == b[|b| - 1].hash ==> a == b
  {
    CleanIff(c, x);
    CleanIff(c, y);
    var a, b := Events(c, x).value, Events(c, y).value;
    if a != [] && b != [] && a[|a| - 1].hash == b[|b| - 1].hash {
      SameHashSamePast(c, a, b, |a| - 1, |b| - 1);
      assert a[..|a|] == a && b[..|b|] == b;
    }
  }

  /** One changed event changes the hash of every later one. */
  lemma ChangeReachesTheHead(c: Codec, a: seq<Event>, b: seq<Event>, i: nat, j: nat)
    requires c.Valid() && Chain(c, a) && Chain(c, b)
    requires i <= j < |a| && j < |b| && a[i] != b[i]
    ensures a[j].hash != b[j].hash
  {
    assert a[..j + 1][i] == a[i] && b[..j + 1][i] == b[i];
    if a[j].hash == b[j].hash {
      SameHashSamePast(c, a, b, j, j);
    }
  }

  lemma {:induction false} EventsOfAppend(c: Codec, x: seq<seq<Byte>>, y: seq<seq<Byte>>)
    ensures EventsOf(c, x + y) ==
            if EventsOf(c, x).Some? && EventsOf(c, y).Some?
            then Some(EventsOf(c, x).value + EventsOf(c, y).value) else None
    decreases |x|
  {
    if x == [] {
      assert x + y == y;
      if EventsOf(c, y).Some? { assert [] + EventsOf(c, y).value == EventsOf(c, y).value; }
    } else {
      assert (x + y)[1..] == x[1..] + y;
      EventsOfAppend(c, x[1..], y);
      if EventsOf(c, x).Some? && EventsOf(c, y).Some? && !c.blank(x[0]) {
        assert [c.parse(x[0]).value] + (EventsOf(c, x[1..]).value + EventsOf(c, y).value) ==
               ([c.parse(x[0]).value] + EventsOf(c, x[1..]).value) + EventsOf(c, y).value;
      }
    }
  }

  /** Cutting a verified file at a line boundary leaves a verified file: truncation is what chaining cannot see. */
  lemma PrefixVerifies(c: Codec, x: seq<Byte>, y: seq<Byte>)
    requires Lines(x) <= Lines(y) && Clean(c, y)
    ensures Clean(c, x) && Events(c, x).Some? && Events(c, y).Some? && Events(c, x).value <= Events(c, y).value
  {
    CleanIff(c, y);
    CleanIff(c, x);
    var rest := Lines(y)[|Lines(x)|..];
    assert Lines(y) == Lines(x) + rest;
    EventsOfAppend(c, Lines(x), rest);
    var a, b := Events(c, x).value, Events(c, y).value;
    forall i | 0 <= i < |a| ensures Linked(c, a, i, GENESIS, 0) {
      assert Linked(c, b, i, GENESIS, 0);
    }
  }

  // ---------------------------------------------------------------- last link

  function TrimNewlines(s: seq<Byte>): seq<Byte> {
    if s != [] && s[|s| - 1] == NEWLINE then TrimNewlines(s[..|s| - 1]) else s
  }

  /** Position just after the last newline. */
  function AfterNewline(s: seq<Byte>): (k: nat)
    ensures k <= |s|
    ensures k > 0 ==> s[k - 1] == NEWLINE
    ensures forall i :: k <= i < |s| ==> s[i] != NEWLINE
  {
    if s == [] || s[|s| - 1] == NEWLINE then |s| else AfterNewline(s[..|s| - 1])
  }

  function LastLine(s: seq<Byte>): seq<Byte> {
    var t := TrimNewlines(s);
    t[AfterNewline(t)..]
  }

  /** The hash to link to and the last position; no result when the last line is not an event. */
  type Link = (string, Option<nat>)

  function LinkOf(c: Codec, line: seq<Byte>): Option<Link> {
    match c.parse(line)
    case None => None
    case Some(e) => Some((if e.hash == "" then GENESIS else e.hash, Some(e.seqNo)))
  }

  /** What reading the whole file would find. */
  function WholeFileLink(c: Codec, content: seq<Byte>): Option<Link> {
    if content == [] then Some((GENESIS, None)) else LinkOf(c, LastLine(content))
  }

  lemma {:induction false} TrimShape(s: seq<Byte>)
    ensures |TrimNewlines(s)| <= |s| && TrimNewlines(s) == s[..|TrimNewlines(s)|]
    ensures forall i :: |TrimNewlines(s)| <= i < |s| ==> s[i] == NEWLINE
    ensures TrimNewlines(s) != [] ==> TrimNewlines(s)[|TrimNewlines(s)| - 1] != NEWLINE
    decreases |s|
  {
    if s != [] && s[|s| - 1] == NEWLINE {
      TrimShape(s[..|s| - 1]);
    }
  }

  lemma {:induction false} TrimSuffix(pre: seq<Byte>, w: seq<Byte>)
    requires TrimNewlines(w) != []
    ensures TrimNewlines(pre + w) == pre + TrimNewlines(w)
    decreases |w|
  {
    if w[|w| - 1] == NEWLINE {
      assert (pre + w)[..|pre + w| - 1] == pre + w[..|w| - 1];
      TrimSuffix(pre, w[..|w| - 1]);
    }
  }

  lemma AfterNewlineIs(s: seq<Byte>, k: nat)
    requires k <= |s| && (k > 0 ==> s[k - 1] == NEWLINE)
    requires forall i :: k <= i < |s| ==> s[i] != NEWLINE
    ensures AfterNewline(s) == k
  {
    var m := AfterNewline(s);
    assert forall i :: m <= i < |s| ==> s[i] != NEWLINE;
  }

  lemma AfterNewlineShift(pre: seq<Byte>, t: seq<Byte>)
    requires AfterNewline(t) > 0
    ensures AfterNewline(pre + t) == |pre| + AfterNewline(t)
    ensures (pre + t)[|pre| + AfterNewline(t)..] == t[AfterNewline(t)..]
  {
    hide AfterNewline;
    var k := AfterNewline(t);
    var whole := pre + t;
    assert whole[|pre| + (k - 1)] == t[k - 1];
    forall i | |pre| + k <= i < |whole| ensures whole[i] != NEWLINE {
      assert whole[i] == t[i - |pre|];
    }
    AfterNewlineIs(whole, |pre| + k);
  }

  /** A window that shows a newline before its last text shows the whole last line. */
  lemma WindowSuffices(pre: seq<Byte>, w: seq<Byte>)
    requires AfterNewline(TrimNewlines(w)) > 0
    ensures LastLine(pre + w) == LastLine(w)
  {
    hide TrimNewlines, AfterNewline;
    TrimSuffix(pre, w);
    AfterNewlineShift(pre, TrimNewlines(w));
  }

  /** The tail is read in windows that grow until they hold the last line. */
  method LastLink(c: Codec, content: seq<Byte>) returns (r: Option<Link>)
    ensures r == WholeFileLink(c, content)
  {
    var len := |content|;
    if len == 0 {
      return Some((GENESIS, None));
    }
    var window := 64 * 1024;
    while true
      invariant window > 0
      decreases len - window
    {
      var start := if window >= len then 0 else len - window;
      var buf := content[start..];
      var trimmed := TrimNewlines(buf);
      var idx := AfterNewline(trimmed);
      if idx > 0 {
        assert content == content[..start] + buf;
        WindowSuffices(content[..start], buf);
        return LinkOf(c, trimmed[idx..]);
      }
      if start == 0 {
        assert buf == content;
        return LinkOf(c, trimmed);
      }
      window := window * 4;
    }
  }

  // ---------------------------------------------------------------- appending

  /** The event that would be written next, with chaining on. */
  function NextEvent(c: Codec, link: Link, body: Body): Event {
    var n := if link.1.Some? then link.1.value + 1 else 0;
    Event(n, body, link.0, c.digest(Unhashed(n, body, link.0)))
  }

  /** The event that is written next; with chaining off it keeps its position and says nothing of what was before. */
  function AppendedEvent(c: Codec, link: Link, body: Body, chain: bool): Event {
    if chain then NextEvent(c, link, body) else NextEvent(c, link, body).(previous := "", hash := "")
  }

  /** The file of one run, extended under its lock. */
  class LogFile {
    var content: seq<Byte>

    /** One line for the next event; nothing is written when the last line cannot be read. */
    method Append(c: Codec, body: Body, chain: bool) returns (ok: bool)
      modifies this
      ensures ok <==> WholeFileLink(c, old(content)).Some?
      ensures content ==
              if ok then
                old(content) + c.show(AppendedEvent(c, WholeFileLink(c, old(content)).value, body, chain)) + [NEWLINE]
              else old(content)
    {
      var link := LastLink(c, content);
      match link {
        case None =>
          return false;
        case Some(l) =>
          content := content + c.show(AppendedEvent(c, l, body, chain)) + [NEWLINE];
          return true;
      }
    }
  }

  ghost predicate Terminated(s: seq<Byte>) {
    s == [] || s[|s| - 1] == NEWLINE
  }

  lemma FirstLine(s: seq<Byte>, line: seq<Byte>, rest: seq<Byte>)
    requires NEWLINE !in line && s == line + ([NEWLINE] + rest)
    ensures Lines(s) == [Chomp(line)] + Lines(rest)
  {
    assert forall i :: 0 <= i < |line| ==> s[i] == line[i] && line[i] in line;
    assert s[|line|] == NEWLINE;
    assert IndexOf(s, 0) == |line|;
    assert s[..|line|] == line && s[|line| + 1..] == rest;
  }

  /** Text that ends in a newline is read independently of what follows. */
  lemma {:induction false} LinesAppend(s: seq<Byte>, r: seq<Byte>)
    requires Terminated(s)
    ensures Lines(s + r) == Lines(s) + Lines(r)
    decreases |s|
  {
    if s == [] {
      assert s + r == r && Lines(s) + Lines(r) == Lines(r);
    } else {
      var k := IndexOf(s, 0);
      assert s[|s| - 1] == NEWLINE;
      var line, rest := s[..k], s[k + 1..];
      hide Lines, Chomp;
      assert s == line + ([NEWLINE] + rest);
      LinesAppend(rest, r);
      FirstLine(s, line, rest);
      Associative(line, [NEWLINE] + rest, r);
      Associative([NEWLINE], rest, r);
      FirstLine(s + r, line, rest + r);
      Associative([Chomp(line)], Lines(rest), Lines(r));
    }
  }

  lemma OneLine(line: seq<Byte>)
    requires NEWLINE !in line
    ensures Lines(line + [NEWLINE]) == [Chomp(line)]
    ensures line != [] ==> Lines(line) == [line]
  {
    var s := line + [NEWLINE];
    assert forall i :: 0 <= i < |line| ==> s[i] == line[i] && line[i] in line;
    assert s[|line|] == NEWLINE;
    assert IndexOf(s, 0) == |line| && IndexOf(line, 0) == |line|;
    assert s[..|line|] == line && s[|line| + 1..] == [];
    assert Lines([]) == [] && [Chomp(line)] + [] == [Chomp(line)];
  }

  lemma {:induction false} NewlinesOnly(c: Codec, s: seq<Byte>)
    requires c.Valid() && forall i :: 0 <= i < |s| ==> s[i] == NEWLINE
    ensures Events(c, s) == Some([])
    decreases |s|
  {
    if s != [] {
      assert IndexOf(s, 0) == 0;
      assert Lines(s) == [Chomp([])] + Lines(s[1..]);
      NewlinesOnly(c, s[1..]);
    }
  }

  /** A file taken apart around its last line. */
  lemma LastLineParts(s: seq<Byte>) returns (head: seq<Byte>, line: seq<Byte>, tail: seq<Byte>)
    ensures s == head + line + tail && line == LastLine(s)
    ensures Terminated(head) && NEWLINE !in line
    ensures forall i :: 0 <= i < |tail| ==> tail[i] == NEWLINE
    ensures tail == [] <==> s == [] || s[|s| - 1] != NEWLINE
  {
    TrimShape(s);
    var t := TrimNewlines(s);
    var k := AfterNewline(t);
    head, line, tail := t[..k], t[k..], s[|t|..];
    assert forall i :: 0 <= i < |line| ==> line[i] == t[k + i];
    assert k > 0 ==> head[|head| - 1] == t[k - 1];
    assert tail != [] ==> s[|s| - 1] == tail[|tail| - 1];
  }

  /** In a terminated file the last line decides the last event. */
  lemma TerminatedEvents(c: Codec, s: seq<Byte>) returns (before: Option<seq<Event>>)
    requires c.Valid() && s != [] && Terminated(s) && !c.blank(LastLine(s))
    ensures Events(c, s) ==
            if before.Some? && c.text(LastLine(s)) && c.parse(LastLine(s)).Some?
            then Some(before.value + [c.parse(LastLine(s)).value]) else None
  {
    hide Lines, EventsOf;
    var head, line, tail := LastLineParts(s);
    assert line != [];
    assert (head + line)[|head + line| - 1] == line[|line| - 1] && line[|line| - 1] in line;
    assert tail == [] ==> s == head + line;
    var rest := tail[1..];
    assert s == head + ((line + [NEWLINE]) + rest);
    LinesAppend(head, (line + [NEWLINE]) + rest);
    LinesAppend(line + [NEWLINE], rest);
    OneLine(line);
    NewlinesOnly(c, rest);
    EventsOfAppend(c, Lines(head), [Chomp(line)] + Lines(rest));
    EventsOfAppend(c, [Chomp(line)], Lines(rest));
    ChompHarmless(c, line);
    OneEvent(c, Chomp(line));
    before := Events(c, head);
    if before.Some? && c.parse(line).Some? {
      assert [c.parse(line).value] + [] == [c.parse(line).value];
    }
  }

  lemma OneEvent(c: Codec, line: seq<Byte>)
    requires !c.blank(line)
    ensures EventsOf(c, [line])
         == if c.text(line) && c.parse(line).Some? then Some([c.parse(line).value]) else None
  {
    assert [line][1..] == [] && EventsOf(c, []) == Some([]);
    assert c.parse(line).Some? ==> [c.parse(line).value] + [] == [c.parse(line).value];
  }

  lemma ChompHarmless(c: Codec, line: seq<Byte>)
    requires c.Valid()
    ensures c.parse(Chomp(line)) == c.parse(line)
    ensures (c.text(Chomp(line)) <==> c.text(line)) && (c.blank(Chomp(line)) <==> c.blank(line))
  {
  }

  /** The appended line as the reader will see it. */
  lemma AppendedLines(c: Codec, s: seq<Byte>, e: Event)
    requires c.Valid() && Terminated(s)
    ensures Events(c, s + c.show(e) + [NEWLINE]) ==
            if Events(c, s).Some? then Some(Events(c, s).value + [e]) else None
  {
    hide Lines, EventsOf;
    var x := c.show(e);
    assert s + x + [NEWLINE] == s + (x + [NEWLINE]);
    LinesAppend(s, x + [NEWLINE]);
    OneLine(x);
    assert Chomp(x) == x;
    EventsOfAppend(c, Lines(s), [x]);
    OneEvent(c, x);
  }

  /** Without a final newline the new event is glued to the old one and both are lost. */
  lemma GluedLines(c: Codec, s: seq<Byte>, e: Event)
    requires c.Valid() && !Terminated(s) && c.parse(LastLine(s)).Some?
    ensures Events(c, s + c.show(e) + [NEWLINE]) == None
  {
    hide Lines, EventsOf;
    var x := c.show(e);
    var head, line, tail := LastLineParts(s);
    assert s == head + line;
    var glued := c.Glued(line, e);
    assert s + x + [NEWLINE] == head + (glued + [NEWLINE]);
    LinesAppend(head, glued + [NEWLINE]);
    OneLine(glued);
    assert Chomp(glued) == glued by {
      assert glued[|glued| - 1] == x[|x| - 1];
    }
    EventsOfAppend(c, Lines(head), [glued]);
    assert c.blank(glued) ==> c.blank(line);
    OneEvent(c, glued);
  }

  /** The condition under which a verified file can be appended to. */
  ghost predicate Appendable(c: Codec, s: seq<Byte>) {
    s == [] || (s[|s| - 1] == NEWLINE && !c.blank(LastLine(s)))
  }

  lemma LinkIsChainEnd(c: Codec, s: seq<Byte>)
    requires c.Valid() && Clean(c, s) && Appendable(c, s)
    ensures Events(c, s).Some? && WholeFileLink(c, s).Some?
    ensures var evs, link := Events(c, s).value, WholeFileLink(c, s).value;
            link == if evs == [] then (GENESIS, None) else (evs[|evs| - 1].hash, Some(|evs| - 1))
  {
    CleanIff(c, s);
    if s != [] {
      var before := TerminatedEvents(c, s);
      var evs := Events(c, s).value;
      assert evs[|evs| - 1] == c.parse(LastLine(s)).value;
      assert Linked(c, evs, |evs| - 1, GENESIS, 0);
    }
  }

  lemma ChainGrows(c: Codec, evs: seq<Event>, e: Event)
    requires c.Valid() && Chain(c, evs)
    requires e.seqNo == |evs| && e.hash == ComputeHash(c, e)
    requires e.previous == if evs == [] then GENESIS else evs[|evs| - 1].hash
    ensures Chain(c, evs + [e])
  {
    forall i | 0 <= i < |evs + [e]| ensures Linked(c, evs + [e], i, GENESIS, 0) {
      if i < |evs| { assert Linked(c, evs, i, GENESIS, 0); }
    }
  }

  /**
   * Appending to a verified, chained file yields a verified, chained file with exactly the new
   * event added if and only if the file is empty or ends in a newline after a line that is not blank.
   */
  lemma AppendVerifiesIff(c: Codec, s: seq<Byte>, body: Body)
    requires c.Valid() && Clean(c, s)
    ensures var link := WholeFileLink(c, s);
            Appendable(c, s) <==>
            (link.Some?
             && var e := NextEvent(c, link.value, body);
                var after := s + c.show(e) + [NEWLINE];
                Clean(c, after) && Events(c, s).Some? && Events(c, after) == Some(Events(c, s).value + [e]))
  {
    hide Lines, EventsOf, TrimNewlines, Verdict;
    var link := WholeFileLink(c, s);
    CleanIff(c, s);
    if Appendable(c, s) {
      LinkIsChainEnd(c, s);
      var e := NextEvent(c, link.value, body);
      var after := s + c.show(e) + [NEWLINE];
      AppendedLines(c, s, e);
      CleanIff(c, after);
      ChainGrows(c, Events(c, s).value, e);
    } else if link.Some? {
      assert c.parse(LastLine(s)).Some? && !c.blank(LastLine(s));
      GluedLines(c, s, NextEvent(c, link.value, body));
    }
  }

  lemma OneEventFile(c: Codec, e: Event, s: seq<Byte>)
    requires c.Valid() && e.seqNo == 0 && e.previous == GENESIS && e.hash == ComputeHash(c, e)
    requires Events(c, s) == Some([e])
    ensures Clean(c, s)
  {
    assert Linked(c, [e], 0, GENESIS, 0);
    CleanIff(c, s);
  }

  /** A verified file that lost its last newline: the next event destroys the last one. */
  lemma LostNewline(c: Codec, body: Body)
    requires c.Valid()
    ensures var e := NextEvent(c, (GENESIS, None), body);
            var cut := c.show(e);
            && Clean(c, cut) && cut[|cut| - 1] != NEWLINE && !Appendable(c, cut)
            && WholeFileLink(c, cut) == Some((e.hash, Some(0)))
            && Events(c, cut + c.show(NextEvent(c, (e.hash, Some(0)), body)) + [NEWLINE]) == None
  {
    var e := NextEvent(c, (GENESIS, None), body);
    var cut := c.show(e);
    OneLine(cut);
    OneEvent(c, cut);
    OneEventFile(c, e, cut);
    assert cut[|cut| - 1] in cut;
    assert TrimNewlines(cut) == cut;
    AfterNewlineIs(cut, 0);
    assert LastLine(cut) == cut;
    GluedLines(c, cut, NextEvent(c, (e.hash, Some(0)), body));
  }

  /** A verified file that ends in a blank line: no further event can be appended. */
  lemma BlankLastLine(c: Codec, body: Body, gap: seq<Byte>)
    requires c.Valid() && gap != [] && NEWLINE !in gap && c.blank(gap)
    ensures var s := c.show(NextEvent(c, (GENESIS, None), body)) + [NEWLINE] + gap;
            Clean(c, s) && !Appendable(c, s) && WholeFileLink(c, s) == None
  {
    var e := NextEvent(c, (GENESIS, None), body);
    GapAfterEvent(c, e, gap);
    OneEventFile(c, e, c.show(e) + [NEWLINE] + gap);
  }

  /** A blank last line hides the last event from the writer but not from the reader. */
  lemma GapAfterEvent(c: Codec, e: Event, gap: seq<Byte>)
    requires c.Valid() && gap != [] && NEWLINE !in gap && c.blank(gap)
    ensures var s := c.show(e) + [NEWLINE] + gap;
            Events(c, s) == Some([e]) && LastLine(s) == gap && s[|s| - 1] != NEWLINE && s != []
  {
    var x := c.show(e);
    var s := x + [NEWLINE] + gap;
    FirstLine(s, x, gap);
    OneLine(gap);
    assert Lines(s) == [x] + [gap];
    assert [gap][1..] == [] && EventsOf(c, []) == Some([]);
    EventsOfAppend(c, [x], [gap]);
    OneEvent(c, x);
    assert s[|s| - 1] == gap[|gap| - 1] && gap[|gap| - 1] in gap;
    assert TrimNewlines(s) == s;
    forall i | |x| + 1 <= i < |s| ensures s[i] != NEWLINE { assert s[i] == gap[i - |x| - 1]; }
    AfterNewlineIs(s, |x| + 1);
    assert s[|x| + 1..] == gap;
  }

  /** After any readable last event, chained or not, the next event goes on from its position and its hash. */
  lemma AppendGoesOn(c: Codec, s: seq<Byte>, body: Body, last: Event)
    requires c.Valid() && s != [] && c.parse(LastLine(s)) == Some(last)
    ensures WholeFileLink(c, s).Some?
    ensures var e := NextEvent(c, WholeFileLink(c, s).value, body);
            && e.seqNo == last.seqNo + 1 && e.previous == (if last.hash == "" then GENESIS else last.hash)
            && e.body == body && e.hash == ComputeHash(c, e) && e.hash != ""
  {}

  /** From an empty file, any number of appends is accepted and keeps the log verified. */
  ghost predicate Written(c: Codec, bodies: seq<Body>, s: seq<Byte>)
    decreases |bodies|
  {
    if bodies == [] then s == []
    else
      var last := |bodies| - 1;
      exists before, link ::
        && Written(c, bodies[..last], before)
        && WholeFileLink(c, before) == Some(link)
        && s == before + c.show(NextEvent(c, link, bodies[last])) + [NEWLINE]
  }

  lemma {:induction false} WrittenLogsVerify(c: Codec, bodies: seq<Body>, s: seq<Byte>)
    requires c.Valid() && Written(c, bodies, s)
    ensures Clean(c, s) && Appendable(c, s)
    ensures Events(c, s).Some? && |Events(c, s).value| == |bodies|
    ensures forall i :: 0 <= i < |bodies| ==> Events(c, s).value[i].body == bodies[i]
    decreases |bodies|
  {
    hide *;
    if bodies == [] {
      WrittenNone(c, s);
      EmptyLogVerifies(c);
    } else {
      var last := |bodies| - 1;
      var before, link := WrittenLast(c, bodies, s);
      WrittenLogsVerify(c, bodies[..last], before);
      WriteOnce(c, before, link, bodies[last], s);
    }
  }

  lemma WrittenNone(c: Codec, s: seq<Byte>)
    requires Written(c, [], s)
    ensures s == []
  {}

  lemma WrittenLast(c: Codec, bodies: seq<Body>, s: seq<Byte>) returns (before: seq<Byte>, link: Link)
    requires bodies != [] && Written(c, bodies, s)
    ensures var last := |bodies| - 1;
            && Written(c, bodies[..last], before) && WholeFileLink(c, before) == Some(link)
            && s == before + c.show(NextEvent(c, link, bodies[last])) + [NEWLINE]
  {
    hide WholeFileLink, NextEvent;
    var last := |bodies| - 1;
    before, link :| Written(c, bodies[..last], before) && WholeFileLink(c, before) == Some(link)
                    && s == before + c.show(NextEvent(c, link, bodies[last])) + [NEWLINE];
  }

  lemma EmptyLogVerifies(c: Codec)
    requires c.Valid()
    ensures Clean(c, []) && Appendable(c, []) && Events(c, []) == Some([])
  {
    NewlinesOnly(c, []);
    CleanIff(c, []);
  }

  lemma WriteOnce(c: Codec, before: seq<Byte>, link: Link, body: Body, after: seq<Byte>)
    requires c.Valid() && Clean(c, before) && Appendable(c, before) && WholeFileLink(c, before) == Some(link)
    requires after == before + c.show(NextEvent(c, link, body)) + [NEWLINE]
    ensures Clean(c, after) && Appendable(c, after) && Events(c, before).Some?
    ensures Events(c, after) == Some(Events(c, before).value + [NextEvent(c, link, body)])
    ensures NextEvent(c, link, body).body == body
  {
    hide Lines, EventsOf, TrimNewlines, Verdict;
    AppendVerifiesIff(c, before, body);
    LastLineOfAppended(c, before, NextEvent(c, link, body));
  }

  lemma LastLineOfAppended(c: Codec, s: seq<Byte>, e: Event)
    requires c.Valid() && Terminated(s)
    ensures Appendable(c, s + c.show(e) + [NEWLINE]) && LastLine(s + c.show(e) + [NEWLINE]) == c.show(e)
  {
    var x := c.show(e);
    var all := s + x + [NEWLINE];
    assert all[..|all| - 1] == s + x && all[|all| - 1] == NEWLINE;
    assert forall i :: 0 <= i < |x| ==> (s + x)[|s| + i] == x[i] && x[i] in x;
    assert (s + x)[|s| + (|x| - 1)] in x;
    assert TrimNewlines(s + x) == s + x && TrimNewlines(all) == s + x;
    assert s != [] ==> (s + x)[|s| - 1] == s[|s| - 1];
    forall i | |s| <= i < |s + x| ensures (s + x)[i] != NEWLINE {
      assert (s + x)[i] == x[i - |s|];
    }
    AfterNewlineIs(s + x, |s|);
    assert LastLine(all) == x;
  }
}
