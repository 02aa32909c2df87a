/** Logs in which hash chaining was switched on and off: exactly which of them verify. */
module AuditMixed {
  import opened Text
  import opened AuditLog

  /** One append: what was written, and whether chaining was on. */
  datatype Entry = Entry(body: Body, chain: bool)

  /** From an empty file, appends one after the other, each accepted. */
  ghost predicate Appended(c: Codec, entries: seq<Entry>, s: seq<Byte>)
    decreases |entries|
  {
    if entries == [] then s == []
    else
      var last := entries[|entries| - 1];
      exists before, link ::
        && Appended(c, entries[..|entries| - 1], before)
        && WholeFileLink(c, before) == Some(link)
        && s == before + c.show(AppendedEvent(c, link, last.body, last.chain)) + [NEWLINE]
  }

  /** The events of such a log: numbered in order, and each chained one linked to the one right before it. */
  ghost predicate Numbered(c: Codec, evs: seq<Event>, entries: seq<Entry>) {
    && |evs| == |entries|
    && forall i :: 0 <= i < |evs| ==> EntryAt(c, evs, entries, i)
  }

  ghost predicate EntryAt(c: Codec, evs: seq<Event>, entries: seq<Entry>, i: nat)
    requires i < |evs| && i < |entries|
  {
    && evs[i].seqNo == i && evs[i].body == entries[i].body
    && (evs[i].hash != "" <==> entries[i].chain)
    && (entries[i].chain ==>
          && evs[i].hash == ComputeHash(c, evs[i])
          && evs[i].previous == if i > 0 && entries[i - 1].chain then evs[i - 1].hash else GENESIS)
  }

  lemma AppendedLast(c: Codec, entries: seq<Entry>, s: seq<Byte>) returns (before: seq<Byte>, link: Link)
    requires entries != [] && Appended(c, entries, s)
    ensures var last := entries[|entries| - 1];
            && Appended(c, entries[..|entries| - 1], before) && WholeFileLink(c, before) == Some(link)
            && s == before + c.show(AppendedEvent(c, link, last.body, last.chain)) + [NEWLINE]
  {
    hide WholeFileLink, AppendedEvent;
    var last := entries[|entries| - 1];
    before, link :|
      && Appended(c, entries[..|entries| - 1], before) && WholeFileLink(c, before) == Some(link)
      && s == before + c.show(AppendedEvent(c, link, last.body, last.chain)) + [NEWLINE];
  }

  /** A log reads back as what was appended, and the next event finds its place. */
  ghost predicate ReadsBack(c: Codec, entries: seq<Entry>, s: seq<Byte>) {
    && Terminated(s) && (s == [] <==> entries == [])
    && Events(c, s).Some? && Numbered(c, Events(c, s).value, entries)
    && WholeFileLink(c, s) == Some(NextLink(Events(c, s).value))
  }

  function NextLink(evs: seq<Event>): Link {
    if evs == [] then (GENESIS, None)
    else
      var e := evs[|evs| - 1];
      (if e.hash == "" then GENESIS else e.hash, Some(|evs| - 1))
  }

  /** Every such log reads back, and takes more. */
  lemma {:induction false} AppendedReads(c: Codec, entries: seq<Entry>, s: seq<Byte>)
    requires c.Valid() && Appended(c, entries, s)
    ensures ReadsBack(c, entries, s)
    decreases |entries|
  {
    hide *;
    if entries == [] {
      NothingAppended(c, s);
    } else {
      var before, link := AppendedLast(c, entries, s);
      AppendedReads(c, entries[..|entries| - 1], before);
      OneMoreRead(c, entries, before, link, s);
    }
  }

  lemma OneMoreRead(c: Codec, entries: seq<Entry>, before: seq<Byte>, link: Link, s: seq<Byte>)
    requires c.Valid() && entries != [] && ReadsBack(c, entries[..|entries| - 1], before)
    requires WholeFileLink(c, before) == Some(link)
    requires var last := entries[|entries| - 1];
             s == before + c.show(AppendedEvent(c, link, last.body, last.chain)) + [NEWLINE]
    ensures ReadsBack(c, entries, s)
  {
    hide Events, WholeFileLink, LastLine, AppendedEvent, Numbered;
    var n := |entries| - 1;
    var e := AppendedEvent(c, link, entries[n].body, entries[n].chain);
    var evs := Events(c, before).value;
    AppendedLines(c, before, e);
    LastLineOfAppended(c, before, e);
    LinkAfter(c, s, e);
    OneMore(c, evs, entries, e);
  }

  lemma NothingAppended(c: Codec, s: seq<Byte>)
    requires c.Valid() && Appended(c, [], s)
    ensures ReadsBack(c, [], s)
  {
    NewlinesOnly(c, []);
  }

  lemma LinkAfter(c: Codec, s: seq<Byte>, e: Event)
    requires c.Valid() && s != [] && LastLine(s) == c.show(e)
    ensures WholeFileLink(c, s) == Some((if e.hash == "" then GENESIS else e.hash, Some(e.seqNo)))
  {}

  lemma OneMore(c: Codec, evs: seq<Event>, entries: seq<Entry>, e: Event)
    requires c.Valid() && entries != [] && Numbered(c, evs, entries[..|entries| - 1])
    requires e == AppendedEvent(c, NextLink(evs), entries[|entries| - 1].body, entries[|entries| - 1].chain)
    ensures |evs| == |entries| - 1 && e.seqNo == |evs| && Numbered(c, evs + [e], entries)
  {
    var n := |entries| - 1;
    var all := evs + [e];
    forall i | 0 <= i < |all| ensures EntryAt(c, all, entries, i) {
      if i < n {
        assert EntryAt(c, evs, entries[..n], i);
      } else if n > 0 {
        assert EntryAt(c, evs, entries[..n], n - 1);
      }
    }
  }

  /** No chained event stands behind an unchained one. */
  predicate ChainedFirst(entries: seq<Entry>) {
    forall i, j :: 0 <= i < j < |entries| && entries[j].chain ==> entries[i].chain
  }

  lemma {:induction false} HashedFront(evs: seq<Event>, n: nat)
    requires n <= |evs|
    requires forall i :: 0 <= i < |evs| ==> (evs[i].hash != "" <==> i < n)
    ensures Hashed(evs) == evs[..n]
    decreases |evs|
  {
    if evs != [] {
      if n > 0 {
        HashedFront(evs[1..], n - 1);
        assert evs[..n] == [evs[0]] + evs[1..][..n - 1];
      } else {
        HashedFront(evs[1..], 0);
        assert [] + Hashed(evs[1..]) == Hashed(evs[1..]);
      }
    }
  }

  /** An event with a hash comes among the chained ones at the number of such events before it. */
  lemma {:induction false} HashedAt(evs: seq<Event>, j: nat) returns (k: nat)
    requires j < |evs| && evs[j].hash != ""
    ensures k <= j && k < |Hashed(evs)| && Hashed(evs)[k] == evs[j]
    ensures (exists i :: 0 <= i < j && evs[i].hash == "") ==> k < j
    decreases j
  {
    if j == 0 {
      k := 0;
    } else {
      k := HashedAt(evs[1..], j - 1);
      var front: seq<Event> := if evs[0].hash != "" then [evs[0]] else [];
      assert Hashed(evs) == front + Hashed(evs[1..]);
      if i :| 0 <= i < j && evs[i].hash == "" {
        assert i > 0 ==> evs[1..][i - 1] == evs[i];
      }
      k := k + |front|;
    }
  }

  lemma ChainIff(c: Codec, evs: seq<Event>, entries: seq<Entry>)
    requires Numbered(c, evs, entries)
    ensures Chain(c, Hashed(evs)) <==> ChainedFirst(entries)
  {
    assert forall i :: 0 <= i < |evs| ==> EntryAt(c, evs, entries, i);
    if ChainedFirst(entries) {
      var n := FirstUnchained(entries);
      forall i | 0 <= i < |evs| ensures evs[i].hash != "" <==> i < n {
        assert EntryAt(c, evs, entries, i);
      }
      HashedFront(evs, n);
      forall i | 0 <= i < n ensures Linked(c, evs[..n], i, GENESIS, 0) {
        assert EntryAt(c, evs, entries, i);
        if i > 0 { assert EntryAt(c, evs, entries, i - 1); }
      }
    } else {
      var i, j :| 0 <= i < j < |entries| && entries[j].chain && !entries[i].chain;
      assert EntryAt(c, evs, entries, i) && EntryAt(c, evs, entries, j);
      var k := HashedAt(evs, j);
      assert k < j;
      assert !Linked(c, Hashed(evs), k, GENESIS, 0);
    }
  }

  lemma FirstUnchained(entries: seq<Entry>) returns (n: nat)
    requires ChainedFirst(entries)
    ensures n <= |entries| && forall i :: 0 <= i < |entries| ==> (entries[i].chain <==> i < n)
  {
    n := 0;
    while n < |entries| && entries[n].chain
      invariant n <= |entries| && forall i :: 0 <= i < n ==> entries[i].chain
    {
      n := n + 1;
    }
  }

  lemma {:induction false} EventsAreText(c: Codec, lines: seq<seq<Byte>>, line: seq<Byte>)
    requires EventsOf(c, lines).Some? && line in lines
    ensures c.text(line)
    decreases |lines|
  {
    if line != lines[0] {
      assert line in lines[1..];
      EventsAreText(c, lines[1..], line);
    }
  }

  /**
   * A log written by appends alone, with chaining switched on and off at will, verifies as ok if and only if
   * chaining was never switched on again after an event without it.
   */
  lemma MixedLogVerifiesIff(c: Codec, entries: seq<Entry>, s: seq<Byte>)
    requires c.Valid() && Appended(c, entries, s)
    ensures Verdict(c, s).Some? && (Verdict(c, s).value.ok <==> ChainedFirst(entries))
  {
    AppendedReads(c, entries, s);
    hide Verdict, Lines, EventsOf, Appended, Numbered, Chain;
    forall line | line in Lines(s) ensures c.text(line) {
      EventsAreText(c, Lines(s), line);
    }
    NoVerdictIff(c, s);
    VerdictIff(c, s);
    ChainIff(c, Events(c, s).value, entries);
  }
}
