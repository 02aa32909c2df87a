/** A text form and a digest with every property the audit log's theorems ask for. */
module AuditCodec {
  import opened Text
  import opened Decimal
  import opened AuditLog

  // Numbers, strings and lists of strings as bytes that say themselves where they end.

  function Unary(n: nat): seq<Byte> {
    if n == 0 then [2] else [1] + Unary(n - 1)
  }

  function Letters(s: string): seq<Byte> {
    if s == [] then [3] else Unary(s[0] as int) + Letters(s[1..])
  }

  function Record(ss: seq<string>): seq<Byte> {
    if ss == [] then [4] else Letters(ss[0]) + Record(ss[1..])
  }

  lemma {:induction false} UnaryReads(m: nat, n: nat, r: seq<Byte>, q: seq<Byte>)
    requires Unary(m) + r == Unary(n) + q
    ensures m == n && r == q
  {
    var x, y := Unary(m) + r, Unary(n) + q;
    assert x[0] == (if m == 0 then 2 else 1) && y[0] == (if n == 0 then 2 else 1);
    if m == 0 {
      assert x[1..] == r && y[1..] == q;
    } else {
      assert x[1..] == Unary(m - 1) + r && y[1..] == Unary(n - 1) + q;
      UnaryReads(m - 1, n - 1, r, q);
    }
  }

  lemma UnaryStarts(n: nat, r: seq<Byte>)
    ensures Unary(n) + r != [] && (Unary(n) + r)[0] < 3
  {}

  lemma {:induction false} LettersRead(s: string, t: string, r: seq<Byte>, q: seq<Byte>)
    requires Letters(s) + r == Letters(t) + q
    ensures s == t && r == q
    decreases |s|
  {
    if s != [] {
      Associative(Unary(s[0] as int), Letters(s[1..]), r);
      UnaryStarts(s[0] as int, Letters(s[1..]) + r);
    }
    if t != [] {
      Associative(Unary(t[0] as int), Letters(t[1..]), q);
      UnaryStarts(t[0] as int, Letters(t[1..]) + q);
    }
    if s != [] && t != [] {
      UnaryReads(s[0] as int, t[0] as int, Letters(s[1..]) + r, Letters(t[1..]) + q);
      LettersRead(s[1..], t[1..], r, q);
      assert s == [s[0]] + s[1..] && t == [t[0]] + t[1..];
    } else if s == [] && t == [] {
      assert ([3] + r)[1..] == r && ([3] + q)[1..] == q;
    }
  }

  lemma LettersStart(s: string, r: seq<Byte>)
    ensures Letters(s) + r != [] && (Letters(s) + r)[0] < 4
  {
    if s != [] {
      Associative(Unary(s[0] as int), Letters(s[1..]), r);
      UnaryStarts(s[0] as int, Letters(s[1..]) + r);
    }
  }

  /** No record is the beginning of another. */
  lemma {:induction false} RecordReads(a: seq<string>, b: seq<string>, r: seq<Byte>, q: seq<Byte>)
    requires Record(a) + r == Record(b) + q
    ensures a == b && r == q
    decreases |a|
  {
    if a != [] {
      Associative(Letters(a[0]), Record(a[1..]), r);
      LettersStart(a[0], Record(a[1..]) + r);
    }
    if b != [] {
      Associative(Letters(b[0]), Record(b[1..]), q);
      LettersStart(b[0], Record(b[1..]) + q);
    }
    if a != [] && b != [] {
      LettersRead(a[0], b[0], Record(a[1..]) + r, Record(b[1..]) + q);
      RecordReads(a[1..], b[1..], r, q);
      assert a == [a[0]] + a[1..] && b == [b[0]] + b[1..];
    } else if a == [] && b == [] {
      assert ([4] + r)[1..] == r && ([4] + q)[1..] == q;
    }
  }

  lemma {:induction false} UnaryBytes(n: nat)
    ensures forall b :: b in Unary(n) ==> b < 3
  {
    if n > 0 { UnaryBytes(n - 1); }
  }

  lemma {:induction false} LettersBytes(s: string)
    ensures forall b :: b in Letters(s) ==> b < 4
    decreases |s|
  {
    if s != [] {
      UnaryBytes(s[0] as int);
      LettersBytes(s[1..]);
    }
  }

  lemma {:induction false} RecordBytes(ss: seq<string>)
    ensures Record(ss) != [] && Record(ss)[|Record(ss)| - 1] == 4
    ensures forall b :: b in Record(ss) ==> b < 5
    decreases |ss|
  {
    if ss != [] {
      LettersBytes(ss[0]);
      RecordBytes(ss[1..]);
    }
  }

  // ------------------------------------------------------------------- events

  function Optional(o: Option<string>): string {
    match o
    case None => "n"
    case Some(s) => "s" + s
  }

  function Fields(u: Unhashed): seq<string> {
    var b := u.body;
    [Show(u.seqNo), u.previous, b.eventId, b.timestamp, Optional(b.runId), Optional(b.taskId),
     Optional(b.stepId), b.actor, b.event, b.data, Optional(b.signature)]
  }

  lemma OptionalInjective(a: Option<string>, b: Option<string>)
    requires Optional(a) == Optional(b)
    ensures a == b
  {
    assert a.Some? ==> Optional(a)[0] == 's' && Optional(a)[1..] == a.value;
    assert b.Some? ==> Optional(b)[0] == 's' && Optional(b)[1..] == b.value;
  }

  lemma FieldsInjective(u: Unhashed, v: Unhashed)
    requires Fields(u) == Fields(v)
    ensures u == v
  {
    hide Show, Optional;
    var x, y := Fields(u), Fields(v);
    assert forall i :: 0 <= i < 11 ==> x[i] == y[i];
    assert x[0] == y[0] && x[1] == y[1] && x[2] == y[2] && x[3] == y[3];
    assert x[4] == y[4] && x[5] == y[5] && x[6] == y[6] && x[10] == y[10];
    assert x[7] == y[7] && x[8] == y[8] && x[9] == y[9];
    ShowInjective(u.seqNo, v.seqNo);
    OptionalInjective(u.body.runId, v.body.runId);
    OptionalInjective(u.body.taskId, v.body.taskId);
    OptionalInjective(u.body.stepId, v.body.stepId);
    OptionalInjective(u.body.signature, v.body.signature);
  }

  function Chars(s: seq<Byte>): string {
    seq(|s|, i requires 0 <= i < |s| => s[i] as char)
  }

  function Digest(u: Unhashed): string {
    Chars(Record(Fields(u)))
  }

  function Line(e: Event): seq<Byte> {
    Record([e.hash] + Fields(Unhashed(e.seqNo, e.body, e.previous)))
  }

  /** A line without the carriage returns at its end. */
  function Strip(l: seq<Byte>): seq<Byte> {
    if l != [] && l[|l| - 1] == RETURN then Strip(l[..|l| - 1]) else l
  }

  ghost function EventOf(s: seq<Byte>): Option<Event> {
    if e: Event :| Line(e) == s then Some(e) else None
  }

  ghost function Read(l: seq<Byte>): Option<Event> {
    EventOf(Strip(l))
  }

  ghost function Plain(): Codec {
    Codec(Digest, Read, Line, _ => true, l => Strip(l) == [])
  }

  lemma CharsInjective(s: seq<Byte>, t: seq<Byte>)
    requires Chars(s) == Chars(t)
    ensures s == t
  {
    assert |Chars(s)| == |s| && |Chars(t)| == |t|;
    forall i | 0 <= i < |s| ensures s[i] == t[i] {
      assert Chars(s)[i] == s[i] as char && Chars(t)[i] == t[i] as char;
      assert s[i] == (s[i] as char) as int && t[i] == (t[i] as char) as int;
    }
  }

  lemma DigestInjective(u: Unhashed, v: Unhashed)
    requires Digest(u) == Digest(v)
    ensures u == v
  {
    hide Fields, Record, Chars;
    var x, y := Record(Fields(u)), Record(Fields(v));
    CharsInjective(x, y);
    assert x + [] == x && y + [] == y;
    RecordReads(Fields(u), Fields(v), [], []);
    FieldsInjective(u, v);
  }

  /** A line for one event is never the beginning of a line for another. */
  lemma LineReads(d: Event, e: Event, r: seq<Byte>, q: seq<Byte>)
    requires Line(d) + r == Line(e) + q
    ensures d == e && r == q
  {
    hide Fields, Record;
    var u, v := Unhashed(d.seqNo, d.body, d.previous), Unhashed(e.seqNo, e.body, e.previous);
    RecordReads([d.hash] + Fields(u), [e.hash] + Fields(v), r, q);
    assert ([d.hash] + Fields(u))[1..] == Fields(u) && ([e.hash] + Fields(v))[1..] == Fields(v);
    assert ([d.hash] + Fields(u))[0] == d.hash && ([e.hash] + Fields(v))[0] == e.hash;
    FieldsInjective(u, v);
  }

  lemma {:induction false} StripShape(l: seq<Byte>)
    ensures |Strip(l)| <= |l| && Strip(l) == l[..|Strip(l)|]
    decreases |l|
  {
    if l != [] && l[|l| - 1] == RETURN { StripShape(l[..|l| - 1]); }
  }

  lemma LineBytes(e: Event)
    ensures Line(e) != [] && Line(e)[|Line(e)| - 1] != RETURN && NEWLINE !in Line(e)
  {
    RecordBytes([e.hash] + Fields(Unhashed(e.seqNo, e.body, e.previous)));
  }

  lemma ReadsLine(e: Event)
    ensures Read(Line(e)) == Some(e)
    ensures Line(e) != [] && Line(e)[|Line(e)| - 1] != RETURN && NEWLINE !in Line(e)
  {
    hide Line;
    LineBytes(e);
    assert Strip(Line(e)) == Line(e);
    var d := Read(Line(e)).value;
    assert Line(d) + [] == Line(d) && Line(e) + [] == Line(e);
    LineReads(d, e, [], []);
  }

  lemma GluedIsLost(l: seq<Byte>, e: Event)
    ensures Strip(l + Line(e)) == l + Line(e) && l + Line(e) != []
    ensures Read(l).Some? ==> Read(l + Line(e)) == None
  {
    hide Line;
    ReadsLine(e);
    var x := Line(e);
    assert (l + x)[|l + x| - 1] == x[|x| - 1];
    if Read(l).Some? && Read(l + x).Some? {
      StripShape(l);
      var d, f, tail := Read(l).value, Read(l + x).value, l[|Strip(l)|..];
      assert Line(d) + (tail + x) == l + x && Line(f) + [] == l + x;
      LineReads(d, f, tail + x, []);
      assert false;
    }
  }

  /** The properties asked of a codec can be had together, by one with a blank line that is not empty. */
  lemma PlainIsValid()
    ensures Plain().Valid() && Plain().blank([RETURN])
  {
    hide Line, Digest, Read;
    var c := Plain();
    assert [RETURN][..0] == [];
    forall a, b | c.digest(a) == c.digest(b) ensures a == b { DigestInjective(a, b); }
    forall a ensures c.digest(a) != "" { DigestNotEmpty(a); }
    forall e
      ensures c.parse(c.show(e)) == Some(e)
      ensures NEWLINE !in c.show(e) && c.show(e) != [] && c.show(e)[|c.show(e)| - 1] != RETURN
    {
      ReadsLine(e);
    }
    forall l | c.blank(l) ensures c.parse(l) == None { NothingToRead(l); }
    forall l ensures c.parse(Chomp(l)) == c.parse(l) && (c.blank(Chomp(l)) <==> c.blank(l)) { ReadIgnoresReturn(l); }
    forall l, e
      ensures c.blank(c.Glued(l, e)) ==> c.blank(l)
      ensures c.parse(l).Some? ==> c.parse(c.Glued(l, e)) == None
    {
      GluedIsLost(l, e);
    }
  }

  lemma DigestNotEmpty(u: Unhashed)
    ensures Digest(u) != ""
  {
    RecordBytes(Fields(u));
  }

  lemma NothingToRead(l: seq<Byte>)
    requires Strip(l) == []
    ensures Read(l) == None
  {
    hide Line;
    if Read(l).Some? { ReadsLine(Read(l).value); }
  }

  lemma ReadIgnoresReturn(l: seq<Byte>)
    ensures Strip(Chomp(l)) == Strip(l) && Read(Chomp(l)) == Read(l)
  {}
}
