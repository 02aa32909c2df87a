/** Words of a command line: the tokenizer and the two printers it inverts. */
module ShellWords {
  import opened Text

  /** Tokenizer state: finished words, the word being read, whether it has begun, open quotes. */
  datatype Reader = Reader(out: seq<string>, cur: string, has: bool, sq: bool, dq: bool)

  const FRESH := Reader([], [], false, false, false)

  /** One character outside an escape. */
  function Feed(c: char, st: Reader): Reader {
    if c == '\'' && !st.dq then st.(sq := !st.sq, has := true)
    else if c == '"' && !st.sq then st.(dq := !st.dq, has := true)
    else if IsSpace(c) && !st.sq && !st.dq then
      if st.has then st.(out := st.out + [st.cur], cur := [], has := false) else st
    else st.(cur := st.cur + [c], has := true)
  }

  /** One construct: a plain character, or a backslash with the character it protects. */
  function Step(s: string, st: Reader): (r: (string, Reader))
    requires s != []
    ensures |r.0| < |s|
  {
    if s[0] == '\\' && !st.sq then
      if |s| == 1 then ([], st)
      else (s[2..], st.(cur := st.cur + [s[1]], has := true))
    else (s[1..], Feed(s[0], st))
  }

  function Read(s: string, st: Reader): Reader
    decreases |s|
  {
    if s == [] then st else var (rest, next) := Step(s, st); Read(rest, next)
  }

  function Finish(st: Reader): seq<string> {
    if st.has then st.out + [st.cur] else st.out
  }

  /** The words of a text. */
  function Words(s: string): seq<string> {
    Finish(Read(s, FRESH))
  }

  method Tokenize(s: string) returns (out: seq<string>)
    ensures out == Words(s)
  {
    out := [];
    var cur, has := "", false;
    var sq, dq := false, false;
    var i := 0;
    while i < |s|
      invariant i <= |s|
      invariant Read(s, FRESH) == Read(s[i..], Reader(out, cur, has, sq, dq))
    {
      var c := s[i];
      assert s[i..][0] == c && s[i..][1..] == s[i + 1..];
      i := i + 1;
      if c == '\'' && !dq {
        sq := !sq;
        has := true;
      } else if c == '"' && !sq {
        dq := !dq;
        has := true;
      } else if c == '\\' && !sq {
        if i < |s| {
          assert s[i - 1..][1] == s[i] && s[i - 1..][2..] == s[i + 1..];
          cur := cur + [s[i]];
          has := true;
          i := i + 1;
        }
      } else if IsSpace(c) && !sq && !dq {
        if has {
          out := out + [cur];
          cur := "";
          has := false;
        }
      } else {
        cur := cur + [c];
        has := true;
      }
    }
    if has {
      out := out + [cur];
    }
  }

  // ----------------------------------------------------------------- printers

  /** Characters the command printer leaves unquoted. */
  predicate DisplayPlain(c: char) {
    IsAlphanumeric(c) || c in "-_./=:,@+%"
  }

  /** Characters the hook's word printer leaves unquoted. */
  predicate HookPlain(c: char) {
    IsAlphanumeric(c) || c in "/._-:=@+,"
  }

  /** Characters no quoting rule, separator or expansion ever looks at. */
  predicate Inert(c: char) {
    !IsSpace(c) && c !in "'\"\\$`;\n|&"
  }

  lemma PlainIsInert(c: char)
    ensures DisplayPlain(c) ==> Inert(c)
    ensures HookPlain(c) ==> Inert(c)
  {}

  /** Each quote becomes: close, escaped quote, reopen. */
  function EscapeQuotes(w: string): string {
    if w == [] then []
    else (if w[0] == '\'' then "'\\''" else [w[0]]) + EscapeQuotes(w[1..])
  }

  function SingleQuoted(w: string): string {
    "'" + EscapeQuotes(w) + "'"
  }

  function DisplayWord(w: string): string {
    if w != [] && forall i :: 0 <= i < |w| ==> DisplayPlain(w[i]) then w else SingleQuoted(w)
  }

  function ShQuote(s: string): string {
    if s != [] && forall i :: 0 <= i < |s| ==> HookPlain(s[i]) then s else SingleQuoted(s)
  }

  function DisplayArgv(argv: seq<string>): string {
    if argv == [] then []
    else if |argv| == 1 then DisplayWord(argv[0])
    else DisplayWord(argv[0]) + " " + DisplayArgv(argv[1..])
  }

  /** `q` is a printed form of `w`: either harmless characters as they are, or quoted. */
  ghost predicate PrintedForm(q: string, w: string) {
    || (q == w && w != [] && forall i :: 0 <= i < |w| ==> Inert(w[i]))
    || q == SingleQuoted(w)
  }

  lemma PrintersPrint(w: string)
    ensures PrintedForm(DisplayWord(w), w)
    ensures PrintedForm(ShQuote(w), w)
  {
    forall i | 0 <= i < |w| ensures (DisplayPlain(w[i]) || HookPlain(w[i])) ==> Inert(w[i]) {
      PlainIsInert(w[i]);
    }
  }

  // --------------------------------------------------------------- round trip

  lemma {:induction false} ReadInert(w: string, rest: string, st: Reader)
    requires !st.sq && !st.dq
    requires forall i :: 0 <= i < |w| ==> Inert(w[i])
    ensures Read(w + rest, st) == Read(rest, st.(cur := st.cur + w, has := st.has || w != []))
    decreases |w|
  {
    if w == [] {
      assert w + rest == rest && st.cur + w == st.cur;
    } else {
      assert (w + rest)[1..] == w[1..] + rest;
      assert st.cur + [w[0]] + w[1..] == st.cur + w;
      ReadInert(w[1..], rest, Feed(w[0], st));
    }
  }

  lemma {:induction false} ReadEscaped(w: string, rest: string, st: Reader)
    requires st.sq && !st.dq && st.has
    ensures Read(EscapeQuotes(w) + rest, st) == Read(rest, st.(cur := st.cur + w))
    decreases |w|
  {
    if w == [] {
      assert EscapeQuotes(w) + rest == rest && st.cur + w == st.cur;
    } else {
      var tail := EscapeQuotes(w[1..]) + rest;
      assert st.cur + [w[0]] + w[1..] == st.cur + w;
      if w[0] == '\'' {
        var s := EscapeQuotes(w) + rest;
        assert s == "'\\''" + tail;
        var s1, s2 := "\\''" + tail, "'" + tail;
        var closed := st.(sq := false, has := true);
        assert s[1..] == s1 && s1[2..] == s2 && s2[1..] == tail;
        assert Read(s, st) == Read(s1, closed);
        assert Read(s1, closed) == Read(s2, closed.(cur := st.cur + ['\'']));
        assert Read(s2, closed.(cur := st.cur + ['\''])) == Read(tail, st.(cur := st.cur + ['\'']));
        ReadEscaped(w[1..], rest, st.(cur := st.cur + ['\'']));
      } else {
        assert EscapeQuotes(w) + rest == [w[0]] + tail;
        ReadEscaped(w[1..], rest, Feed(w[0], st));
      }
    }
  }

  /** Reading a printed word adds exactly that word's characters, and leaves no quote open. */
  lemma ReadPrinted(q: string, w: string, rest: string, st: Reader)
    requires PrintedForm(q, w) && !st.sq && !st.dq
    ensures Read(q + rest, st) == Read(rest, st.(cur := st.cur + w, has := true))
  {
    if q == SingleQuoted(w) {
      var tail := "'" + rest;
      assert q + rest == ['\''] + (EscapeQuotes(w) + tail);
      assert (q + rest)[1..] == EscapeQuotes(w) + tail;
      ReadEscaped(w, tail, st.(sq := true, has := true));
      assert tail[1..] == rest;
    } else {
      ReadInert(w, rest, st);
    }
  }

  /** A printed word and the blank after it finish one word. */
  lemma ReadPrintedThenBlank(text: string, q: string, w: string, rest: string, out: seq<string>)
    requires PrintedForm(q, w) && text == q + " " + rest
    ensures Read(text, FRESH.(out := out)) == Read(rest, FRESH.(out := out + [w]))
  {
    var tail := " " + rest;
    assert text == q + tail && [] + w == w;
    ReadPrinted(q, w, tail, FRESH.(out := out));
    assert tail[1..] == rest;
  }

  /** The printed text, taken apart at its first word. */
  lemma DisplayedFirst(argv: seq<string>) returns (q: string, more: string)
    requires argv != []
    ensures PrintedForm(q, argv[0]) && more == DisplayArgv(argv[1..])
    ensures DisplayArgv(argv) == if |argv| == 1 then q else q + " " + more
  {
    PrintersPrint(argv[0]);
    q, more := DisplayWord(argv[0]), DisplayArgv(argv[1..]);
  }

  lemma {:induction false} ReadDisplayed(argv: seq<string>, text: string, out: seq<string>)
    requires text == DisplayArgv(argv)
    ensures Finish(Read(text, FRESH.(out := out))) == out + argv
    decreases |argv|
  {
    hide Read;
    if argv == [] {
      assert out + argv == out;
      ReadNone(FRESH.(out := out));
    } else {
      var q, more := DisplayedFirst(argv);
      if |argv| == 1 {
        ReadOnly(q, argv[0], out);
      } else {
        var first, rest := argv[0], argv[1..];
        ReadDisplayed(rest, more, out + [first]);
        ReadPrintedThenBlank(text, q, first, more, out);
        hide DisplayArgv, Finish;
        Associative(out, [first], rest);
        assert [first] + rest == argv;
      }
    }
  }

  lemma ReadNone(st: Reader)
    ensures Read([], st) == st
  {}

  lemma ReadOnly(q: string, w: string, out: seq<string>)
    requires PrintedForm(q, w)
    ensures Finish(Read(q, FRESH.(out := out))) == out + [w]
  {
    assert q + [] == q && [] + w == w;
    ReadPrinted(q, w, [], FRESH.(out := out));
  }

  /** The tokenizer reads back every argument list the printer wrote. */
  lemma DisplayRoundTrip(argv: seq<string>)
    ensures Words(DisplayArgv(argv)) == argv
  {
    ReadDisplayed(argv, DisplayArgv(argv), []);
    assert [] + argv == argv;
  }

  /** The hook's printer is read back as the one word it was given. */
  lemma ShQuoteRoundTrip(s: string)
    ensures Words(ShQuote(s)) == [s]
  {
    PrintersPrint(s);
    assert ShQuote(s) + [] == ShQuote(s) && [] + s == s;
    ReadPrinted(ShQuote(s), s, [], FRESH);
  }

  /** Different argument lists are never displayed alike. */
  lemma DisplayInjective(a: seq<string>, b: seq<string>)
    requires DisplayArgv(a) == DisplayArgv(b)
    ensures a == b
  {
    DisplayRoundTrip(a);
    DisplayRoundTrip(b);
  }

  // ----------------------------------------------- what the tokenizer can add

  function CountAll(c: char, words: seq<string>): nat {
    if words == [] then 0 else Count(c, words[0]) + CountAll(c, words[1..])
  }

  lemma {:induction false} CountAllAppend(c: char, a: seq<string>, b: seq<string>)
    ensures CountAll(c, a + b) == CountAll(c, a) + CountAll(c, b)
    decreases |a|
  {
    if a == [] {
      assert a + b == b;
    } else {
      CountAllAppend(c, a[1..], b);
      assert (a + b)[1..] == a[1..] + b;
    }
  }

  function Load(c: char, st: Reader): nat {
    CountAll(c, st.out) + Count(c, st.cur)
  }

  lemma PushCount(c: char, x: char, st: Reader)
    ensures Load(c, st.(cur := st.cur + [x], has := true)) == Load(c, st) + if x == c then 1 else 0
  {
    CountAppend(c, st.cur, [x]);
  }

  lemma FeedCount(c: char, x: char, st: Reader)
    requires st.has || st.cur == []
    ensures Load(c, Feed(x, st)) <= Load(c, st) + if x == c then 1 else 0
    ensures Feed(x, st).has || Feed(x, st).cur == []
  {
    PushCount(c, x, st);
    CountAllAppend(c, st.out, [st.cur]);
  }

  lemma StepCount(c: char, s: string, st: Reader)
    requires s != [] && (st.has || st.cur == [])
    ensures var (rest, e) := Step(s, st);
            (e.has || e.cur == []) && Load(c, e) + Count(c, rest) <= Load(c, st) + Count(c, s)
  {
    FeedCount(c, s[0], st);
    if |s| > 1 {
      PushCount(c, s[1], st);
      assert s[1..][1..] == s[2..];
    }
  }

  lemma {:induction false} ReadCount(c: char, s: string, st: Reader)
    requires st.has || st.cur == []
    ensures var e := Read(s, st);
            (e.has || e.cur == []) && Load(c, e) <= Load(c, st) + Count(c, s)
    decreases |s|
  {
    if s != [] {
      var (rest, next) := Step(s, st);
      StepCount(c, s, st);
      ReadCount(c, rest, next);
    }
  }

  /** Tokenizing invents no character. */
  lemma WordsCount(c: char, s: string)
    ensures CountAll(c, Words(s)) <= Count(c, s)
  {
    ReadCount(c, s, FRESH);
    var e := Read(s, FRESH);
    CountAllAppend(c, e.out, [e.cur]);
  }
}
