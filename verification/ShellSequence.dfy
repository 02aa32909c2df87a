/** Exactly which scripts another one may follow: the converse of the law about joined scripts. */
module ShellSequence {
  import opened Text
  import ShellWords
  import opened ShellSplit

  /** The segments of `a`, the separator and `b` are those of `a` and those of `b`. */
  predicate SequenceLaw(a: string, op: string, b: string) {
    multiset(Segments(a + op + b)) == multiset(Segments(a)) + multiset(Segments(b))
  }

  function Run(n: nat): string {
    if n == 0 then [] else ['h'] + Run(n - 1)
  }

  function Parens(d: nat): string {
    if d == 0 then [] else [')'] + Parens(d - 1)
  }

  /** What ends an open construct: a backtick, brackets, or nothing. */
  function Closer(tick: bool, d: nat): string {
    if tick then "`" else Parens(d)
  }

  /** A separator, what ends an open construct, and letters behind it. */
  function Tail(c: char, closer: string, n: nat): string {
    [c] + (closer + Run(n))
  }

  lemma {:induction false} RunCount(n: nat)
    ensures Count('h', Run(n)) == n
  {
    if n > 0 { RunCount(n - 1); }
  }

  lemma {:induction false} ParensCount(d: nat)
    ensures Count('h', Parens(d)) == 0
  {
    if d > 0 { ParensCount(d - 1); }
  }

  /** A letter or a closing bracket is only taken over. */
  lemma SplitPlain(s: string, rest: string, st: Splitter, next: Splitter)
    requires s != [] && (s[0] == 'h' || s[0] == ')') && s[1..] == rest && next == st.(cur := st.cur + [s[0]])
    ensures Split(s, st) == Split(rest, next)
  {
    SplitStep(s, st);
    hide Split;
  }

  lemma {:induction false} SplitRun(n: nat, st: Splitter)
    ensures Split(Run(n), st) == st.(cur := st.cur + Run(n))
    decreases n
  {
    hide Split;
    if n == 0 {
      assert st.cur + [] == st.cur;
      SplitNone(st);
    } else {
      var next := st.(cur := st.cur + ['h']);
      SplitPlain(Run(n), Run(n - 1), st, next);
      SplitRun(n - 1, next);
      assert next.cur + Run(n - 1) == st.cur + Run(n);
    }
  }

  lemma {:induction false} SplitParens(d: nat, n: nat, st: Splitter)
    ensures Split(Parens(d) + Run(n), st) == st.(cur := st.cur + (Parens(d) + Run(n)))
    decreases d
  {
    hide Split;
    if d == 0 {
      assert Parens(0) + Run(n) == Run(n);
      SplitRun(n, st);
    } else {
      var s, rest, next := Parens(d) + Run(n), Parens(d - 1) + Run(n), st.(cur := st.cur + [')']);
      assert s == [')'] + rest;
      SplitPlain(s, rest, st, next);
      SplitParens(d - 1, n, next);
      assert next.cur + rest == st.cur + s;
    }
  }

  lemma {:induction false} ParensClose(d: nat, n: nat)
    requires d > 0
    ensures TakeParen(Parens(d) + Run(n), d).rest == Run(n)
    decreases d
  {
    var s := Parens(d) + Run(n);
    assert s[0] == ')' && s[1..] == Parens(d - 1) + Run(n);
    if d == 1 {
      assert s[1..] == Run(n);
    } else {
      ParensClose(d - 1, n);
    }
  }

  lemma ParenStep(s: string, t: string, depth: nat, deeper: nat)
    requires s != [] && depth > 0 && !(s[0] == ')' && depth == 1)
    requires deeper == if s[0] == '(' then depth + 1 else if s[0] == ')' then depth - 1 else depth
    ensures TakeParen(s + t, depth).rest == TakeParen(s[1..] + t, deeper).rest
    ensures TakeParen(s, depth).closed == TakeParen(s[1..], deeper).closed
  {
    assert (s + t)[1..] == s[1..] + t;
  }

  lemma {:induction false} OpenParenCloses(s: string, depth: nat, c: char, n: nat) returns (d: nat)
    requires depth > 0 && !TakeParen(s, depth).closed && (c == ';' || c == '\n')
    ensures TakeParen(s + Tail(c, Parens(d), n), depth).rest == Run(n)
    decreases |s|
  {
    if s == [] {
      d := depth;
      ParenStep([c], Parens(d) + Run(n), depth, depth);
      assert [c][1..] + (Parens(d) + Run(n)) == Parens(d) + Run(n);
      assert s + Tail(c, Parens(d), n) == [c] + (Parens(d) + Run(n));
      ParensClose(d, n);
    } else {
      var deeper := if s[0] == '(' then depth + 1 else if s[0] == ')' then depth - 1 else depth;
      assert !(s[0] == ')' && depth == 1);
      hide TakeParen, Tail;
      ParenStep(s, [], depth, deeper);
      d := OpenParenCloses(s[1..], deeper, c, n);
      ParenStep(s, Tail(c, Parens(d), n), depth, deeper);
    }
  }

  lemma {:induction false} OpenTickCloses(s: string, c: char, n: nat)
    requires !TakeTick(s).closed && (c == ';' || c == '\n')
    ensures TakeTick(s + Tail(c, "`", n)).rest == Run(n)
    decreases |s|
  {
    var t := Tail(c, "`", n);
    if s == [] {
      assert s + t == t && t[0] == c && t[1..][0] == '`' && t[1..][1..] == Run(n);
    } else {
      assert (s + t)[1..] == s[1..] + t;
      OpenTickCloses(s[1..], c, n);
    }
  }

  predicate IsMark(m: char) {
    m == '\'' || m == '"' || m == '\\' || m == '$' || m == '`'
  }

  /** Where quotes are open, the quote is still in the segment being read. */
  predicate QuoteKept(st: Splitter) {
    (st.sq ==> '\'' in st.cur) && (st.dq ==> '"' in st.cur)
  }

  lemma StepKeepsQuote(s: string, st: Splitter)
    requires s != [] && QuoteKept(st)
    ensures QuoteKept(Step(s, st).st)
  {
    var next := Step(s, st).st;
    assert st.cur <= next.cur ==> forall c :: c in st.cur ==> c in next.cur;
    if (s[0] == '\'' && !st.dq) || (s[0] == '"' && !st.sq) {
      assert next.cur[|st.cur|] == s[0];
    }
  }

  lemma WhyIncomplete(a: string, st: Splitter)
    requires a != [] && !Step(a, st).complete
    ensures !st.sq
    ensures || a == "\\"
            || (a[0] == '$' && |a| > 1 && a[1] == '(' && !TakeParen(a[2..], 1).closed)
            || (a[0] == '`' && !TakeTick(a[1..]).closed)
  {
    assert |a| == 1 ==> a == [a[0]];
  }

  lemma QuoteSwallows(s: string, st: Splitter, c: char, n: nat)
    requires (st.sq || st.dq) && (c == ';' || c == '\n') && s == [c] + Run(n)
    ensures Split(s, st) == st.(cur := st.cur + [c] + Run(n))
  {
    SplitStep(s, st);
    hide Split;
    assert s[0] == c && s[1..] == Run(n);
    SplitRun(n, st.(cur := st.cur + [c]));
  }

  lemma EscapeSwallows(s: string, st: Splitter, c: char, n: nat)
    requires !st.sq && s == ['\\', c] + Run(n)
    ensures Split(s, st) == st.(cur := st.cur + ['\\', c] + Run(n))
  {
    SplitStep(s, st);
    hide Split;
    assert s[0] == '\\' && s[1] == c && s[2..] == Run(n);
    SplitRun(n, st.(cur := st.cur + ['\\', c]));
  }

  lemma ParenSwallows(s: string, inner: string, st: Splitter, n: nat)
    requires !st.sq && s == ['$', '('] + inner && TakeParen(inner, 1).rest == Run(n)
    ensures Split(s, st).cur == st.cur + PAREN_MARK + Run(n)
  {
    SplitStep(s, st);
    hide Split;
    assert s[0] == '$' && s[1] == '(' && s[2..] == inner;
    SplitRun(n, Step(s, st).st);
  }

  lemma TickSwallows(s: string, inner: string, st: Splitter, n: nat)
    requires !st.sq && s == ['`'] + inner && TakeTick(inner).rest == Run(n)
    ensures Split(s, st).cur == st.cur + TICK_MARK + Run(n)
  {
    SplitStep(s, st);
    hide Split;
    assert s[0] == '`' && s[1..] == inner;
    SplitRun(n, Step(s, st).st);
  }

  lemma OpenTickEnd(a: string, st: Splitter, c: char, n: nat)
    requires a != [] && a[0] == '`' && !TakeTick(a[1..]).closed && !st.sq && (c == ';' || c == '\n')
    ensures Split(a + Tail(c, "`", n), st).cur == st.cur + TICK_MARK + Run(n)
  {
    hide Split, TakeTick, Tail;
    OpenTickCloses(a[1..], c, n);
    var t := Tail(c, "`", n);
    assert a + t == ['`'] + (a[1..] + t);
    TickSwallows(a + t, a[1..] + t, st, n);
  }

  lemma OpenParenEnd(a: string, st: Splitter, c: char, n: nat) returns (d: nat)
    requires |a| > 1 && a[0] == '$' && a[1] == '(' && !TakeParen(a[2..], 1).closed && !st.sq
    requires c == ';' || c == '\n'
    ensures Split(a + Tail(c, Parens(d), n), st).cur == st.cur + PAREN_MARK + Run(n)
  {
    hide Split, TakeParen, Tail;
    d := OpenParenCloses(a[2..], 1, c, n);
    var t := Tail(c, Parens(d), n);
    assert a + t == ['$', '('] + (a[2..] + t);
    ParenSwallows(a + t, a[2..] + t, st, n);
  }

  /** The part of a script that is left open, at its end. */
  lemma OpenEnd(a: string, st: Splitter, c: char, n: nat) returns (tick: bool, d: nat, x: string, m: char)
    requires a != [] && !Step(a, st).complete && (c == ';' || c == '\n')
    ensures m in x && IsMark(m) && Split(a + Tail(c, Closer(tick, d), n), st).cur == x + Run(n)
  {
    WhyIncomplete(a, st);
    hide Split, Step, TakeParen, TakeTick;
    tick, d := a[0] == '`', 0;
    if a == "\\" {
      assert a + Tail(c, Closer(tick, d), n) == ['\\', c] + Run(n);
      EscapeSwallows(a + Tail(c, Closer(tick, d), n), st, c, n);
      x, m := st.cur + ['\\', c], '\\';
    } else if tick {
      OpenTickEnd(a, st, c, n);
      x, m := st.cur + TICK_MARK, '`';
    } else {
      d := OpenParenEnd(a, st, c, n);
      x, m := st.cur + PAREN_MARK, '$';
    }
    assert m == x[|st.cur|];
  }

  /** Behind a script that is not whole, some text lets letters run on into the segment being read. */
  lemma {:induction false} Swallowed(a: string, st: Splitter, c: char, n: nat)
    returns (tick: bool, d: nat, x: string, m: char)
    requires !Whole(a, st) && QuoteKept(st) && (c == ';' || c == '\n')
    ensures m in x && IsMark(m) && Split(a + Tail(c, Closer(tick, d), n), st).cur == x + Run(n)
    decreases |a|
  {
    if a == [] {
      tick, d, x, m := false, 0, st.cur + [c], if st.sq then '\'' else '"';
      assert a + Tail(c, Closer(tick, d), n) == [c] + Run(n);
      QuoteSwallows([c] + Run(n), st, c, n);
    } else if Step(a, st).complete {
      var next := Step(a, st);
      StepKeepsQuote(a, st);
      tick, d, x, m := Swallowed(next.rest, next.st, c, n);
      var t := Tail(c, Closer(tick, d), n);
      StepAppend(a, t, st);
      hide Step, Split;
      SplitStep(a + t, st);
    } else {
      hide Step, Split;
      tick, d, x, m := OpenEnd(a, st, c, n);
    }
  }

  // ------------------------------------------------------------- telling them apart

  lemma {:induction false} MemberCount(words: seq<string>, y: string)
    requires y in words
    ensures Count('h', y) <= ShellWords.CountAll('h', words)
    decreases |words|
  {
    if words[0] != y {
      MemberCount(words[1..], y);
    }
  }

  lemma {:induction false} TrimKeeps(m: char, s: string)
    requires m in s && !IsSpace(m)
    ensures m in TrimStart(s) && m in TrimEnd(s)
    decreases |s|
  {
    if IsSpace(s[0]) {
      assert s == [s[0]] + s[1..];
      TrimKeeps(m, s[1..]);
    }
    if IsSpace(s[|s| - 1]) {
      assert s == s[..|s| - 1] + [s[|s| - 1]];
      TrimKeeps(m, s[..|s| - 1]);
    }
  }

  /** Letters and closing brackets. */
  predicate Unmarked(y: string) {
    forall m :: m in y ==> !IsMark(m)
  }

  lemma {:induction false} RunIsUnmarked(n: nat)
    ensures Unmarked(Run(n)) && forall m :: m in Run(n) ==> !IsSpace(m)
    decreases n
  {
    if n > 0 { RunIsUnmarked(n - 1); }
  }

  lemma {:induction false} ParensAreUnmarked(d: nat)
    ensures Unmarked(Parens(d)) && forall m :: m in Parens(d) ==> !IsSpace(m)
    decreases d
  {
    if d > 0 { ParensAreUnmarked(d - 1); }
  }

  lemma Untrimmed(y: string)
    requires forall m :: m in y ==> !IsSpace(m)
    ensures Trim(y) == y
  {
    assert y != [] ==> y[0] in y && y[|y| - 1] in y;
  }

  /** Brackets and letters are one segment. */
  lemma PlainSegment(d: nat, n: nat)
    requires n > 0
    ensures Segments(Parens(d) + Run(n)) == [Parens(d) + Run(n)]
  {
    var y := Parens(d) + Run(n);
    SplitParens(d, n, START);
    assert START.cur + y == y;
    RunIsUnmarked(n);
    ParensAreUnmarked(d);
    Untrimmed(y);
    assert Run(n) != [];
    assert TopSegments(y) == [y];
    SegmentsParts(y);
  }

  /** The closing text and the letters hold, by themselves, a segment with all the letters and no mark. */
  lemma LettersAlone(tick: bool, d: nat, n: nat) returns (y: string)
    requires n > 0
    ensures y in Segments(Closer(tick, d) + Run(n)) && Unmarked(y) && Count('h', y) == n
  {
    hide Split, Segments, Trim;
    var b := Closer(tick, d) + Run(n);
    RunCount(n);
    RunIsUnmarked(n);
    if tick {
      y := Run(n);
      PlainSegment(0, n);
      assert Parens(0) + y == y;
      OpenTick(b, y);
    } else {
      y := b;
      PlainSegment(d, n);
      ParensAreUnmarked(d);
      ParensCount(d);
      CountAppend('h', Parens(d), Run(n));
    }
  }

  lemma {:induction false} TickOpens(s: string)
    requires '`' !in s
    ensures TakeTick(s) == Cut(s, [], false)
    decreases |s|
  {
    if s != [] {
      TickOpens(s[1..]);
      assert s == [s[0]] + s[1..];
    }
  }

  lemma OpenTick(b: string, y: string)
    requires b == "`" + y && Unmarked(y) && Segments(y) == [y]
    ensures y in Segments(b)
  {
    assert b[0] == '`' && b[1..] == y;
    TickOpens(y);
    SplitStep(b, START);
    SplitNone(START.(subs := [y], cur := TICK_MARK));
    assert Step(b, START).st == START.(subs := [y], cur := TICK_MARK);
    hide Segments, Split, Step;
    SegmentsParts(b);
    SegmentsOfFirst([y], 0);
    assert [y][0..] == [y];
    assert y in SegmentsOf([y]);
  }

  /** No segment of a script whose last segment took all the letters in has them to itself. */
  lemma LettersTaken(script: string, x: string, m: char, n: nat, y: string)
    requires Split(script, START).cur == x + Run(n) && m in x && IsMark(m)
    requires Count('h', script) < n + n && Unmarked(y) && Count('h', y) == n
    ensures y !in Segments(script)
  {
    hide Segments, Split, SegmentsOf;
    var e := Split(script, START);
    SplitCount(script, START);
    CountAppend('h', x, Run(n));
    RunCount(n);
    SegmentsParts(script);
    SegmentsOfCount(e.subs);
    if y in e.segs {
      MemberCount(e.segs, y);
    }
    if y in SegmentsOf(e.subs) {
      MemberCount(SegmentsOf(e.subs), y);
    }
    TrimKeeps(m, x + Run(n));
    TrimKeeps(m, TrimStart(x + Run(n)));
    assert m in Trim(e.cur);
  }

  /** Behind a script that is not whole, the law fails for some script. */
  lemma LawFails(a: string, c: char) returns (b: string)
    requires !Whole(a, START) && (c == ';' || c == '\n')
    ensures !SequenceLaw(a, [c], b)
  {
    hide Segments, Split, Whole;
    var n := Count('h', a) + 1;
    var tick, d, x, m := Swallowed(a, START, c, n);
    b := Closer(tick, d) + Run(n);
    var y := LettersAlone(tick, d, n);
    assert a + [c] + b == a + Tail(c, Closer(tick, d), n);
    TailCount(a, c, tick, d, n);
    LettersTaken(a + [c] + b, x, m, n, y);
    assert multiset(Segments(b))[y] > 0 && multiset(Segments(a + [c] + b))[y] == 0;
  }

  lemma TailCount(a: string, c: char, tick: bool, d: nat, n: nat)
    requires c == ';' || c == '\n'
    ensures Count('h', a + Tail(c, Closer(tick, d), n)) == Count('h', a) + n
  {
    CountAppend('h', a, Tail(c, Closer(tick, d), n));
    CountAppend('h', [c], Closer(tick, d) + Run(n));
    CountAppend('h', Closer(tick, d), Run(n));
    RunCount(n);
    ParensCount(d);
    assert Count('h', [c]) == 0 && Count('h', "`") == 0;
  }

  /** Exactly the whole scripts keep the law, for `;` as for a newline, whatever follows. */
  lemma SequenceLawIff(a: string)
    ensures (forall b :: SequenceLaw(a, ";", b)) <==> Whole(a, START)
    ensures (forall b :: SequenceLaw(a, "\n", b)) <==> Whole(a, START)
  {
    hide Segments, Split, Whole;
    if Whole(a, START) {
      forall b ensures SequenceLaw(a, ";", b) && SequenceLaw(a, "\n", b) {
        SegmentsOfSequence(a, b);
      }
    } else {
      var b := LawFails(a, ';');
      var other := LawFails(a, '\n');
    }
  }
}
