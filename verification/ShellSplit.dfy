/** Splitting a shell script into the command segments that policy judges one by one. */
module ShellSplit {
  import opened Text
  import opened ShellWords

  datatype Splitter = Splitter(segs: seq<string>, cur: string, subs: seq<string>, sq: bool, dq: bool)

  const START := Splitter([], [], [], false, false)
  const PAREN_MARK := "$(\U{2026})"
  const TICK_MARK := "`\U{2026}`"

  /** The text a substitution leaves over: `inner` was inside it, `rest` follows it. */
  datatype Cut = Cut(inner: string, rest: string, closed: bool)

  function TakeParen(s: string, depth: nat): (r: Cut)
    requires depth > 0
    ensures |r.inner| + |r.rest| <= |s|
    decreases |s|
  {
    if s == [] then Cut([], [], false)
    else if s[0] == ')' && depth == 1 then Cut([], s[1..], true)
    else
      var d := if s[0] == '(' then depth + 1 else if s[0] == ')' then depth - 1 else depth;
      var r := TakeParen(s[1..], d);
      r.(inner := [s[0]] + r.inner)
  }

  function TakeTick(s: string): (r: Cut)
    ensures |r.inner| + |r.rest| <= |s|
  {
    if s == [] then Cut([], [], false)
    else if s[0] == '`' then Cut([], s[1..], true)
    else
      var r := TakeTick(s[1..]);
      r.(inner := [s[0]] + r.inner)
  }

  function Flush(cur: string): seq<string> {
    if Trim(cur) == [] then [] else [Trim(cur)]
  }

  predicate IsSeparator(c: char) {
    c == ';' || c == '\n' || c == '|' || c == '&'
  }

  /** `||` and `&&` are one separator. */
  predicate Doubled(s: string)
    requires s != []
  {
    (s[0] == '|' || s[0] == '&') && |s| > 1 && s[1] == s[0]
  }

  /** What one construct leaves: the text after it, the new state, and whether it was complete. */
  datatype Move = Move(rest: string, st: Splitter, complete: bool)

  function Step(s: string, st: Splitter): (m: Move)
    requires s != []
    ensures |m.rest| < |s|
  {
    var c := s[0];
    if c == '\'' && !st.dq then Move(s[1..], st.(sq := !st.sq, cur := st.cur + [c]), true)
    else if c == '"' && !st.sq then Move(s[1..], st.(dq := !st.dq, cur := st.cur + [c]), true)
    else if c == '\\' && !st.sq then
      if |s| == 1 then Move([], st.(cur := st.cur + [c]), false)
      else Move(s[2..], st.(cur := st.cur + [c, s[1]]), true)
    else if c == '$' && !st.sq && |s| > 1 && s[1] == '(' then
      var cut := TakeParen(s[2..], 1);
      Move(cut.rest, st.(subs := st.subs + [cut.inner], cur := st.cur + PAREN_MARK), cut.closed)
    else if c == '`' && !st.sq then
      var cut := TakeTick(s[1..]);
      Move(cut.rest, st.(subs := st.subs + [cut.inner], cur := st.cur + TICK_MARK), cut.closed)
    else if IsSeparator(c) && !st.sq && !st.dq then
      Move(if Doubled(s) then s[2..] else s[1..], st.(segs := st.segs + Flush(st.cur), cur := []), true)
    else Move(s[1..], st.(cur := st.cur + [c]), true)
  }

  function Split(s: string, st: Splitter): Splitter
    decreases |s|
  {
    if s == [] then st else var m := Step(s, st); Split(m.rest, m.st)
  }

  lemma SplitNone(st: Splitter)
    ensures Split([], st) == st
  {}

  lemma SplitStep(s: string, st: Splitter)
    requires s != []
    ensures Split(s, st) == Split(Step(s, st).rest, Step(s, st).st)
  {}

  /** Read from `st`, the script ends outside quotes, escapes and substitutions. */
  predicate Whole(s: string, st: Splitter)
    decreases |s|
  {
    if s == [] then !st.sq && !st.dq else var m := Step(s, st); m.complete && Whole(m.rest, m.st)
  }

  function MaxLen(ss: seq<string>): nat {
    if ss == [] then 0
    else var m := MaxLen(ss[1..]); if |ss[0]| > m then |ss[0]| else m
  }

  lemma {:induction false} MaxLenBelow(ss: seq<string>, n: nat)
    requires forall i :: 0 <= i < |ss| ==> |ss[i]| < n
    ensures MaxLen(ss) < n || ss == []
    decreases |ss|
  {
    if ss != [] {
      MaxLenBelow(ss[1..], n);
    }
  }

  /** Every substitution is shorter than the script it was found in. */
  lemma {:induction false} SubsShrink(s: string, st: Splitter, n: nat)
    requires |s| <= n && forall i :: 0 <= i < |st.subs| ==> |st.subs[i]| < n
    ensures forall i :: 0 <= i < |Split(s, st).subs| ==> |Split(s, st).subs[i]| < n
    decreases |s|
  {
    if s != [] {
      var m := Step(s, st);
      SubsShrink(m.rest, m.st, n);
    }
  }

  /** The segments written at the top level of the script. */
  function TopSegments(script: string): seq<string> {
    var e := Split(script, START);
    e.segs + Flush(e.cur)
  }

  function Substitutions(script: string): seq<string> {
    Split(script, START).subs
  }

  /** All segments: the script's own, then those of every substitution inside it. */
  function Segments(script: string): seq<string>
    decreases |script|, 0, 0
  {
    var subs := Substitutions(script);
    SubsShrink(script, START, |script|);
    MaxLenBelow(subs, |script|);
    TopSegments(script) + (if subs == [] then [] else SegmentsOf(subs))
  }

  function SegmentsOf(scripts: seq<string>): seq<string>
    decreases MaxLen(scripts), 1, |scripts|
  {
    if scripts == [] then [] else Segments(scripts[0]) + SegmentsOf(scripts[1..])
  }

  lemma SegmentsParts(script: string)
    ensures Segments(script) == TopSegments(script) + SegmentsOf(Substitutions(script))
  {
    SubsShrink(script, START, |script|);
    MaxLenBelow(Substitutions(script), |script|);
  }

  lemma SegmentsOfFirst(scripts: seq<string>, k: nat)
    requires k < |scripts|
    ensures SegmentsOf(scripts[k..]) == Segments(scripts[k]) + SegmentsOf(scripts[k + 1..])
  {
    assert scripts[k..][1..] == scripts[k + 1..];
  }

  method SplitShellSegments(script: string) returns (segs: seq<string>)
    ensures segs == Segments(script)
    decreases |script|
  {
    hide Split, Segments, SegmentsOf;
    segs := [];
    var cur := "";
    var sq, dq := false, false;
    var subs: seq<string> := [];
    var i := 0;
    assert script[0..] == script;
    while i < |script|
      invariant i <= |script|
      invariant Split(script, START) == Split(script[i..], Splitter(segs, cur, subs, sq, dq))
    {
      var c := script[i];
      ghost var here, st := script[i..], Splitter(segs, cur, subs, sq, dq);
      SplitStep(here, st);
      assert here[0] == c && here[1..] == script[i + 1..];
      i := i + 1;
      assert i < |script| ==> here[1] == script[i] && here[2..] == script[i + 1..];
      if c == '\'' && !dq {
        sq := !sq;
        cur := cur + [c];
      } else if c == '"' && !sq {
        dq := !dq;
        cur := cur + [c];
      } else if c == '\\' && !sq {
        cur := cur + [c];
        if i < |script| {
          assert cur + [script[i]] == st.cur + [c, script[i]];
          cur := cur + [script[i]];
          i := i + 1;
        }
      } else if c == '$' && !sq && i < |script| && script[i] == '(' {
        var inner;
        inner, i := ReadParen(script, i + 1);
        subs := subs + [inner];
        cur := cur + PAREN_MARK;
      } else if c == '`' && !sq {
        var inner;
        inner, i := ReadTick(script, i);
        subs := subs + [inner];
        cur := cur + TICK_MARK;
      } else if IsSeparator(c) && !sq && !dq {
        if (c == '|' || c == '&') && i < |script| && script[i] == c {
          i := i + 1;
        }
        if Trim(cur) != [] {
          segs := segs + [Trim(cur)];
        }
        cur := "";
      } else {
        cur := cur + [c];
      }
      assert Step(here, st).rest == script[i..];
      assert Step(here, st).st == Splitter(segs, cur, subs, sq, dq);
    }
    assert script[i..] == [];
    SplitNone(Splitter(segs, cur, subs, sq, dq));
    if Trim(cur) != [] {
      segs := segs + [Trim(cur)];
    }
    SegmentsParts(script);
    SubsShrink(script, START, |script|);
    assert subs[0..] == subs;
    var k := 0;
    while k < |subs|
      invariant k <= |subs|
      invariant Segments(script) == segs + SegmentsOf(subs[k..])
    {
      var more := SplitShellSegments(subs[k]);
      SegmentsOfFirst(subs, k);
      assert segs + (more + SegmentsOf(subs[k + 1..])) == (segs + more) + SegmentsOf(subs[k + 1..]);
      segs := segs + more;
      k := k + 1;
    }
    assert subs[k..] == [];
    SegmentsOfNone();
  }

  lemma SegmentsOfNone()
    ensures SegmentsOf([]) == []
  {}

  /** Read up to the parenthesis that closes `$(`. */
  method ReadParen(script: string, from: nat) returns (inner: string, i: nat)
    requires from <= |script|
    ensures from <= i <= |script|
    ensures inner == TakeParen(script[from..], 1).inner && script[i..] == TakeParen(script[from..], 1).rest
  {
    inner, i := "", from;
    var depth := 1;
    ghost var goal := TakeParen(script[from..], 1);
    while i < |script|
      invariant from <= i <= |script| && depth > 0
      invariant goal.inner == inner + TakeParen(script[i..], depth).inner
      invariant goal.rest == TakeParen(script[i..], depth).rest
    {
      var n := script[i];
      assert script[i..][0] == n && script[i..][1..] == script[i + 1..];
      ghost var was, at := inner, i;
      i := i + 1;
      if n == '(' {
        depth := depth + 1;
      } else if n == ')' {
        depth := depth - 1;
        if depth == 0 {
          break;
        }
      }
      inner := inner + [n];
      assert was + ([n] + TakeParen(script[i..], depth).inner) == inner + TakeParen(script[i..], depth).inner;
    }
  }

  /** Read up to the closing backtick. */
  method ReadTick(script: string, from: nat) returns (inner: string, i: nat)
    requires from <= |script|
    ensures from <= i <= |script|
    ensures inner == TakeTick(script[from..]).inner && script[i..] == TakeTick(script[from..]).rest
  {
    inner, i := "", from;
    ghost var goal := TakeTick(script[from..]);
    while i < |script|
      invariant from <= i <= |script|
      invariant goal.inner == inner + TakeTick(script[i..]).inner
      invariant goal.rest == TakeTick(script[i..]).rest
    {
      var n := script[i];
      assert script[i..][0] == n && script[i..][1..] == script[i + 1..];
      i := i + 1;
      if n == '`' {
        break;
      }
      assert inner + ([n] + TakeTick(script[i..]).inner) == (inner + [n]) + TakeTick(script[i..]).inner;
      inner := inner + [n];
    }
  }

  // -------------------------------------------------------- compositionality

  lemma {:induction false} TakeParenAppend(s: string, r: string, depth: nat)
    requires depth > 0 && TakeParen(s, depth).closed
    ensures var cut := TakeParen(s, depth);
            TakeParen(s + r, depth) == cut.(rest := cut.rest + r)
    decreases |s|
  {
    assert (s + r)[1..] == s[1..] + r;
    if !(s[0] == ')' && depth == 1) {
      var d := if s[0] == '(' then depth + 1 else if s[0] == ')' then depth - 1 else depth;
      TakeParenAppend(s[1..], r, d);
    }
  }

  lemma {:induction false} TakeTickAppend(s: string, r: string)
    requires TakeTick(s).closed
    ensures TakeTick(s + r) == TakeTick(s).(rest := TakeTick(s).rest + r)
    decreases |s|
  {
    assert (s + r)[1..] == s[1..] + r;
    if s[0] != '`' {
      TakeTickAppend(s[1..], r);
    }
  }

  /** `r` is not read as part of what `a` ends with: no `$` + `(`, no `|` + `|`, no `&` + `&`. */
  predicate CleanSeam(a: string, r: string) {
    r != [] && a != [] ==>
      && r[0] != '('
      && (a[|a| - 1] == '|' || a[|a| - 1] == '&' ==> r[0] != a[|a| - 1])
  }

  lemma SeamOfTail(a: string, i: nat, r: string)
    requires i <= |a| && CleanSeam(a, r)
    ensures CleanSeam(a[i..], r)
  {}

  lemma {:induction false} TakeParenTail(s: string, depth: nat) returns (i: nat)
    requires depth > 0
    ensures i <= |s| && TakeParen(s, depth).rest == s[i..]
    decreases |s|
  {
    if s == [] {
      i := 0;
    } else if s[0] == ')' && depth == 1 {
      i := 1;
    } else {
      var d := if s[0] == '(' then depth + 1 else if s[0] == ')' then depth - 1 else depth;
      i := TakeParenTail(s[1..], d);
      i := i + 1;
    }
  }

  lemma {:induction false} TakeTickTail(s: string) returns (i: nat)
    ensures i <= |s| && TakeTick(s).rest == s[i..]
    decreases |s|
  {
    if s == [] {
      i := 0;
    } else if s[0] == '`' {
      i := 1;
    } else {
      i := TakeTickTail(s[1..]);
      i := i + 1;
    }
  }

  lemma RestIsSuffix(s: string, st: Splitter) returns (i: nat)
    requires s != []
    ensures i <= |s| && Step(s, st).rest == s[i..]
  {
    if s[0] == '$' && !st.sq && |s| > 1 && s[1] == '(' {
      var k := TakeParenTail(s[2..], 1);
      assert s[2..][k..] == s[2 + k..];
      i := 2 + k;
    } else if s[0] == '`' && !st.sq {
      var k := TakeTickTail(s[1..]);
      assert s[1..][k..] == s[1 + k..];
      i := 1 + k;
    } else {
      i := if Step(s, st).rest == s[1..] then 1 else |s| - |Step(s, st).rest|;
    }
  }

  lemma StepAppend(a: string, r: string, st: Splitter)
    requires a != [] && Step(a, st).complete && CleanSeam(a, r)
    ensures Step(a + r, st) == Step(a, st).(rest := Step(a, st).rest + r)
  {
    var s := a + r;
    assert s[0] == a[0] && s[1..] == a[1..] + r;
    assert |a| > 1 ==> s[1] == a[1] && s[2..] == a[2..] + r;
    if a[0] == '$' && !st.sq && |a| > 1 && a[1] == '(' {
      TakeParenAppend(a[2..], r, 1);
    } else if a[0] == '`' && !st.sq {
      TakeTickAppend(a[1..], r);
    }
  }

  /** A whole script in front is split exactly as it would be alone. */
  lemma {:induction false} SplitAppend(a: string, r: string, st: Splitter)
    requires Whole(a, st) && CleanSeam(a, r)
    ensures Split(a + r, st) == Split(r, Split(a, st))
    ensures !Split(a, st).sq && !Split(a, st).dq
    decreases |a|
  {
    if a == [] {
      assert a + r == r;
    } else {
      StepAppend(a, r, st);
      var m := Step(a, st);
      var i := RestIsSuffix(a, st);
      SeamOfTail(a, i, r);
      SplitAppend(m.rest, r, m.st);
    }
  }

  function Prefixed(segs: seq<string>, subs: seq<string>, st: Splitter): Splitter {
    st.(segs := segs + st.segs, subs := subs + st.subs)
  }

  lemma StepCarries(s: string, st: Splitter, segs: seq<string>, subs: seq<string>)
    requires s != []
    ensures var m := Step(s, st); Step(s, Prefixed(segs, subs, st)) == m.(st := Prefixed(segs, subs, m.st))
  {
    assert segs + (st.segs + Flush(st.cur)) == (segs + st.segs) + Flush(st.cur);
    var p, t := TakeParen(if |s| > 1 then s[2..] else [], 1).inner, TakeTick(s[1..]).inner;
    assert subs + (st.subs + [p]) == (subs + st.subs) + [p];
    assert subs + (st.subs + [t]) == (subs + st.subs) + [t];
  }

  /** What was collected before is only carried along. */
  lemma {:induction false} SplitCarries(s: string, st: Splitter, segs: seq<string>, subs: seq<string>)
    ensures Split(s, Prefixed(segs, subs, st)) == Prefixed(segs, subs, Split(s, st))
    decreases |s|
  {
    if s != [] {
      StepCarries(s, st, segs, subs);
      var m := Step(s, st);
      SplitCarries(m.rest, m.st, segs, subs);
    }
  }

  lemma {:induction false} SegmentsOfAppend(a: seq<string>, b: seq<string>)
    ensures SegmentsOf(a + b) == SegmentsOf(a) + SegmentsOf(b)
    decreases |a|
  {
    if a == [] {
      assert a + b == b;
    } else {
      SegmentsOfAppend(a[1..], b);
      assert (a + b)[1..] == a[1..] + b;
    }
  }

  /** The separators a script may be joined with. */
  predicate IsOperator(op: string) {
    op == ";" || op == "\n" || op == "|" || op == "&" || op == "||" || op == "&&"
  }

  /** The separator is read as itself between `a` and `b`. */
  predicate SeparatorReadable(a: string, op: string, b: string)
    requires IsOperator(op)
  {
    CleanSeam(a, op) && (|op| == 1 ==> CleanSeam(op, b) || (b != [] && b[0] == '('))
  }

  lemma SplitSingle(c: char, b: string, st: Splitter)
    requires IsSeparator(c) && !st.sq && !st.dq
    requires (c == '|' || c == '&') && b != [] ==> b[0] != c
    ensures Split([c] + b, st) == Split(b, st.(segs := st.segs + Flush(st.cur), cur := []))
  {
    var s := [c] + b;
    assert s[0] == c && s[1..] == b;
    assert b != [] ==> s[1] == b[0];
  }

  lemma SplitDouble(c: char, b: string, st: Splitter)
    requires (c == '|' || c == '&') && !st.sq && !st.dq
    ensures Split([c, c] + b, st) == Split(b, st.(segs := st.segs + Flush(st.cur), cur := []))
  {
    var s := [c, c] + b;
    assert s[0] == c && s[1] == c && s[2..] == b;
  }

  lemma SplitOperator(op: string, b: string, st: Splitter)
    requires IsOperator(op) && !st.sq && !st.dq
    requires |op| == 1 ==> CleanSeam(op, b) || (b != [] && b[0] == '(')
    ensures Split(op + b, st) == Split(b, st.(segs := st.segs + Flush(st.cur), cur := []))
  {
    if |op| == 2 {
      assert op == [op[0], op[0]];
      SplitDouble(op[0], b, st);
    } else {
      assert op == [op[0]];
      SplitSingle(op[0], b, st);
    }
  }

  lemma SplitJoined(a: string, op: string, b: string)
    requires IsOperator(op) && Whole(a, START) && SeparatorReadable(a, op, b)
    ensures TopSegments(a + op + b) == TopSegments(a) + TopSegments(b)
    ensures Substitutions(a + op + b) == Substitutions(a) + Substitutions(b)
  {
    var ea, eb := Split(a, START), Split(b, START);
    assert a + op + b == a + (op + b);
    assert (op + b)[0] == op[0];
    SplitAppend(a, op + b, START);
    SplitOperator(op, b, ea);
    var carried := ea.segs + Flush(ea.cur);
    assert ea.(segs := carried, cur := []) == Prefixed(carried, ea.subs, START) by {
      assert carried + [] == carried && ea.subs + [] == ea.subs;
    }
    SplitCarries(b, START, carried, ea.subs);
    assert carried + eb.segs + Flush(eb.cur) == carried + (eb.segs + Flush(eb.cur));
  }

  lemma MultisetOfFour(p: seq<string>, q: seq<string>, r: seq<string>, s: seq<string>)
    ensures multiset((p + q) + (r + s)) == multiset(p + r) + multiset(q + s)
  {}

  /** Joining scripts joins their segments: own segments first, nested ones after, none lost or merged. */
  lemma SegmentsOfJoined(a: string, op: string, b: string)
    requires IsOperator(op) && Whole(a, START) && SeparatorReadable(a, op, b)
    ensures Segments(a + op + b) ==
            (TopSegments(a) + TopSegments(b)) + (SegmentsOf(Substitutions(a)) + SegmentsOf(Substitutions(b)))
    ensures multiset(Segments(a + op + b)) == multiset(Segments(a)) + multiset(Segments(b))
  {
    SplitJoined(a, op, b);
    SegmentsOfAppend(Substitutions(a), Substitutions(b));
    SegmentsParts(a);
    SegmentsParts(b);
    SegmentsParts(a + op + b);
    MultisetOfFour(TopSegments(a), TopSegments(b), SegmentsOf(Substitutions(a)), SegmentsOf(Substitutions(b)));
  }

  /** For `;` and newline no condition on the neighbours is needed. */
  lemma SegmentsOfSequence(a: string, b: string)
    requires Whole(a, START)
    ensures multiset(Segments(a + ";" + b)) == multiset(Segments(a)) + multiset(Segments(b))
    ensures multiset(Segments(a + "\n" + b)) == multiset(Segments(a)) + multiset(Segments(b))
  {
    SegmentsOfJoined(a, ";", b);
    SegmentsOfJoined(a, "\n", b);
  }

  /** Without the hypothesis the law fails: an open quote swallows the separator. */
  lemma OpenQuoteSwallowsSeparator(b: string)
    requires b != [] && forall i :: 0 <= i < |b| ==> Inert(b[i])
    ensures |Segments("'" + ";" + b)| == 1 && |Segments("'")| == 1 && |Segments(b)| == 1
  {
    hide Split, Segments, SegmentsOf;
    var script, rest := "'" + ";" + b, ";" + b;
    var quoted := START.(sq := true, cur := "'");
    assert script == ['\''] + rest;
    OpenQuoteStep(script, rest, START, quoted);
    QuotedStays(rest, quoted);
    OneSegment(script, quoted.(cur := quoted.cur + rest));
    OpenQuoteStep("'", [], START, quoted);
    SplitNone(quoted);
    OneSegment("'", quoted);
    assert b + [] == b && [] + b == b;
    SplitInert(b, [], START);
    SplitNone(START.(cur := b));
    OneSegment(b, START.(cur := b));
  }

  lemma OneSegment(script: string, e: Splitter)
    requires Split(script, START) == e && e.segs == [] && e.subs == []
    requires e.cur != [] && !IsSpace(e.cur[0])
    ensures |Segments(script)| == 1
  {
    hide Split, Segments;
    TrimEmptyIff(e.cur);
    SegmentsParts(script);
  }

  lemma OpenQuoteStep(s: string, rest: string, st: Splitter, next: Splitter)
    requires s == ['\''] + rest && !st.dq && next == st.(sq := !st.sq, cur := st.cur + ['\''])
    ensures Split(s, st) == Split(rest, next)
  {
    assert s[0] == '\'' && s[1..] == rest;
  }

  lemma {:induction false} QuotedStays(b: string, st: Splitter)
    requires st.sq && !st.dq && '\'' !in b
    ensures Split(b, st) == st.(cur := st.cur + b)
    decreases |b|
  {
    if b == [] {
      assert st.cur + b == st.cur;
    } else {
      assert st.cur + [b[0]] + b[1..] == st.cur + b;
      QuotedStays(b[1..], st.(cur := st.cur + [b[0]]));
    }
  }

  // -------------------------------------------------------- printed commands

  /** Text that splitting passes through: no separator or substitution outside single quotes. */
  lemma {:induction false} SplitInert(w: string, rest: string, st: Splitter)
    requires !st.sq && !st.dq && forall i :: 0 <= i < |w| ==> Inert(w[i])
    ensures Split(w + rest, st) == Split(rest, st.(cur := st.cur + w))
    decreases |w|
  {
    if w == [] {
      assert w + rest == rest && st.cur + w == st.cur;
    } else {
      assert (w + rest)[1..] == w[1..] + rest && st.cur + [w[0]] + w[1..] == st.cur + w;
      SplitInert(w[1..], rest, st.(cur := st.cur + [w[0]]));
    }
  }

  lemma SplitEscapedQuote(s: string, tail: string, st: Splitter, next: Splitter)
    requires st.sq && !st.dq && s == "'\\''" + tail && next == st.(cur := st.cur + "'\\''")
    ensures Split(s, st) == Split(tail, next)
  {
    var s1, s2 := "\\''" + tail, "'" + tail;
    assert s[1..] == s1 && s1[2..] == s2 && s2[1..] == tail;
    var c1 := st.(sq := false, cur := st.cur + "'");
    var c2 := c1.(cur := c1.cur + "\\'");
    assert Step(s, st) == Move(s1, c1, true) && Step(s1, c1) == Move(s2, c2, true);
    assert Step(s2, c2) == Move(tail, next, true) by {
      assert c2.cur + ['\''] == next.cur;
    }
    assert Split(s1, c1) == Split(s2, c2);
  }

  lemma {:induction false} SplitEscaped(w: string, rest: string, st: Splitter)
    requires st.sq && !st.dq
    ensures Split(EscapeQuotes(w) + rest, st) == Split(rest, st.(cur := st.cur + EscapeQuotes(w)))
    decreases |w|
  {
    var q := EscapeQuotes(w);
    if w == [] {
      assert q + rest == rest && st.cur + q == st.cur;
    } else {
      var tail := EscapeQuotes(w[1..]) + rest;
      if w[0] == '\'' {
        var next := st.(cur := st.cur + "'\\''");
        assert q + rest == "'\\''" + tail && next.cur + EscapeQuotes(w[1..]) == st.cur + q;
        SplitEscapedQuote(q + rest, tail, st, next);
        SplitEscaped(w[1..], rest, next);
      } else {
        assert q + rest == [w[0]] + tail && (q + rest)[1..] == tail;
        assert st.cur + [w[0]] + EscapeQuotes(w[1..]) == st.cur + q;
        SplitEscaped(w[1..], rest, st.(cur := st.cur + [w[0]]));
      }
    }
  }

  lemma SplitPrinted(q: string, w: string, rest: string, st: Splitter)
    requires PrintedForm(q, w) && !st.sq && !st.dq
    ensures Split(q + rest, st) == Split(rest, st.(cur := st.cur + q))
  {
    if q == SingleQuoted(w) {
      var tail := "'" + rest;
      assert q + rest == ['\''] + (EscapeQuotes(w) + tail) && (q + rest)[1..] == EscapeQuotes(w) + tail;
      SplitEscaped(w, tail, st.(sq := true, cur := st.cur + "'"));
      assert tail[1..] == rest;
      assert st.cur + "'" + EscapeQuotes(w) + "'" == st.cur + q;
    } else {
      SplitInert(w, rest, st);
    }
  }

  lemma SplitPrintedThenBlank(text: string, q: string, w: string, rest: string, st: Splitter, next: Splitter)
    requires PrintedForm(q, w) && text == q + " " + rest && !st.sq && !st.dq
    requires next == st.(cur := st.cur + q + " ")
    ensures Split(text, st) == Split(rest, next)
  {
    var tail := " " + rest;
    assert text == q + tail && tail[1..] == rest;
    SplitPrinted(q, w, tail, st);
  }

  lemma SplitOnly(q: string, w: string, st: Splitter, end: Splitter)
    requires PrintedForm(q, w) && !st.sq && !st.dq && end == st.(cur := st.cur + q)
    ensures Split(q, st) == end
  {
    assert q + [] == q;
    SplitPrinted(q, w, [], st);
  }

  lemma {:induction false} SplitDisplayed(argv: seq<string>, text: string, st: Splitter, end: Splitter)
    requires text == DisplayArgv(argv) && !st.sq && !st.dq
    requires end == st.(cur := st.cur + text)
    ensures Split(text, st) == end
    decreases |argv|
  {
    hide Split;
    if argv == [] {
      assert st.cur + [] == st.cur;
      SplitNone(st);
    } else {
      var q, more := DisplayedFirst(argv);
      if |argv| == 1 {
        SplitOnly(q, argv[0], st, end);
      } else {
        var next := st.(cur := st.cur + q + " ");
        assert next.cur + more == st.cur + text;
        SplitDisplayed(argv[1..], more, next, end);
        SplitPrintedThenBlank(text, q, argv[0], more, st, next);
      }
    }
  }

  lemma PrintedEnds(q: string, w: string)
    requires PrintedForm(q, w)
    ensures q != [] && !IsSpace(q[0]) && !IsSpace(q[|q| - 1])
  {}

  lemma {:induction false} DisplayedEnds(argv: seq<string>)
    requires argv != []
    ensures var t := DisplayArgv(argv); t != [] && !IsSpace(t[0]) && !IsSpace(t[|t| - 1])
    decreases |argv|
  {
    PrintersPrint(argv[0]);
    PrintedEnds(DisplayWord(argv[0]), argv[0]);
    if |argv| > 1 {
      DisplayedEnds(argv[1..]);
    }
  }

  /** A script whose scan collects nothing but itself is its own only segment. */
  lemma PlainIsItself(text: string)
    requires Split(text, START) == START.(cur := text)
    requires text == [] || (!IsSpace(text[0]) && !IsSpace(text[|text| - 1]))
    ensures Segments(text) == if text == [] then [] else [text]
  {
    hide Split, Segments;
    SegmentsParts(text);
    assert Trim(text) == text;
  }

  /** A displayed command is one segment, namely itself, and hides no substitution. */
  lemma DisplayedIsOneSegment(argv: seq<string>, text: string)
    requires text == DisplayArgv(argv)
    ensures Segments(text) == if argv == [] then [] else [text]
  {
    hide Split, Segments, SegmentsOf;
    assert START.cur + text == text;
    SplitDisplayed(argv, text, START, START.(cur := text));
    if argv != [] {
      DisplayedEnds(argv);
    }
    PlainIsItself(text);
  }

  // ------------------------------------------------------ what splitting adds

  lemma {:induction false} TakeParenCount(c: char, s: string, depth: nat)
    requires depth > 0
    ensures var cut := TakeParen(s, depth); Count(c, cut.inner) + Count(c, cut.rest) <= Count(c, s)
    decreases |s|
  {
    if s != [] && !(s[0] == ')' && depth == 1) {
      var d := if s[0] == '(' then depth + 1 else if s[0] == ')' then depth - 1 else depth;
      TakeParenCount(c, s[1..], d);
      CountAppend(c, [s[0]], TakeParen(s[1..], d).inner);
    }
  }

  lemma {:induction false} TakeTickCount(c: char, s: string)
    ensures var cut := TakeTick(s); Count(c, cut.inner) + Count(c, cut.rest) <= Count(c, s)
    decreases |s|
  {
    if s != [] && s[0] != '`' {
      TakeTickCount(c, s[1..]);
      CountAppend(c, [s[0]], TakeTick(s[1..]).inner);
    }
  }

  function Load(c: char, st: Splitter): nat {
    CountAll(c, st.segs) + Count(c, st.cur) + CountAll(c, st.subs)
  }

  lemma FlushCount(c: char, cur: string)
    ensures CountAll(c, Flush(cur)) <= Count(c, cur)
  {
    TrimCount(c, cur);
  }

  /** Letters are only moved about; the marks that replace substitutions hold none. */
  lemma StepCount(s: string, st: Splitter)
    requires s != []
    ensures var m := Step(s, st); Load('h', m.st) + Count('h', m.rest) <= Load('h', st) + Count('h', s)
  {
    var c := s[0];
    if c == '\\' && !st.sq && |s| > 1 {
      CountAppend('h', st.cur, [c, s[1]]);
      TwoCount(s);
    } else if c == '$' && !st.sq && |s| > 1 && s[1] == '(' {
      TwoCount(s);
      TakeParenCount('h', s[2..], 1);
      MarksCount(st, TakeParen(s[2..], 1).inner);
    } else if c == '`' && !st.sq {
      TakeTickCount('h', s[1..]);
      MarksCount(st, TakeTick(s[1..]).inner);
    } else if IsSeparator(c) && !st.sq && !st.dq {
      FlushCount('h', st.cur);
      CountAllAppend('h', st.segs, Flush(st.cur));
      if Doubled(s) { TwoCount(s); }
    } else {
      CountAppend('h', st.cur, [c]);
    }
  }

  lemma TwoCount(s: string)
    requires |s| > 1
    ensures Count('h', s) == Count('h', [s[0], s[1]]) + Count('h', s[2..])
  {
    assert s == [s[0], s[1]] + s[2..];
    CountAppend('h', [s[0], s[1]], s[2..]);
  }

  lemma {:induction false} SplitCount(s: string, st: Splitter)
    ensures Load('h', Split(s, st)) <= Load('h', st) + Count('h', s)
    decreases |s|
  {
    if s != [] {
      StepCount(s, st);
      var m := Step(s, st);
      SplitCount(m.rest, m.st);
    }
  }

  lemma MarksCount(st: Splitter, inner: string)
    ensures Load('h', st.(subs := st.subs + [inner], cur := st.cur + PAREN_MARK)) == Load('h', st) + Count('h', inner)
    ensures Load('h', st.(subs := st.subs + [inner], cur := st.cur + TICK_MARK)) == Load('h', st) + Count('h', inner)
  {
    CountAllAppend('h', st.subs, [inner]);
    CountAppend('h', st.cur, PAREN_MARK);
    CountAppend('h', st.cur, TICK_MARK);
    assert PAREN_MARK[1..][1..][1..] == ")" && TICK_MARK[1..][1..] == "`";
    assert Count('h', PAREN_MARK) == 0 && Count('h', TICK_MARK) == 0;
  }

  /** All segments together hold no more of the letter `h` than the script. */
  lemma {:induction false} SegmentsCount(script: string)
    ensures CountAll('h', Segments(script)) <= Count('h', script)
    decreases |script|, 0, 0
  {
    var e := Split(script, START);
    SplitCount(script, START);
    SubsShrink(script, START, |script|);
    MaxLenBelow(e.subs, |script|);
    FlushCount('h', e.cur);
    CountAllAppend('h', e.segs, Flush(e.cur));
    if e.subs != [] {
      SegmentsOfCount(e.subs);
    }
    CountAllAppend('h', TopSegments(script), SegmentsOf(e.subs));
  }

  lemma {:induction false} SegmentsOfCount(scripts: seq<string>)
    ensures CountAll('h', SegmentsOf(scripts)) <= CountAll('h', scripts)
    decreases MaxLen(scripts), 1, |scripts|
  {
    if scripts != [] {
      SegmentsCount(scripts[0]);
      SegmentsOfCount(scripts[1..]);
      CountAllAppend('h', Segments(scripts[0]), SegmentsOf(scripts[1..]));
    }
  }
}
