/** Scripts written out from their parts, and what splitting makes of each part. */
module ScriptGrammar {
  import opened Text
  import opened ShellSplit

  /** A part that is read the same outside quotes and between double quotes. */
  datatype Atom =
    | Letter(c: char)
    | Behind(c: char)
    | Substituted(inner: string)
    | Ticked(inner: string)

  datatype Part =
    | Atomic(a: Atom)
    | Single(s: string)
    | Double(atoms: seq<Atom>)
    | Operator(op: string)

  /** Closing brackets match opening ones, `depth` of which were open before. */
  predicate Balanced(s: string, depth: nat) {
    if s == [] then depth == 0
    else if s[0] == '(' then Balanced(s[1..], depth + 1)
    else if s[0] == ')' then depth > 0 && Balanced(s[1..], depth - 1)
    else Balanced(s[1..], depth)
  }

  /** A letter no rule ever looks at, in either context. */
  predicate AtomOk(a: Atom, quoted: bool) {
    match a
    case Letter(c) =>
      c != '"' && c != '\\' && c != '$' && c != '`' && (quoted || (c != '\'' && !IsSeparator(c)))
    case Behind(_) => true
    case Substituted(inner) => Balanced(inner, 0)
    case Ticked(inner) => '`' !in inner
  }

  predicate PartOk(p: Part) {
    match p
    case Atomic(a) => AtomOk(a, false)
    case Single(s) => '\'' !in s
    case Double(atoms) => forall i :: 0 <= i < |atoms| ==> AtomOk(atoms[i], true)
    case Operator(op) => IsOperator(op)
  }

  function AtomText(a: Atom): string {
    match a
    case Letter(c) => [c]
    case Behind(c) => ['\\', c]
    case Substituted(inner) => ['$', '('] + (inner + [')'])
    case Ticked(inner) => ['`'] + (inner + ['`'])
  }

  /** What stays of it in its segment. */
  function AtomKept(a: Atom): string {
    match a
    case Letter(c) => [c]
    case Behind(c) => ['\\', c]
    case Substituted(_) => PAREN_MARK
    case Ticked(_) => TICK_MARK
  }

  /** What it runs. */
  function AtomRuns(a: Atom): seq<string> {
    match a
    case Letter(_) => []
    case Behind(_) => []
    case Substituted(inner) => [inner]
    case Ticked(inner) => [inner]
  }

  function AtomsText(atoms: seq<Atom>): string {
    if atoms == [] then [] else AtomText(atoms[0]) + AtomsText(atoms[1..])
  }

  function AtomsKept(atoms: seq<Atom>): string {
    if atoms == [] then [] else AtomKept(atoms[0]) + AtomsKept(atoms[1..])
  }

  function AtomsRun(atoms: seq<Atom>): seq<string> {
    if atoms == [] then [] else AtomRuns(atoms[0]) + AtomsRun(atoms[1..])
  }

  function PartText(p: Part): string {
    match p
    case Atomic(a) => AtomText(a)
    case Single(s) => ['\''] + (s + ['\''])
    case Double(atoms) => ['"'] + (AtomsText(atoms) + ['"'])
    case Operator(op) => op
  }

  function ScriptText(parts: seq<Part>): string {
    if parts == [] then [] else PartText(parts[0]) + ScriptText(parts[1..])
  }

  /** An operator of one character is not followed by itself. */
  predicate ScriptOk(parts: seq<Part>) {
    && (forall i :: 0 <= i < |parts| ==> PartOk(parts[i]))
    && (forall i :: 0 < i < |parts| && parts[i - 1].Operator? && |parts[i - 1].op| == 1 ==>
          ScriptText(parts[i..]) == [] || ScriptText(parts[i..])[0] != parts[i - 1].op[0])
  }

  /** What one part adds: only an operator outside quotes ends a segment. */
  function PartMeans(p: Part, st: Splitter): Splitter {
    match p
    case Atomic(a) => st.(cur := st.cur + AtomKept(a), subs := st.subs + AtomRuns(a))
    case Single(s) => st.(cur := st.cur + PartText(p))
    case Double(atoms) => st.(cur := st.cur + (['"'] + (AtomsKept(atoms) + ['"'])), subs := st.subs + AtomsRun(atoms))
    case Operator(_) => st.(segs := st.segs + Flush(st.cur), cur := [])
  }

  /** The segments and substitutions of a script, part by part. */
  function Meaning(parts: seq<Part>, st: Splitter): Splitter
    decreases |parts|
  {
    if parts == [] then st else Meaning(parts[1..], PartMeans(parts[0], st))
  }

  lemma {:induction false} ParenTaken(inner: string, rest: string, depth: nat)
    requires depth > 0 && Balanced(inner, depth - 1)
    ensures TakeParen(inner + ([')'] + rest), depth) == Cut(inner, rest, true)
    decreases |inner|
  {
    var s := inner + ([')'] + rest);
    if inner == [] {
      assert s == [')'] + rest && s[1..] == rest;
    } else {
      assert s[0] == inner[0] && s[1..] == inner[1..] + ([')'] + rest);
      var d := if s[0] == '(' then depth + 1 else if s[0] == ')' then depth - 1 else depth;
      ParenTaken(inner[1..], rest, d);
      assert [inner[0]] + inner[1..] == inner;
    }
  }

  lemma {:induction false} TickTaken(inner: string, rest: string)
    requires '`' !in inner
    ensures TakeTick(inner + (['`'] + rest)) == Cut(inner, rest, true)
    decreases |inner|
  {
    var s := inner + (['`'] + rest);
    if inner == [] {
      assert s == ['`'] + rest && s[1..] == rest;
    } else {
      assert s[0] == inner[0] && s[1..] == inner[1..] + (['`'] + rest);
      TickTaken(inner[1..], rest);
      assert [inner[0]] + inner[1..] == inner;
    }
  }

  lemma SplitSubstituted(inner: string, rest: string, s: string, st: Splitter)
    requires Balanced(inner, 0) && !st.sq && s == ['$', '('] + (inner + ([')'] + rest))
    ensures Split(s, st) == Split(rest, st.(cur := st.cur + PAREN_MARK, subs := st.subs + [inner]))
  {
    SplitStep(s, st);
    hide Split;
    assert s[0] == '$' && s[1] == '(' && s[2..] == inner + ([')'] + rest);
    ParenTaken(inner, rest, 1);
  }

  lemma SplitTicked(inner: string, rest: string, s: string, st: Splitter)
    requires '`' !in inner && !st.sq && s == ['`'] + (inner + (['`'] + rest))
    ensures Split(s, st) == Split(rest, st.(cur := st.cur + TICK_MARK, subs := st.subs + [inner]))
  {
    SplitStep(s, st);
    hide Split;
    assert s[0] == '`' && s[1..] == inner + (['`'] + rest);
    TickTaken(inner, rest);
  }

  lemma SplitLetter(c: char, rest: string, s: string, st: Splitter)
    requires AtomOk(Letter(c), st.dq) && !st.sq && s == [c] + rest
    ensures Split(s, st) == Split(rest, st.(cur := st.cur + [c]))
  {
    SplitStep(s, st);
    hide Split;
    assert s[0] == c && s[1..] == rest;
  }

  lemma SplitBehind(c: char, rest: string, s: string, st: Splitter)
    requires !st.sq && s == ['\\', c] + rest
    ensures Split(s, st) == Split(rest, st.(cur := st.cur + ['\\', c]))
  {
    SplitStep(s, st);
    hide Split;
    assert s[0] == '\\' && s[1] == c && s[2..] == rest;
  }

  lemma SplitAtom(a: Atom, rest: string, st: Splitter)
    requires !st.sq && AtomOk(a, st.dq)
    ensures Split(AtomText(a) + rest, st) ==
            Split(rest, st.(cur := st.cur + AtomKept(a), subs := st.subs + AtomRuns(a)))
  {
    hide Split, Balanced;
    var s := AtomText(a) + rest;
    assert st.subs + [] == st.subs;
    match a {
      case Letter(c) =>
        SplitLetter(c, rest, s, st);
      case Behind(c) =>
        SplitBehind(c, rest, s, st);
      case Substituted(inner) =>
        assert s == ['$', '('] + (inner + ([')'] + rest));
        SplitSubstituted(inner, rest, s, st);
      case Ticked(inner) =>
        assert s == ['`'] + (inner + (['`'] + rest));
        SplitTicked(inner, rest, s, st);
    }
  }

  lemma {:induction false} SplitAtoms(atoms: seq<Atom>, rest: string, st: Splitter)
    requires !st.sq && st.dq && forall i :: 0 <= i < |atoms| ==> AtomOk(atoms[i], true)
    ensures Split(AtomsText(atoms) + rest, st) ==
            Split(rest, st.(cur := st.cur + AtomsKept(atoms), subs := st.subs + AtomsRun(atoms)))
    decreases |atoms|
  {
    hide Split, AtomText, AtomKept, AtomRuns, AtomOk;
    if atoms == [] {
      assert AtomsText(atoms) + rest == rest && st.cur + AtomsKept(atoms) == st.cur
             && st.subs + AtomsRun(atoms) == st.subs;
    } else {
      var more := AtomsText(atoms[1..]) + rest;
      var next := st.(cur := st.cur + AtomKept(atoms[0]), subs := st.subs + AtomRuns(atoms[0]));
      assert AtomsText(atoms) + rest == AtomText(atoms[0]) + more;
      SplitAtom(atoms[0], more, st);
      SplitAtoms(atoms[1..], rest, next);
      assert next.cur + AtomsKept(atoms[1..]) == st.cur + AtomsKept(atoms);
      assert next.subs + AtomsRun(atoms[1..]) == st.subs + AtomsRun(atoms);
    }
  }

  lemma SplitQuote(c: char, rest: string, s: string, st: Splitter)
    requires s == [c] + rest && ((c == '\'' && !st.dq) || (c == '"' && !st.sq))
    ensures Split(s, st) ==
            Split(
              rest,
              if c == '\'' then st.(sq := !st.sq, cur := st.cur + [c]) else st.(dq := !st.dq, cur := st.cur + [c]))
  {
    SplitStep(s, st);
    hide Split;
    assert s[0] == c && s[1..] == rest;
  }

  lemma {:induction false} SplitVerbatim(t: string, rest: string, st: Splitter)
    requires st.sq && !st.dq && '\'' !in t
    ensures Split(t + rest, st) == Split(rest, st.(cur := st.cur + t))
    decreases |t|
  {
    if t == [] {
      assert t + rest == rest && st.cur + t == st.cur;
    } else {
      var s := t + rest;
      SplitStep(s, st);
      hide Split;
      assert s[0] == t[0] && s[1..] == t[1..] + rest;
      SplitVerbatim(t[1..], rest, st.(cur := st.cur + [t[0]]));
      assert st.cur + [t[0]] + t[1..] == st.cur + t;
    }
  }

  lemma SplitSingleQuoted(t: string, rest: string, s: string, st: Splitter, next: Splitter)
    requires !st.sq && !st.dq && '\'' !in t
    requires s == ['\''] + (t + (['\''] + rest))
    requires next == st.(cur := st.cur + (['\''] + (t + ['\''])))
    ensures Split(s, st) == Split(rest, next)
  {
    hide Split;
    var tail := ['\''] + rest;
    SplitQuote('\'', t + tail, s, st);
    var inside := st.(sq := true, cur := st.cur + ['\'']);
    SplitVerbatim(t, tail, inside);
    SplitQuote('\'', rest, tail, inside.(cur := inside.cur + t));
    Associative(st.cur, ['\''], t);
    Associative(st.cur, ['\''] + t, ['\'']);
    Associative(['\''], t, ['\'']);
  }

  lemma SplitDoubleQuoted(atoms: seq<Atom>, rest: string, s: string, st: Splitter, next: Splitter)
    requires !st.sq && !st.dq && forall i :: 0 <= i < |atoms| ==> AtomOk(atoms[i], true)
    requires s == ['"'] + (AtomsText(atoms) + (['"'] + rest))
    requires next == st.(cur := st.cur + (['"'] + (AtomsKept(atoms) + ['"'])), subs := st.subs + AtomsRun(atoms))
    ensures Split(s, st) == Split(rest, next)
  {
    hide Split, AtomsText, AtomsKept, AtomsRun, AtomOk;
    var t, kept, tail := AtomsText(atoms), AtomsKept(atoms), ['"'] + rest;
    SplitQuote('"', t + tail, s, st);
    var inside := st.(dq := true, cur := st.cur + ['"']);
    SplitAtoms(atoms, tail, inside);
    SplitQuote('"', rest, tail, inside.(cur := inside.cur + kept, subs := st.subs + AtomsRun(atoms)));
    Associative(st.cur, ['"'], kept);
    Associative(st.cur, ['"'] + kept, ['"']);
    Associative(['"'], kept, ['"']);
  }

  lemma SplitOperatorPart(op: string, rest: string, st: Splitter)
    requires IsOperator(op) && !st.sq && !st.dq
    requires |op| == 1 ==> rest == [] || rest[0] != op[0]
    ensures Split(op + rest, st) == Split(rest, st.(segs := st.segs + Flush(st.cur), cur := []))
  {
    hide Split;
    if |op| == 2 {
      assert op == [op[0], op[0]];
      SplitDouble(op[0], rest, st);
    } else {
      assert op == [op[0]];
      SplitSingle(op[0], rest, st);
    }
  }

  lemma SplitPart(p: Part, rest: string, st: Splitter)
    requires !st.sq && !st.dq && PartOk(p)
    requires p.Operator? && |p.op| == 1 ==> rest == [] || rest[0] != p.op[0]
    ensures Split(PartText(p) + rest, st) == Split(rest, PartMeans(p, st))
    ensures !PartMeans(p, st).sq && !PartMeans(p, st).dq
  {
    hide Split, AtomText, AtomKept, AtomRuns, AtomsText, AtomsKept, AtomsRun, AtomOk, Flush, IsOperator;
    match p {
      case Atomic(a) =>
        SplitAtom(a, rest, st);
      case Single(t) =>
        Associative(['\''], t + ['\''], rest);
        Associative(t, ['\''], rest);
        SplitSingleQuoted(t, rest, PartText(p) + rest, st, PartMeans(p, st));
      case Double(atoms) =>
        var t := AtomsText(atoms);
        Associative(['"'], t + ['"'], rest);
        Associative(t, ['"'], rest);
        SplitDoubleQuoted(atoms, rest, PartText(p) + rest, st, PartMeans(p, st));
      case Operator(op) =>
        SplitOperatorPart(op, rest, st);
    }
  }

  /** Splitting a script that is written out from its parts is what each part says. */
  lemma {:induction false} SplitIsMeaning(parts: seq<Part>, st: Splitter)
    requires !st.sq && !st.dq && ScriptOk(parts)
    ensures Split(ScriptText(parts), st) == Meaning(parts, st)
    decreases |parts|
  {
    hide Split, PartText, PartMeans, PartOk;
    if parts == [] {
      SplitNone(st);
    } else {
      TailOk(parts);
      SplitPart(parts[0], ScriptText(parts[1..]), st);
      SplitIsMeaning(parts[1..], PartMeans(parts[0], st));
    }
  }

  lemma TailOk(parts: seq<Part>)
    requires parts != [] && ScriptOk(parts)
    ensures ScriptOk(parts[1..]) && PartOk(parts[0])
    ensures parts[0].Operator? && |parts[0].op| == 1 ==>
              ScriptText(parts[1..]) == [] || ScriptText(parts[1..])[0] != parts[0].op[0]
  {
    hide PartOk;
    var tail := parts[1..];
    forall i | 0 < i < |tail| && tail[i - 1].Operator? && |tail[i - 1].op| == 1
      ensures ScriptText(tail[i..]) == [] || ScriptText(tail[i..])[0] != tail[i - 1].op[0]
    {
      assert tail[i..] == parts[i + 1..] && tail[i - 1] == parts[i];
    }
    if |parts| > 1 {
      assert parts[1..] == tail;
    }
  }

  /** So quotes and escapes hide every operator in them, and a substitution is run also between double quotes. */
  lemma SegmentsOfParts(parts: seq<Part>)
    requires ScriptOk(parts)
    ensures var e := Meaning(parts, START);
            TopSegments(ScriptText(parts)) == e.segs + Flush(e.cur) && Substitutions(ScriptText(parts)) == e.subs
  {
    hide Split, Meaning;
    SplitIsMeaning(parts, START);
  }
}
