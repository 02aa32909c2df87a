/** Command-pattern wildcards: `*` stands for any run of characters, `?` for one character. */
module Wildcard {

  /** The declared meaning of a pattern, by cases on its first character. */
  ghost predicate Matches(p: string, t: string)
    decreases |p|
  {
    if p == [] then t == []
    else if p[0] == '*' then exists k :: 0 <= k <= |t| && Matches(p[1..], t[k..])
    else t != [] && FitsOne(p[0], t[0]) && Matches(p[1..], t[1..])
  }

  predicate FitsOne(c: char, x: char) {
    c == '?' || c == x
  }

  /** Where the last `*` that was taken as a wildcard stands, and where its run currently ends. */
  datatype Star = NoStar | StarAt(at: nat, mark: nat)

  function StarRank(p: string, s: Star): nat {
    match s
    case NoStar => |p| + 1
    case StarAt(at, _) => if at <= |p| then |p| - at else 0
  }

  ghost predicate Positions(p: string, t: string, pi: nat, ti: nat, s: Star) {
    && pi <= |p| && ti <= |t|
    && (s.StarAt? ==> s.at < pi && s.mark <= ti)
  }

  /** What the scan answers from a given configuration: it remembers only the last star. */
  function Scan(p: string, t: string, pi: nat, ti: nat, s: Star): bool
    requires Positions(p, t, pi, ti, s)
    decreases StarRank(p, s), |t| - (if s.StarAt? then s.mark else 0), |t| - ti
  {
    if ti < |t| then
      if pi < |p| && FitsOne(p[pi], t[ti]) then Scan(p, t, pi + 1, ti + 1, s)
      else if pi < |p| && p[pi] == '*' then Scan(p, t, pi + 1, ti, StarAt(pi, ti))
      else if s.StarAt? then Scan(p, t, s.at + 1, s.mark + 1, StarAt(s.at, s.mark + 1))
      else false
    else AllStars(p[pi..])
  }

  predicate AllStars(p: string) {
    forall i :: 0 <= i < |p| ==> p[i] == '*'
  }

  /** The answer the scan gives for a pattern and a text. */
  function Answer(p: string, t: string): bool {
    Scan(p, t, 0, 0, NoStar)
  }

  method WildcardMatch(pattern: string, text: string) returns (r: bool)
    ensures r == Answer(pattern, text)
    ensures r ==> Matches(pattern, text)
    ensures '*' !in text ==> (r <==> Matches(pattern, text))
  {
    var pi, ti := 0, 0;
    var star, mark := 0, 0;
    var seen := false;
    ghost var s := NoStar;
    while ti < |text|
      invariant s == if seen then StarAt(star, mark) else NoStar
      invariant Positions(pattern, text, pi, ti, s)
      invariant Answer(pattern, text) == Scan(pattern, text, pi, ti, s)
      decreases StarRank(pattern, s), |text| - (if s.StarAt? then s.mark else 0), |text| - ti
    {
      if pi < |pattern| && (pattern[pi] == '?' || pattern[pi] == text[ti]) {
        pi := pi + 1;
        ti := ti + 1;
      } else if pi < |pattern| && pattern[pi] == '*' {
        star, seen := pi, true;
        mark := ti;
        pi := pi + 1;
        s := StarAt(star, mark);
      } else if seen {
        pi := star + 1;
        mark := mark + 1;
        ti := mark;
        s := StarAt(star, mark);
      } else {
        Sound(pattern, text);
        Exact(pattern, text);
        return false;
      }
    }
    ghost var at := pi;
    while pi < |pattern| && pattern[pi] == '*'
      invariant at <= pi <= |pattern|
      invariant forall i :: at <= i < pi ==> pattern[i] == '*'
    {
      pi := pi + 1;
    }
    r := pi == |pattern|;
    assert r == AllStars(pattern[at..]) by {
      if pi < |pattern| {
        assert pattern[at..][pi - at] == pattern[pi];
      }
    }
    Sound(pattern, text);
    Exact(pattern, text);
  }

  // ---------------------------------------------------------------- soundness

  lemma {:induction false} AllStarsMatchNothing(p: string)
    ensures Matches(p, []) <==> AllStars(p)
    decreases |p|
  {
    if p != [] {
      AllStarsMatchNothing(p[1..]);
      var e: string := [];
      assert e[0..] == e;
      if p[0] == '*' {
        assert AllStars(p) <==> AllStars(p[1..]) by {
          if AllStars(p[1..]) {
            forall i | 0 <= i < |p| ensures p[i] == '*' {
              if i > 0 { assert p[1..][i - 1] == p[i]; }
            }
          }
        }
      }
    }
  }

  /** A star may give its text up one character at a time. */
  lemma StarTakesOneMore(p: string, t: string, at: nat, mark: nat)
    requires at < |p| && p[at] == '*' && mark < |t|
    ensures Matches(p[at..], t[mark + 1..]) ==> Matches(p[at..], t[mark..])
  {
    if Matches(p[at..], t[mark + 1..]) {
      var k := SplitAtStar(p, at, t[mark + 1..]);
      assert t[mark + 1..][k..] == t[mark..][k + 1..];
      JoinAtStar(p, at, t[mark..], k + 1);
    }
  }

  lemma StarTakesNothing(p: string, t: string, at: nat, mark: nat)
    requires at < |p| && p[at] == '*' && mark <= |t|
    ensures Matches(p[at + 1..], t[mark..]) ==> Matches(p[at..], t[mark..])
  {
    assert p[at..][1..] == p[at + 1..];
    assert t[mark..][0..] == t[mark..];
  }

  /** A true answer from any configuration is justified by the rest, or by the last star. */
  lemma {:induction false} ScanSound(p: string, t: string, pi: nat, ti: nat, s: Star)
    requires Positions(p, t, pi, ti, s)
    requires s.StarAt? ==> p[s.at] == '*'
    requires Scan(p, t, pi, ti, s)
    ensures Matches(p[pi..], t[ti..]) || (s.StarAt? && Matches(p[s.at..], t[s.mark..]))
    decreases StarRank(p, s), |t| - (if s.StarAt? then s.mark else 0), |t| - ti
  {
    if ti == |t| {
      AllStarsMatchNothing(p[pi..]);
    } else if pi < |p| && FitsOne(p[pi], t[ti]) {
      ScanSound(p, t, pi + 1, ti + 1, s);
      if Matches(p[pi + 1..], t[ti + 1..]) {
        assert p[pi..][1..] == p[pi + 1..] && t[ti..][1..] == t[ti + 1..];
        if p[pi] == '*' {
          assert t[ti..][1..] == t[ti + 1..];
        }
      }
    } else if pi < |p| && p[pi] == '*' {
      ScanSound(p, t, pi + 1, ti, StarAt(pi, ti));
      StarTakesNothing(p, t, pi, ti);
    } else {
      ScanSound(p, t, s.at + 1, s.mark + 1, StarAt(s.at, s.mark + 1));
      StarTakesNothing(p, t, s.at, s.mark + 1);
      StarTakesOneMore(p, t, s.at, s.mark);
    }
  }

  /** Every `true` is a real match, whatever the text contains. */
  lemma Sound(p: string, t: string)
    ensures Answer(p, t) ==> Matches(p, t)
  {
    if Answer(p, t) {
      ScanSound(p, t, 0, 0, NoStar);
      assert p[0..] == p && t[0..] == t;
    }
  }

  // ------------------------------------------------------------- completeness

  /** `p[a..b]` holds no star and fits `t[m..]` character by character. */
  ghost predicate Literal(p: string, a: nat, b: nat, t: string, m: nat)
    requires a <= b <= |p| && m + (b - a) <= |t|
  {
    forall i :: a <= i < b ==> p[i] != '*' && FitsOne(p[i], t[m + (i - a)])
  }

  /** A literal stretch consumes exactly its own length wherever it is placed. */
  lemma {:induction false} LiteralStep(p: string, a: nat, b: nat, u: string)
    requires a <= b <= |p|
    requires forall i :: a <= i < b ==> p[i] != '*'
    requires Matches(p[a..], u)
    ensures b - a <= |u| && Matches(p[b..], u[b - a..])
    ensures forall i :: a <= i < b ==> FitsOne(p[i], u[i - a])
    decreases b - a
  {
    if a < b {
      assert p[a..][0] == p[a] && p[a..][1..] == p[a + 1..];
      LiteralStep(p, a + 1, b, u[1..]);
      assert u[1..][b - a - 1..] == u[b - a..];
      forall i | a <= i < b ensures FitsOne(p[i], u[i - a]) {
        if i > a { assert u[1..][i - (a + 1)] == u[i - a]; }
      }
    } else {
      assert u[0..] == u;
    }
  }

  /** The scan's claim to completeness in one configuration. */
  ghost predicate Owed(p: string, t: string, pi: nat, ti: nat, s: Star)
    requires Positions(p, t, pi, ti, s)
  {
    match s
    case NoStar => Matches(p[pi..], t[ti..])
    case StarAt(at, mark) => Matches(p[at..], t[mark..])
  }

  /** The text read since the last star is read by a literal stretch. */
  ghost predicate Aligned(p: string, t: string, pi: nat, ti: nat, s: Star)
    requires Positions(p, t, pi, ti, s)
  {
    s.StarAt? ==> p[s.at] == '*' && ti - s.mark == pi - (s.at + 1) && Literal(p, s.at + 1, pi, t, s.mark)
  }

  lemma SplitAtStar(p: string, at: nat, u: string) returns (k: nat)
    requires at < |p| && p[at] == '*' && Matches(p[at..], u)
    ensures k <= |u| && Matches(p[at + 1..], u[k..])
  {
    assert p[at..][1..] == p[at + 1..];
    k :| 0 <= k <= |u| && Matches(p[at..][1..], u[k..]);
  }

  lemma JoinAtStar(p: string, at: nat, u: string, k: nat)
    requires at < |p| && p[at] == '*' && k <= |u| && Matches(p[at + 1..], u[k..])
    ensures Matches(p[at..], u)
  {
    assert p[at..][1..] == p[at + 1..];
  }

  /** Committing to the newest star loses nothing: an older split can always be moved to it. */
  lemma LaterStarSuffices(p: string, t: string, pi: nat, ti: nat, s: Star)
    requires Positions(p, t, pi, ti, s) && Aligned(p, t, pi, ti, s)
    requires pi < |p| && p[pi] == '*'
    requires Owed(p, t, pi, ti, s)
    ensures Matches(p[pi..], t[ti..])
  {
    if s.StarAt? {
      var from := t[s.mark..];
      var k := SplitAtStar(p, s.at, from);
      LiteralStep(p, s.at + 1, pi, from[k..]);
      assert from[k..][pi - (s.at + 1)..] == t[ti + k..];
      var j := SplitAtStar(p, pi, t[ti + k..]);
      assert t[ti + k..][j..] == t[ti..][k + j..];
      JoinAtStar(p, pi, t[ti..], k + j);
    }
  }

  /** At a mismatch the current run of the last star is too short. */
  lemma MismatchNeedsMore(p: string, t: string, pi: nat, ti: nat, s: Star)
    requires Positions(p, t, pi, ti, s) && Aligned(p, t, pi, ti, s)
    requires s.StarAt? && ti < |t|
    requires pi == |p| || (p[pi] != '*' && !FitsOne(p[pi], t[ti]))
    requires Matches(p[s.at..], t[s.mark..])
    ensures Matches(p[s.at..], t[s.mark + 1..])
  {
    var from := t[s.mark..];
    var n := pi - (s.at + 1);
    assert from[n..] == t[ti..];
    assert from[0..] == from;
    var k := SplitAtStar(p, s.at, from);
    if k == 0 {
      LiteralStep(p, s.at + 1, pi, from);
      assert false;
    }
    assert from[k..] == t[s.mark + 1..][k - 1..];
    JoinAtStar(p, s.at, t[s.mark + 1..], k - 1);
  }

  lemma {:induction false} ScanComplete(p: string, t: string, pi: nat, ti: nat, s: Star)
    requires '*' !in t
    requires Positions(p, t, pi, ti, s) && Aligned(p, t, pi, ti, s)
    requires Owed(p, t, pi, ti, s)
    ensures Scan(p, t, pi, ti, s)
    decreases StarRank(p, s), |t| - (if s.StarAt? then s.mark else 0), |t| - ti
  {
    if ti == |t| {
      if s.StarAt? {
        var k := SplitAtStar(p, s.at, t[s.mark..]);
        LiteralStep(p, s.at + 1, pi, t[s.mark..][k..]);
        assert t[s.mark..][k..][pi - (s.at + 1)..] == [];
      }
      AllStarsMatchNothing(p[pi..]);
    } else if pi < |p| && FitsOne(p[pi], t[ti]) {
      assert p[pi] != '*';
      assert p[pi..][1..] == p[pi + 1..] && t[ti..][1..] == t[ti + 1..];
      ScanComplete(p, t, pi + 1, ti + 1, s);
    } else if pi < |p| && p[pi] == '*' {
      LaterStarSuffices(p, t, pi, ti, s);
      ScanComplete(p, t, pi + 1, ti, StarAt(pi, ti));
    } else if s.StarAt? {
      MismatchNeedsMore(p, t, pi, ti, s);
      ScanComplete(p, t, s.at + 1, s.mark + 1, StarAt(s.at, s.mark + 1));
    } else {
      assert false;
    }
  }

  /** On texts without `*` the answer is exactly the declared meaning. */
  lemma Exact(p: string, t: string)
    ensures '*' !in t ==> (Answer(p, t) <==> Matches(p, t))
  {
    Sound(p, t);
    if '*' !in t && Matches(p, t) {
      assert p[0..] == p && t[0..] == t;
      ScanComplete(p, t, 0, 0, NoStar);
    }
  }

  // ------------------------------------------- where the answer is incomplete

  /** Without a star recorded, the scan walks both strings in step. */
  lemma {:induction false} InStep(p: string, t: string, i: nat, n: nat)
    requires i <= n <= |p| && n <= |t|
    requires forall j :: i <= j < n ==> FitsOne(p[j], t[j])
    ensures Scan(p, t, i, i, NoStar) == Scan(p, t, n, n, NoStar)
    decreases n - i
  {
    if i < n {
      InStep(p, t, i + 1, n);
    }
  }

  lemma {:induction false} QuestionMarksMatch(p: string, t: string)
    requires |p| == |t| && forall i :: 0 <= i < |p| ==> FitsOne(p[i], t[i])
    ensures Matches(p, t)
    decreases |p|
  {
    if p != [] {
      QuestionMarksMatch(p[1..], t[1..]);
      assert t[1..] == t[1..][0..];
    }
  }

  /** A literal copy of `a` in front changes nothing. */
  lemma {:induction false} CommonFront(a: string, p: string, t: string)
    requires Matches(p, t)
    ensures Matches(a + p, a + t)
    decreases |a|
  {
    if a == [] {
      assert a + p == p && a + t == t;
    } else {
      CommonFront(a[1..], p, t);
      assert (a + p)[1..] == a[1..] + p && (a + t)[1..] == a[1..] + t;
    }
  }

  /** The concrete failing input: `*` as a literal is preferred, and then nothing can be given back. */
  lemma StarInTextIsLost()
    ensures Matches("*x", "*yx") && !Answer("*x", "*yx")
  {
    assert Matches("x", "*yx"[2..]) by {
      assert "x"[1..] == [] && "*yx"[2..] == "x";
    }
    assert "*x"[1..] == "x";
  }

  /** A text is always answered correctly exactly when it holds no `*`. */
  lemma TextIsSafeIff(t: string)
    ensures (forall p :: Answer(p, t) <==> Matches(p, t)) <==> '*' !in t
  {
    if '*' in t {
      var k :| 0 <= k < |t| && t[k] == '*';
      var rest := t[k..];
      var marks := seq(|rest|, i => '?');
      var tail := ['*'] + marks;
      var p := t[..k] + tail;
      assert t == t[..k] + rest;
      assert Matches(tail, rest) by {
        QuestionMarksMatch(marks, rest);
        assert tail[1..] == marks && rest[0..] == rest;
      }
      CommonFront(t[..k], tail, rest);
      forall j | 0 <= j < |t| ensures FitsOne(p[j], t[j]) {
        if j > k { assert p[j] == marks[j - k - 1]; }
      }
      InStep(p, t, 0, |t|);
      assert p[|t|..][0] == marks[|rest| - 1];
      assert Matches(p, t) && !Answer(p, t);
    } else {
      forall p ensures Answer(p, t) <==> Matches(p, t) {
        Exact(p, t);
      }
    }
  }

  ghost predicate LastStar(p: string, k: nat) {
    k < |p| && p[k] == '*' && '*' !in p[k + 1..]
  }

  lemma {:induction false} HasLastStar(p: string) returns (k: nat)
    requires '*' in p
    ensures LastStar(p, k)
    decreases |p|
  {
    var n := |p| - 1;
    if p[n] == '*' {
      k := n;
    } else {
      assert p == p[..n] + [p[n]];
      k := HasLastStar(p[..n]);
      assert p[k + 1..] == p[..n][k + 1..] + [p[n]];
    }
  }

  /** A pattern is answered correctly on every text exactly when it holds no `*`. */
  lemma PatternIsSafeIff(p: string)
    ensures (forall t :: Answer(p, t) <==> Matches(p, t)) <==> '*' !in p
  {
    if '*' in p {
      var k := HasLastStar(p);
      var tail := p[k + 1..];
      var t := p[..k + 1] + ['x'] + tail;
      assert p == p[..k] + p[k..] && t == p[..k] + (['*', 'x'] + tail);
      assert Matches(p[k..], ['*', 'x'] + tail) by {
        QuestionMarksMatch(tail, tail);
        assert p[k..][1..] == tail && (['*', 'x'] + tail)[2..] == tail;
      }
      CommonFront(p[..k], p[k..], ['*', 'x'] + tail);
      InStep(p, t, 0, k + 1);
      NoStarTail(p, t, k + 1);
      assert p[k + 1..] == tail && t[k + 1..] == ['x'] + tail;
      assert tail[0..] == tail && tail[|tail|..] == [];
      if Matches(tail, ['x'] + tail) {
        LiteralStep(tail, 0, |tail|, ['x'] + tail);
        assert false;
      }
      assert Matches(p, t) && !Answer(p, t);
    } else {
      forall t ensures Answer(p, t) <==> Matches(p, t) {
        assert p[0..] == p && t[0..] == t;
        NoStarTail(p, t, 0);
      }
    }
  }

  /** With no star recorded and none ahead, the scan decides the rest position by position. */
  lemma {:induction false} NoStarTail(p: string, t: string, i: nat)
    requires i <= |p| && i <= |t| && '*' !in p[i..]
    ensures Scan(p, t, i, i, NoStar) <==> Matches(p[i..], t[i..])
    decreases |t| - i
  {
    if i == |t| {
      AllStarsMatchNothing(p[i..]);
    } else if i < |p| {
      assert p[i..][0] == p[i];
      assert p[i..][1..] == p[i + 1..] && t[i..][1..] == t[i + 1..];
      if FitsOne(p[i], t[i]) {
        NoStarTail(p, t, i + 1);
      }
    }
  }
}
