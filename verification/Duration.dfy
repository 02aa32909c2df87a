/** Durations people write: `45m`, `1h30m`, `500ms`, or a bare number of seconds. A duration is its milliseconds. */
module Duration {
  import opened Text
  import opened Decimal

  const TWO_TO_64: nat := 0x1_0000_0000_0000_0000

  /** `Overflow` stands for arithmetic the program does not guard: it would panic or wrap. */
  datatype Parsed = Ok(ms: nat) | Malformed | Overflow

  datatype Unit = Millis | Seconds | Minutes | Hours | Days
  {
    function Text(): (s: string)
      ensures s != [] && forall i :: 0 <= i < |s| ==> !IsDigit(s[i]) && !IsSpace(s[i])
    {
      match this
      case Millis => "ms"
      case Seconds => "s"
      case Minutes => "m"
      case Hours => "h"
      case Days => "d"
    }

    function Ms(): nat {
      match this
      case Millis => 1
      case Seconds => 1_000
      case Minutes => 60_000
      case Hours => 3_600_000
      case Days => 86_400_000
    }
  }

  function UnitOf(s: string): Option<Unit> {
    if s == "ms" then Some(Millis)
    else if s == "s" then Some(Seconds)
    else if s == "m" then Some(Minutes)
    else if s == "h" then Some(Hours)
    else if s == "d" then Some(Days)
    else None
  }

  /** An unsigned 64-bit number: digits after at most one plus sign. */
  function ParseU64(s: string): Option<nat> {
    var digits := if s != [] && s[0] == '+' then s[1..] else s;
    if digits != [] && AllDigits(digits) && Value(digits) < TWO_TO_64 then Some(Value(digits)) else None
  }

  /** `n` units; seconds are counted in 64 bits. */
  function Amount(n: nat, unit: Unit): Parsed {
    if unit.Millis? || n * unit.Ms() < TWO_TO_64 * 1_000 then Ok(n * unit.Ms()) else Overflow
  }

  function Plus(total: nat, n: nat, unit: Unit): Parsed {
    var amount := Amount(n, unit);
    if amount.Ok? && total + amount.ms < TWO_TO_64 * 1_000 then Ok(total + amount.ms) else Overflow
  }

  /** How many characters the unit at the front of `s` takes: `ms` is one unit, not minutes and then seconds. */
  function UnitLength(s: string): (k: nat)
    requires s != []
    ensures 1 <= k <= |s|
  {
    if s[0] == 'm' && |s| > 1 && s[1] == 's' then 2 else 1
  }

  function ReadTerms(s: string, num: string, total: nat, any: bool): Parsed
    decreases |s|
  {
    if s == [] then
      if num != [] || !any then Malformed else Ok(total)
    else if IsDigit(s[0]) then
      ReadTerms(s[1..], num + [s[0]], total, any)
    else
      var k := UnitLength(s);
      var n := ParseU64(num);
      var unit := UnitOf(s[..k]);
      if n.None? || unit.None? then Malformed
      else
        var sum := Plus(total, n.value, unit.value);
        if sum.Ok? then ReadTerms(s[k..], [], sum.ms, true) else sum
  }

  function Parse(s: string): Parsed {
    var t := Trim(s);
    if t == [] then Malformed
    else
      var n := ParseU64(t);
      if n.Some? then Ok(n.value * 1_000) else ReadTerms(t, [], 0, false)
  }

  method ParseDuration(s: string) returns (r: Parsed)
    ensures r == Parse(s)
  {
    var t := Trim(s);
    if t == [] {
      return Malformed;
    }
    var seconds := ParseU64(t);
    if seconds.Some? {
      return Ok(seconds.value * 1_000);
    }
    var total, num, i, any := 0, [], 0, false;
    assert t[0..] == t;
    while i < |t|
      invariant 0 <= i <= |t|
      invariant ReadTerms(t[i..], num, total, any) == Parse(s)
    {
      var c := t[i];
      var rest := t[i..];
      assert rest[1..] == t[i + 1..];
      i := i + 1;
      if IsDigit(c) {
        num := num + [c];
        continue;
      }
      var unit := [c];
      if c == 'm' && i < |t| && t[i] == 's' {
        unit := unit + [t[i]];
        i := i + 1;
      }
      assert rest[..UnitLength(rest)] == unit && rest[UnitLength(rest)..] == t[i..];
      var n := ParseU64(num);
      if n.None? {
        return Malformed;
      }
      num := [];
      var u := UnitOf(unit);
      if u.None? {
        return Malformed;
      }
      var sum := Plus(total, n.value, u.value);
      if !sum.Ok? {
        return sum;
      }
      total := sum.ms;
      any := true;
    }
    assert t[i..] == [];
    if num != [] || !any {
      return Malformed;
    }
    return Ok(total);
  }

  // ------------------------------------------------------------------ printing

  datatype Term = Term(n: nat, unit: Unit)

  function Write(terms: seq<Term>): string {
    if terms == [] then [] else Show(terms[0].n) + terms[0].unit.Text() + Write(terms[1..])
  }

  function Sum(terms: seq<Term>): nat {
    if terms == [] then 0 else terms[0].n * terms[0].unit.Ms() + Sum(terms[1..])
  }

  function Part(n: nat, unit: Unit, shown: bool): seq<Term> {
    if shown then [Term(n, unit)] else []
  }

  function Clock(h: nat, m: nat, sec: nat): seq<Term> {
    Part(h, Hours, h > 0) + Part(m, Minutes, m > 0) + Part(sec, Seconds, sec > 0 || (h == 0 && m == 0))
  }

  function Parts(ms: nat): seq<Term> {
    var s := ms / 1_000;
    if ms % 1_000 != 0 && s == 0 then Part(ms, Millis, true) else Clock(s / 3_600, s % 3_600 / 60, s % 60)
  }

  function Display(ms: nat): string {
    Write(Parts(ms))
  }

  lemma {:induction false} Joined(a: seq<Term>, b: seq<Term>)
    ensures Write(a + b) == Write(a) + Write(b) && Sum(a + b) == Sum(a) + Sum(b)
    decreases |a|
  {
    if a == [] {
      assert a + b == b;
    } else {
      assert (a + b)[1..] == a[1..] + b;
      Joined(a[1..], b);
    }
  }

  lemma PartWrites(n: nat, unit: Unit, shown: bool)
    ensures Write(Part(n, unit, shown)) == if shown then Show(n) + unit.Text() else ""
    ensures Sum(Part(n, unit, shown)) == if shown then n * unit.Ms() else 0
  {
    if shown {
      assert Write(Part(n, unit, shown)) == Show(n) + unit.Text() + Write([]);
    }
  }

  /** What a clock's terms write, piece by piece. */
  lemma ClockWrites(h: nat, m: nat, sec: nat)
    ensures Write(Clock(h, m, sec))
         == (if h > 0 then Show(h) + "h" else "")
            + (if m > 0 then Show(m) + "m" else "")
            + (if sec > 0 || (h == 0 && m == 0) then Show(sec) + "s" else "")
    ensures Sum(Clock(h, m, sec)) == (h * 3_600 + m * 60 + sec) * 1_000
  {
    hide Write, Sum, Show, Part;
    var hs := Part(h, Hours, h > 0);
    var mins := Part(m, Minutes, m > 0);
    var secs := Part(sec, Seconds, sec > 0 || (h == 0 && m == 0));
    Joined(hs + mins, secs);
    Joined(hs, mins);
    PartWrites(h, Hours, h > 0);
    PartWrites(m, Minutes, m > 0);
    PartWrites(sec, Seconds, sec > 0 || (h == 0 && m == 0));
  }

  method Print(ms: nat) returns (out: string)
    ensures out == Display(ms)
  {
    hide Write, Show, Clock, Sum;
    var s := ms / 1_000;
    if ms % 1_000 != 0 && s == 0 {
      PartWrites(ms, Millis, true);
      return Show(ms) + "ms";
    }
    out := PrintClock(s / 3_600, s % 3_600 / 60, s % 60);
  }

  method PrintClock(h: nat, m: nat, sec: nat) returns (out: string)
    ensures out == Write(Clock(h, m, sec))
  {
    ClockWrites(h, m, sec);
    hide Write, Show, Clock, Sum;
    out := "";
    if h > 0 {
      out := out + Show(h) + "h";
    }
    if m > 0 {
      out := out + Show(m) + "m";
    }
    if sec > 0 || out == "" {
      out := out + Show(sec) + "s";
    }
  }

  // ---------------------------------------------------------------- round trip

  lemma {:induction false} DigitsAreCollected(ds: string, rest: string, num: string, total: nat, any: bool)
    requires AllDigits(ds)
    ensures ReadTerms(ds + rest, num, total, any) == ReadTerms(rest, num + ds, total, any)
    decreases |ds|
  {
    var s := ds + rest;
    if ds == [] {
      assert s == rest && num + ds == num;
    } else {
      assert s[1..] == ds[1..] + rest;
      DigitsAreCollected(ds[1..], rest, num + [ds[0]], total, any);
      assert num + [ds[0]] + ds[1..] == num + ds;
    }
  }

  lemma ShownNumberParses(n: nat)
    ensures ParseU64(Show(n)) == if n < TWO_TO_64 then Some(n) else None
  {
    ShowValue(n);
    assert IsDigit(Show(n)[0]);
  }

  lemma UnitTextIsRead(unit: Unit, rest: string, s: string)
    requires s == unit.Text() + rest && (rest == [] || IsDigit(rest[0]))
    ensures UnitLength(s) == |unit.Text()| && UnitOf(s[..UnitLength(s)]) == Some(unit) && s[UnitLength(s)..] == rest
    ensures !IsDigit(s[0])
  {
    assert s[..|unit.Text()|] == unit.Text();
  }

  lemma WrittenStartsWithDigit(terms: seq<Term>)
    ensures Write(terms) == [] || IsDigit(Write(terms)[0])
    ensures Write(terms) == [] <==> terms == []
  {}

  lemma TermIsRead(t: Term, rest: string, total: nat, any: bool)
    requires rest == [] || IsDigit(rest[0])
    ensures ReadTerms(Show(t.n) + t.unit.Text() + rest, [], total, any)
         == (if t.n >= TWO_TO_64 then Malformed
             else var sum := Plus(total, t.n, t.unit);
                  if sum.Ok? then ReadTerms(rest, [], sum.ms, true) else sum)
  {
    var tail := t.unit.Text() + rest;
    assert Show(t.n) + t.unit.Text() + rest == Show(t.n) + tail;
    DigitsAreCollected(Show(t.n), tail, [], total, any);
    assert [] + Show(t.n) == Show(t.n);
    UnitTextIsRead(t.unit, rest, tail);
    ShownNumberParses(t.n);
  }

  predicate Fits(terms: seq<Term>, total: nat) {
    (forall i :: 0 <= i < |terms| ==> terms[i].n < TWO_TO_64) && total + Sum(terms) < TWO_TO_64 * 1_000
  }

  /** Any list of terms reads back as its sum exactly when nothing overflows 64 bits. */
  lemma {:induction false} TermsAreRead(terms: seq<Term>, total: nat, any: bool)
    requires total < TWO_TO_64 * 1_000 && (any || terms != [])
    ensures ReadTerms(Write(terms), [], total, any) == Parsed.Ok(total + Sum(terms)) <==> Fits(terms, total)
    ensures ReadTerms(Write(terms), [], total, any).Ok? ==> Fits(terms, total)
    decreases |terms|
  {
    if terms != [] {
      var t, rest := terms[0], terms[1..];
      WrittenStartsWithDigit(rest);
      TermIsRead(t, Write(rest), total, any);
      assert forall i :: 0 < i < |terms| ==> terms[i] == rest[i - 1];
      var sum := Plus(total, t.n, t.unit);
      if t.n < TWO_TO_64 && sum.Ok? {
        TermsAreRead(rest, sum.ms, true);
        assert Fits(terms, total) <==> Fits(rest, sum.ms) by {
          assert Fits(terms, total) ==> Fits(rest, sum.ms);
          if Fits(rest, sum.ms) {
            forall i | 0 <= i < |terms| ensures terms[i].n < TWO_TO_64 {
              assert i > 0 ==> terms[i] == rest[i - 1];
            }
          }
        }
      }
    }
  }

  lemma {:induction false} WrittenEndsInUnit(terms: seq<Term>)
    requires terms != []
    ensures var s := Write(terms);
            s != [] && !IsSpace(s[0]) && !IsSpace(s[|s| - 1]) && !IsDigit(s[|s| - 1]) && IsDigit(s[0])
  {
    var rest := terms[1..];
    if rest != [] {
      WrittenEndsInUnit(rest);
    }
  }

  /** What is written with units is never mistaken for a bare number, nor trimmed. */
  lemma WrittenParses(terms: seq<Term>)
    requires terms != []
    ensures Parse(Write(terms)) == ReadTerms(Write(terms), [], 0, false)
  {
    WrittenEndsInUnit(terms);
    var s := Write(terms);
    assert Trim(s) == s;
    assert s[0] != '+';
  }

  lemma PartsAddUp(ms: nat)
    ensures Sum(Parts(ms)) == if ms < 1_000 then ms else ms / 1_000 * 1_000
    ensures Parts(ms) != []
  {
    var s := ms / 1_000;
    var h, m, sec := s / 3_600, s % 3_600 / 60, s % 60;
    assert s == h * 3_600 + m * 60 + sec;
    ClockWrites(h, m, sec);
    PartWrites(ms, Millis, true);
    hide Sum, Write;
  }

  /** What is displayed reads back, rounded down to whole seconds from one second on. */
  lemma DisplayParses(ms: nat)
    requires ms < TWO_TO_64 * 1_000
    ensures Parse(Display(ms)) == Parsed.Ok(if ms < 1_000 then ms else ms / 1_000 * 1_000)
  {
    PartsAddUp(ms);
    NumbersFit(ms);
    hide Sum, Write, Parts, Clock, Parse, ReadTerms;
    WrittenParses(Parts(ms));
    TermsAreRead(Parts(ms), 0, false);
  }

  lemma NumbersFit(ms: nat)
    requires ms < TWO_TO_64 * 1_000
    ensures forall i :: 0 <= i < |Parts(ms)| ==> Parts(ms)[i].n < TWO_TO_64
  {
    var s := ms / 1_000;
    assert s < TWO_TO_64;
    assert s / 3_600 <= s && s % 3_600 / 60 < 60 && s % 60 < 60;
  }

  /** So the round trip is exact for whole seconds, and for milliseconds below one second, and for nothing else. */
  lemma RoundTripIff(ms: nat)
    requires ms < TWO_TO_64 * 1_000
    ensures Parse(Display(ms)) == Parsed.Ok(ms) <==> ms < 1_000 || ms % 1_000 == 0
  {
    DisplayParses(ms);
  }

  // ------------------------------------------------------------------ grammar

  /** One term as it is written: any digits, leading zeros included, and a unit. */
  datatype Word = Word(digits: string, unit: Unit)
  {
    predicate IsNumber() {
      digits != [] && AllDigits(digits)
    }
  }

  ghost predicate AreNumbers(ws: seq<Word>) {
    forall i :: 0 <= i < |ws| ==> ws[i].IsNumber()
  }

  function Spelled(ws: seq<Word>): string {
    if ws == [] then [] else ws[0].digits + ws[0].unit.Text() + Spelled(ws[1..])
  }

  function TermsOf(ws: seq<Word>): (terms: seq<Term>)
    requires AreNumbers(ws)
    ensures |terms| == |ws|
    ensures forall i :: 0 <= i < |ws| ==> terms[i] == Term(Value(ws[i].digits), ws[i].unit)
  {
    if ws == [] then [] else [Term(Value(ws[0].digits), ws[0].unit)] + TermsOf(ws[1..])
  }

  lemma NumberParses(digits: string)
    requires digits != [] && AllDigits(digits)
    ensures ParseU64(digits) == if Value(digits) < TWO_TO_64 then Some(Value(digits)) else None
    ensures ParseU64("+" + digits) == ParseU64(digits)
  {
    assert ("+" + digits)[1..] == digits;
    assert IsDigit(digits[0]);
  }

  /** A number with nothing behind it counts seconds, blanks around it aside; one over 64 bits is refused. */
  lemma BareNumberIsSeconds(l: string, digits: string, r: string)
    requires digits != [] && AllDigits(digits) && IsBlank(l) && IsBlank(r)
    ensures Parse(l + digits + r)
         == if Value(digits) < TWO_TO_64 then Parsed.Ok(Value(digits) * 1_000) else Malformed
    ensures Parse(l + ("+" + digits) + r) == Parse(l + digits + r)
  {
    var n := |digits| - 1;
    assert IsDigit(digits[0]) && IsDigit(digits[n]);
    TrimIs(l, digits, r);
    TrimIs(l, "+" + digits, r);
    NumberParses(digits);
    assert digits + [] == digits && [] + digits == digits;
    DigitsAreCollected(digits, [], [], 0, false);
    assert !IsDigit(("+" + digits)[0]) && ParseU64([]) == None;
  }

  lemma {:induction false} SpelledStarts(ws: seq<Word>)
    requires AreNumbers(ws)
    ensures Spelled(ws) == [] <==> ws == []
    ensures ws != [] ==> var s := Spelled(ws); IsDigit(s[0]) && !IsDigit(s[|s| - 1]) && !IsSpace(s[|s| - 1])
    decreases |ws|
  {
    if ws != [] {
      assert AreNumbers(ws[1..]);
      SpelledStarts(ws[1..]);
      assert ws[0].IsNumber();
    }
  }

  lemma WordIsRead(w: Word, rest: string, total: nat, any: bool)
    requires w.IsNumber() && (rest == [] || IsDigit(rest[0]))
    ensures ReadTerms(w.digits + w.unit.Text() + rest, [], total, any)
         == (if Value(w.digits) >= TWO_TO_64 then Malformed
             else var sum := Plus(total, Value(w.digits), w.unit);
                  if sum.Ok? then ReadTerms(rest, [], sum.ms, true) else sum)
  {
    var tail := w.unit.Text() + rest;
    assert w.digits + w.unit.Text() + rest == w.digits + tail;
    DigitsAreCollected(w.digits, tail, [], total, any);
    assert [] + w.digits == w.digits;
    UnitTextIsRead(w.unit, rest, tail);
    NumberParses(w.digits);
  }

  /** Spelled words are read as their sum, if everything fits. */
  lemma {:induction false} WordsAreRead(ws: seq<Word>, total: nat, any: bool)
    requires AreNumbers(ws) && total < TWO_TO_64 * 1_000 && (any || ws != [])
    ensures ReadTerms(Spelled(ws), [], total, any).Ok? <==> Fits(TermsOf(ws), total)
    ensures Fits(TermsOf(ws), total) ==>
              ReadTerms(Spelled(ws), [], total, any) == Parsed.Ok(total + Sum(TermsOf(ws)))
    decreases |ws|
  {
    if ws != [] {
      var w, rest := ws[0], ws[1..];
      assert w.IsNumber() && AreNumbers(rest);
      SpelledStarts(rest);
      WordIsRead(w, Spelled(rest), total, any);
      var t, terms := Term(Value(w.digits), w.unit), TermsOf(rest);
      assert TermsOf(ws) == [t] + terms;
      FitsFront(t, terms, total);
      var sum := Plus(total, t.n, t.unit);
      if t.n < TWO_TO_64 && sum.Ok? {
        WordsAreRead(rest, sum.ms, true);
      }
    }
  }

  lemma FitsFront(t: Term, terms: seq<Term>, total: nat)
    ensures Sum([t] + terms) == t.n * t.unit.Ms() + Sum(terms)
    ensures Fits([t] + terms, total) <==>
            t.n < TWO_TO_64 && Plus(total, t.n, t.unit).Ok? && Fits(terms, Plus(total, t.n, t.unit).ms)
  {
    var all := [t] + terms;
    assert all[1..] == terms && all[0] == t;
    assert forall i :: 0 < i < |all| ==> all[i] == terms[i - 1];
    assert forall i :: 0 <= i < |terms| ==> terms[i] == all[i + 1];
    assert Fits(all, total) ==> t.n < TWO_TO_64;
    assert (forall i :: 0 <= i < |all| ==> all[i].n < TWO_TO_64)
      <==> t.n < TWO_TO_64 && forall i :: 0 <= i < |terms| ==> terms[i].n < TWO_TO_64;
  }

  /** Whatever is read was spelled in words: `num` are the digits of the first one read so far. */
  lemma {:induction false} ReadWasSpelled(s: string, num: string, total: nat, any: bool) returns (ws: seq<Word>)
    requires AllDigits(num) && ReadTerms(s, num, total, any).Ok?
    ensures AreNumbers(ws) && Spelled(ws) == num + s && (any || ws != [])
    decreases |s|
  {
    if s == [] {
      ws := [];
    } else if IsDigit(s[0]) {
      ws := ReadWasSpelled(s[1..], num + [s[0]], total, any);
      assert num + [s[0]] + s[1..] == num + s;
    } else {
      var k := UnitLength(s);
      var unit := UnitOf(s[..k]).value;
      var sum := Plus(total, ParseU64(num).value, unit);
      assert num != [] && unit.Text() == s[..k];
      hide UnitLength, Plus, ParseU64, UnitOf, ReadTerms, AreNumbers;
      var rest := ReadWasSpelled(s[k..], [], sum.ms, true);
      assert Spelled(rest) == s[k..];
      ws := [Word(num, unit)] + rest;
      SpelledFront(Word(num, unit), rest, s);
    }
  }

  lemma SpelledFront(w: Word, rest: seq<Word>, s: string)
    requires w.IsNumber() && AreNumbers(rest) && s == w.unit.Text() + Spelled(rest)
    ensures AreNumbers([w] + rest) && Spelled([w] + rest) == w.digits + s
  {
    assert ([w] + rest)[1..] == rest;
    Associative(w.digits, w.unit.Text(), Spelled(rest));
  }

  /**
   * The grammar of durations: a bare number of seconds, or words of digits and a unit, with blanks around
   * them, and numbers and sum within 64 bits. Nothing else is a duration, and each means its sum.
   */
  lemma ParsesIff(s: string, ms: nat)
    ensures Parse(s) == Parsed.Ok(ms) <==>
            || (exists digits :: IsBare(digits, Trim(s), ms))
            || exists ws: seq<Word> :: IsWritten(ws, Trim(s), ms)
  {
    var t := Trim(s);
    BareIff(t, ms);
    assert ParseU64(t).Some? ==> Parse(s) == Parsed.Ok(ParseU64(t).value * 1_000);
    hide ParseU64, IsBare;
    forall ws: seq<Word> | IsWritten(ws, t, ms)
      ensures ParseU64(t) == None && Parse(s) == Parsed.Ok(ms)
    {
      SpelledStarts(ws);
      WordsAreRead(ws, 0, false);
      NotBare(t);
    }
    if Parse(s) == Parsed.Ok(ms) && ParseU64(t).None? {
      var ws := ReadWasSpelled(t, [], 0, false);
      assert [] + t == t;
      WordsAreRead(ws, 0, false);
      assert IsWritten(ws, t, ms);
    }
  }

  lemma NotBare(t: string)
    requires t != [] && IsDigit(t[0]) && !IsDigit(t[|t| - 1])
    ensures ParseU64(t) == None
  {}

  lemma BareIff(t: string, ms: nat)
    ensures (exists digits :: IsBare(digits, t, ms)) <==> ParseU64(t).Some? && ms == ParseU64(t).value * 1_000
  {
    forall digits | IsBare(digits, t, ms) ensures ParseU64(t) == Some(Value(digits)) {
      NumberParses(digits);
    }
    if ParseU64(t).Some? {
      assert IsBare(if t[0] == '+' then t[1..] else t, t, ParseU64(t).value * 1_000);
    }
  }

  ghost predicate IsBare(digits: string, t: string, ms: nat) {
    && digits != [] && AllDigits(digits) && Value(digits) < TWO_TO_64 && ms == Value(digits) * 1_000
    && (t == digits || t == "+" + digits)
  }

  ghost predicate IsWritten(ws: seq<Word>, t: string, ms: nat) {
    ws != [] && AreNumbers(ws) && Spelled(ws) == t && Fits(TermsOf(ws), 0) && Sum(TermsOf(ws)) == ms
  }
}
