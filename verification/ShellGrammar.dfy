/** Command lines and scripts written out from their parts, and what reading them makes of each part. */
module ShellGrammar {
  import opened Text
  import ShellWords
  import ShellSplit

  // ---------------------------------------------------------------------- words

  /** What stands between double quotes: a character as it is, or one behind a backslash. */
  datatype Item = Raw(c: char) | Protected(c: char)

  datatype Piece = Plain(c: char) | Escaped(c: char) | Single(s: string) | Double(items: seq<Item>)

  predicate ItemOk(i: Item) {
    i.Raw? ==> i.c != '"' && i.c != '\\'
  }

  predicate PieceOk(p: Piece) {
    match p
    case Plain(c) => !IsSpace(c) && c != '\'' && c != '"' && c != '\\'
    case Escaped(_) => true
    case Single(s) => '\'' !in s
    case Double(items) => forall i :: 0 <= i < |items| ==> ItemOk(items[i])
  }

  function ItemText(i: Item): string {
    if i.Raw? then [i.c] else ['\\', i.c]
  }

  function ItemsText(items: seq<Item>): string {
    if items == [] then [] else ItemText(items[0]) + ItemsText(items[1..])
  }

  function ItemsMean(items: seq<Item>): string {
    if items == [] then [] else [items[0].c] + ItemsMean(items[1..])
  }

  function PieceText(p: Piece): string {
    match p
    case Plain(c) => [c]
    case Escaped(c) => ['\\', c]
    case Single(s) => ['\''] + s + ['\'']
    case Double(items) => ['"'] + ItemsText(items) + ['"']
  }

  function PieceMeans(p: Piece): string {
    match p
    case Plain(c) => [c]
    case Escaped(c) => [c]
    case Single(s) => s
    case Double(items) => ItemsMean(items)
  }

  type Word = seq<Piece>

  function WordText(w: Word): string {
    if w == [] then [] else PieceText(w[0]) + WordText(w[1..])
  }

  function WordMeans(w: Word): string {
    if w == [] then [] else PieceMeans(w[0]) + WordMeans(w[1..])
  }

  predicate WordOk(w: Word) {
    w != [] && forall i :: 0 <= i < |w| ==> PieceOk(w[i])
  }

  /** A command line: words with blanks behind them. */
  function LineText(words: seq<Word>, gaps: seq<string>): string
    requires |gaps| == |words|
  {
    if words == [] then [] else WordText(words[0]) + gaps[0] + LineText(words[1..], gaps[1..])
  }

  function LineMeans(words: seq<Word>): seq<string> {
    if words == [] then [] else [WordMeans(words[0])] + LineMeans(words[1..])
  }

  lemma ReadStep(s: string, st: ShellWords.Reader)
    requires s != []
    ensures ShellWords.Read(s, st) == ShellWords.Read(ShellWords.Step(s, st).0, ShellWords.Step(s, st).1)
  {}

  lemma ReadOne(c: char, rest: string, s: string, st: ShellWords.Reader)
    requires s == [c] + rest && (c != '\\' || st.sq)
    ensures ShellWords.Read(s, st) == ShellWords.Read(rest, ShellWords.Feed(c, st))
  {
    ReadStep(s, st);
    hide ShellWords.Read;
    assert s[0] == c && s[1..] == rest;
  }

  lemma ReadProtected(c: char, rest: string, s: string, st: ShellWords.Reader)
    requires s == ['\\', c] + rest && !st.sq
    ensures ShellWords.Read(s, st) == ShellWords.Read(rest, st.(cur := st.cur + [c], has := true))
  {
    ReadStep(s, st);
    hide ShellWords.Read;
    assert s[0] == '\\' && s[1] == c && s[2..] == rest;
  }

  lemma {:induction false} ReadSingle(s: string, rest: string, st: ShellWords.Reader)
    requires st.sq && !st.dq && st.has && '\'' !in s
    ensures ShellWords.Read(s + rest, st) == ShellWords.Read(rest, st.(cur := st.cur + s))
    decreases |s|
  {
    hide ShellWords.Read;
    if s == [] {
      assert s + rest == rest && st.cur + s == st.cur;
    } else {
      ReadOne(s[0], s[1..] + rest, s + rest, st);
      ReadSingle(s[1..], rest, ShellWords.Feed(s[0], st));
      assert st.cur + [s[0]] + s[1..] == st.cur + s;
    }
  }

  lemma ReadItem(i: Item, rest: string, st: ShellWords.Reader)
    requires st.dq && !st.sq && st.has && ItemOk(i)
    ensures ShellWords.Read(ItemText(i) + rest, st) == ShellWords.Read(rest, st.(cur := st.cur + [i.c]))
  {
    hide ShellWords.Read;
    if i.Raw? {
      ReadOne(i.c, rest, ItemText(i) + rest, st);
    } else {
      ReadProtected(i.c, rest, ItemText(i) + rest, st);
    }
  }

  lemma {:induction false} ReadItems(items: seq<Item>, rest: string, st: ShellWords.Reader)
    requires st.dq && !st.sq && st.has && forall i :: 0 <= i < |items| ==> ItemOk(items[i])
    ensures ShellWords.Read(ItemsText(items) + rest, st) == ShellWords.Read(rest, st.(cur := st.cur + ItemsMean(items)))
    decreases |items|
  {
    hide ShellWords.Read, ItemText, ItemOk;
    if items == [] {
      assert ItemsText(items) + rest == rest && st.cur + ItemsMean(items) == st.cur;
    } else {
      var more, next := ItemsText(items[1..]) + rest, st.(cur := st.cur + [items[0].c]);
      assert ItemsText(items) + rest == ItemText(items[0]) + more;
      ReadItem(items[0], more, st);
      ReadItems(items[1..], rest, next);
      assert next.cur + ItemsMean(items[1..]) == st.cur + ItemsMean(items);
    }
  }

  lemma ReadSingleQuoted(t: string, rest: string, s: string, st: ShellWords.Reader)
    requires !st.sq && !st.dq && '\'' !in t && s == ['\''] + (t + (['\''] + rest))
    ensures ShellWords.Read(s, st) == ShellWords.Read(rest, st.(cur := st.cur + t, has := true))
  {
    hide ShellWords.Read;
    var tail, inside := ['\''] + rest, st.(sq := true, has := true);
    ReadOne('\'', t + tail, s, st);
    ReadSingle(t, tail, inside);
    ReadOne('\'', rest, tail, inside.(cur := st.cur + t));
  }

  lemma ReadDoubleQuoted(items: seq<Item>, rest: string, s: string, st: ShellWords.Reader)
    requires !st.sq && !st.dq && forall i :: 0 <= i < |items| ==> ItemOk(items[i])
    requires s == ['"'] + (ItemsText(items) + (['"'] + rest))
    ensures ShellWords.Read(s, st) == ShellWords.Read(rest, st.(cur := st.cur + ItemsMean(items), has := true))
  {
    hide ShellWords.Read, ItemsText, ItemsMean, ItemOk;
    var tail, inside := ['"'] + rest, st.(dq := true, has := true);
    ReadOne('"', ItemsText(items) + tail, s, st);
    ReadItems(items, tail, inside);
    ReadOne('"', rest, tail, inside.(cur := st.cur + ItemsMean(items)));
  }

  lemma ReadPiece(p: Piece, rest: string, st: ShellWords.Reader)
    requires !st.sq && !st.dq && PieceOk(p)
    ensures ShellWords.Read(PieceText(p) + rest, st) ==
            ShellWords.Read(rest, st.(cur := st.cur + PieceMeans(p), has := true))
  {
    hide ShellWords.Read, ItemsText, ItemsMean, ItemOk;
    var text := PieceText(p) + rest;
    match p {
      case Plain(c) =>
        ReadOne(c, rest, text, st);
      case Escaped(c) =>
        ReadProtected(c, rest, text, st);
      case Single(s) =>
        Associative(['\''] + s, ['\''], rest);
        Associative(['\''], s, ['\''] + rest);
        ReadSingleQuoted(s, rest, text, st);
      case Double(items) =>
        Associative(['"'] + ItemsText(items), ['"'], rest);
        Associative(['"'], ItemsText(items), ['"'] + rest);
        ReadDoubleQuoted(items, rest, text, st);
    }
  }

  lemma {:induction false} ReadWord(w: Word, rest: string, st: ShellWords.Reader)
    requires !st.sq && !st.dq && forall i :: 0 <= i < |w| ==> PieceOk(w[i])
    ensures ShellWords.Read(WordText(w) + rest, st) ==
            ShellWords.Read(rest, st.(cur := st.cur + WordMeans(w), has := st.has || w != []))
    decreases |w|
  {
    hide ShellWords.Read, PieceText, PieceMeans, PieceOk;
    if w == [] {
      assert WordText(w) + rest == rest && st.cur + WordMeans(w) == st.cur;
    } else {
      var more, next := WordText(w[1..]) + rest, st.(cur := st.cur + PieceMeans(w[0]), has := true);
      assert WordText(w) + rest == PieceText(w[0]) + more;
      ReadPiece(w[0], more, st);
      ReadWord(w[1..], rest, next);
      assert next.cur + WordMeans(w[1..]) == st.cur + WordMeans(w);
    }
  }

  lemma {:induction false} ReadGap(g: string, rest: string, st: ShellWords.Reader)
    requires IsBlank(g) && !st.sq && !st.dq && !st.has
    ensures ShellWords.Read(g + rest, st) == ShellWords.Read(rest, st)
    decreases |g|
  {
    hide ShellWords.Read;
    if g == [] {
      assert g + rest == rest;
    } else {
      ReadOne(g[0], g[1..] + rest, g + rest, st);
      ReadGap(g[1..], rest, st);
    }
  }

  lemma ReadFirst(w: Word, g: string, more: string, text: string, out: seq<string>)
    requires WordOk(w) && g != [] && IsBlank(g) && text == WordText(w) + (g + more)
    ensures ShellWords.Read(text, ShellWords.FRESH.(out := out)) ==
            ShellWords.Read(more, ShellWords.FRESH.(out := out + [WordMeans(w)]))
  {
    hide ShellWords.Read, WordText, WordMeans;
    var st, said := ShellWords.FRESH.(out := out), WordMeans(w);
    ReadWord(w, g + more, st);
    assert [] + said == said && g + more == [g[0]] + (g[1..] + more);
    ReadOne(g[0], g[1..] + more, g + more, st.(cur := said, has := true));
    ReadGap(g[1..], more, st.(out := out + [said]));
  }

  lemma {:induction false} ReadLine(words: seq<Word>, gaps: seq<string>, rest: string, out: seq<string>)
    requires |gaps| == |words|
    requires forall i :: 0 <= i < |words| ==> WordOk(words[i]) && gaps[i] != [] && IsBlank(gaps[i])
    ensures ShellWords.Read(LineText(words, gaps) + rest, ShellWords.FRESH.(out := out)) ==
            ShellWords.Read(rest, ShellWords.FRESH.(out := out + LineMeans(words)))
    decreases |words|
  {
    hide ShellWords.Read, WordText, WordMeans, IsBlank, WordOk;
    if words == [] {
      assert LineText(words, gaps) + rest == rest && out + LineMeans(words) == out;
    } else {
      var w, g, after := WordText(words[0]), gaps[0], LineText(words[1..], gaps[1..]);
      Associative(w + g, after, rest);
      Associative(w, g, after + rest);
      ReadFirst(words[0], g, after + rest, LineText(words, gaps) + rest, out);
      ReadLine(words[1..], gaps[1..], rest, out + [WordMeans(words[0])]);
      Associative(out, [WordMeans(words[0])], LineMeans(words[1..]));
    }
  }

  /**
   * Reading inverts writing, whatever mixture of quotes and escapes each word is written in and whatever
   * blanks are between them: inside either kind of quotes blanks belong to the word.
   */
  lemma WordsOfLine(lead: string, words: seq<Word>, gaps: seq<string>, last: Word)
    requires IsBlank(lead) && |gaps| == |words|
    requires forall i :: 0 <= i < |words| ==> WordOk(words[i]) && gaps[i] != [] && IsBlank(gaps[i])
    requires forall i :: 0 <= i < |last| ==> PieceOk(last[i])
    ensures ShellWords.Words(lead + LineText(words, gaps) + WordText(last)) ==
            LineMeans(words) + (if last == [] then [] else [WordMeans(last)])
  {
    hide ShellWords.Read, WordText, WordMeans, LineText, LineMeans;
    var all := LineText(words, gaps) + WordText(last);
    assert lead + LineText(words, gaps) + WordText(last) == lead + all;
    ReadGap(lead, all, ShellWords.FRESH);
    ReadLine(words, gaps, WordText(last), []);
    assert [] + LineMeans(words) == LineMeans(words);
    var st := ShellWords.FRESH.(out := LineMeans(words));
    assert WordText(last) + [] == WordText(last) && [] + WordMeans(last) == WordMeans(last);
    ReadWord(last, [], st);
    ShellWords.ReadNone(st.(cur := WordMeans(last), has := last != []));
    NoPieces();
  }

  lemma NoPieces()
    ensures WordMeans([]) == []
  {}

  /** An open quote takes everything to the end of the line, and a lone backslash there is dropped. */
  lemma OpenEnds(words: seq<Word>, gaps: seq<string>, s: string, items: seq<Item>)
    requires |gaps| == |words|
    requires forall i :: 0 <= i < |words| ==> WordOk(words[i]) && gaps[i] != [] && IsBlank(gaps[i])
    requires '\'' !in s && forall i :: 0 <= i < |items| ==> ItemOk(items[i])
    ensures ShellWords.Words(LineText(words, gaps) + (['\''] + s)) == LineMeans(words) + [s]
    ensures ShellWords.Words(LineText(words, gaps) + (['"'] + ItemsText(items)))
            == LineMeans(words) + [ItemsMean(items)]
    ensures ShellWords.Words(LineText(words, gaps) + ['\\']) == LineMeans(words)
  {
    hide ShellWords.Read, LineText, LineMeans, ItemsText, ItemsMean;
    var st := ShellWords.FRESH.(out := LineMeans(words));
    assert [] + LineMeans(words) == LineMeans(words);
    ReadLine(words, gaps, ['\''] + s, []);
    ReadOne('\'', s, ['\''] + s, st);
    assert s + [] == s && [] + s == s;
    ReadSingle(s, [], st.(sq := true, has := true));
    ShellWords.ReadNone(st.(sq := true, has := true, cur := s));
    ReadLine(words, gaps, ['"'] + ItemsText(items), []);
    ReadOne('"', ItemsText(items), ['"'] + ItemsText(items), st);
    assert ItemsText(items) + [] == ItemsText(items) && [] + ItemsMean(items) == ItemsMean(items);
    ReadItems(items, [], st.(dq := true, has := true));
    ShellWords.ReadNone(st.(dq := true, has := true, cur := ItemsMean(items)));
    ReadLine(words, gaps, ['\\'], []);
    ReadStep(['\\'], st);
    ShellWords.ReadNone(st);
  }
}
