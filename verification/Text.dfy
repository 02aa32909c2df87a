/** Small character and list helpers the text-handling modules share. */
module Text {

  datatype Option<+T> = None | Some(value: T)

  /** Unicode White_Space. */
  predicate IsSpace(c: char) {
    var n := c as int;
    || 0x09 <= n <= 0x0D
    || n == 0x20 || n == 0x85 || n == 0xA0 || n == 0x1680
    || 0x2000 <= n <= 0x200A
    || n == 0x2028 || n == 0x2029 || n == 0x202F || n == 0x205F || n == 0x3000
  }

  predicate IsAlphanumeric(c: char) {
    'a' <= c <= 'z' || 'A' <= c <= 'Z' || '0' <= c <= '9'
  }

  predicate IsAlphabetic(c: char) {
    'a' <= c <= 'z' || 'A' <= c <= 'Z'
  }

  predicate IsBlank(s: string) {
    forall i :: 0 <= i < |s| ==> IsSpace(s[i])
  }

  function TrimStart(s: string): string {
    if s != [] && IsSpace(s[0]) then TrimStart(s[1..]) else s
  }

  function TrimEnd(s: string): string {
    if s != [] && IsSpace(s[|s| - 1]) then TrimEnd(s[..|s| - 1]) else s
  }

  function Trim(s: string): string {
    TrimEnd(TrimStart(s))
  }

  /** Nothing is left exactly when everything was blank. */
  lemma {:induction false} TrimEmptyIff(s: string)
    ensures Trim(s) == [] <==> IsBlank(s)
    decreases |s|
  {
    if s != [] && IsSpace(s[0]) {
      TrimEmptyIff(s[1..]);
      assert IsBlank(s) <==> IsBlank(s[1..]) by {
        if IsBlank(s[1..]) {
          forall i | 0 <= i < |s| ensures IsSpace(s[i]) {
            if i > 0 { assert s[1..][i - 1] == s[i]; }
          }
        }
      }
    } else if s != [] {
      TrimEndKeepsFront(s);
    }
  }

  lemma {:induction false} TrimEndKeepsFront(s: string)
    requires s != [] && !IsSpace(s[0])
    ensures TrimEnd(s) != [] && TrimEnd(s)[0] == s[0]
    decreases |s|
  {
    if IsSpace(s[|s| - 1]) {
      TrimEndKeepsFront(s[..|s| - 1]);
    }
  }

  lemma {:induction false} TrimStartIs(l: string, m: string)
    requires IsBlank(l) && (m == [] || !IsSpace(m[0]))
    ensures TrimStart(l + m) == m
    decreases |l|
  {
    if l == [] {
      assert l + m == m;
    } else {
      assert (l + m)[1..] == l[1..] + m;
      TrimStartIs(l[1..], m);
    }
  }

  lemma {:induction false} TrimEndIs(m: string, r: string)
    requires IsBlank(r) && (m == [] || !IsSpace(m[|m| - 1]))
    ensures TrimEnd(m + r) == m
    decreases |r|
  {
    if r == [] {
      assert m + r == m;
    } else {
      var n := |r| - 1;
      assert (m + r)[..|m| + n] == m + r[..n] && (m + r)[|m| + n] == r[n];
      TrimEndIs(m, r[..n]);
    }
  }

  /** Blanks at both ends go, and nothing else. */
  lemma TrimIs(l: string, m: string, r: string)
    requires IsBlank(l) && IsBlank(r) && (m == [] || (!IsSpace(m[0]) && !IsSpace(m[|m| - 1])))
    ensures Trim(l + m + r) == m
  {
    if m == [] {
      TrimEmptyIff(l + m + r);
    } else {
      Associative(l, m, r);
      TrimStartIs(l, m + r);
      TrimEndIs(m, r);
    }
  }

  /** Occurrences of one character. */
  function Count(c: char, s: string): nat {
    if s == [] then 0 else (if s[0] == c then 1 else 0) + Count(c, s[1..])
  }

  lemma {:induction false} CountAppend(c: char, a: string, b: string)
    ensures Count(c, a + b) == Count(c, a) + Count(c, b)
    decreases |a|
  {
    if a == [] {
      assert a + b == b;
    } else {
      CountAppend(c, a[1..], b);
      assert (a + b)[1..] == a[1..] + b;
    }
  }

  lemma CountSlice(c: char, s: string, lo: nat, hi: nat)
    requires lo <= hi <= |s|
    ensures Count(c, s[lo..hi]) <= Count(c, s)
  {
    assert s == s[..lo] + (s[lo..hi] + s[hi..]);
    CountAppend(c, s[..lo], s[lo..hi] + s[hi..]);
    CountAppend(c, s[lo..hi], s[hi..]);
  }

  lemma {:induction false} TrimStartIsSlice(s: string) returns (lo: nat)
    ensures lo <= |s| && TrimStart(s) == s[lo..]
    decreases |s|
  {
    if s != [] && IsSpace(s[0]) {
      lo := TrimStartIsSlice(s[1..]);
      lo := lo + 1;
    } else {
      lo := 0;
    }
  }

  lemma {:induction false} TrimEndIsSlice(s: string) returns (hi: nat)
    ensures hi <= |s| && TrimEnd(s) == s[..hi]
    decreases |s|
  {
    if s != [] && IsSpace(s[|s| - 1]) {
      hi := TrimEndIsSlice(s[..|s| - 1]);
    } else {
      hi := |s|;
    }
  }

  lemma TrimCount(c: char, s: string)
    ensures Count(c, Trim(s)) <= Count(c, s)
  {
    var lo := TrimStartIsSlice(s);
    var hi := TrimEndIsSlice(TrimStart(s));
    assert s[lo..|s|] == s[lo..] && TrimStart(s)[0..hi] == TrimStart(s)[..hi];
    CountSlice(c, s, lo, |s|);
    CountSlice(c, TrimStart(s), 0, hi);
  }

  predicate StartsWith(s: string, prefix: string) {
    prefix <= s
  }

  function Join(words: seq<string>, sep: string): string {
    if words == [] then []
    else if |words| == 1 then words[0]
    else words[0] + sep + Join(words[1..], sep)
  }

  lemma Associative<T>(a: seq<T>, b: seq<T>, c: seq<T>)
    ensures a + b + c == a + (b + c)
  {}
}
