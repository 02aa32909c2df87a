/** The bounded capture of a child's output: the first half of the capacity, and the last half of the rest. */
module Capture {
  import opened Decimal
  import opened Text

  type Byte = b: nat | b < 256

  datatype Buffer = Buffer(head: seq<Byte>, tail: seq<Byte>, dropped: nat)

  const EMPTY := Buffer([], [], 0)

  /** One byte: it fills the head, or pushes the oldest byte out of the tail. */
  function Take(half: nat, buffer: Buffer, b: Byte): Buffer {
    if |buffer.head| < half then buffer.(head := buffer.head + [b])
    else
      var tail := buffer.tail + [b];
      if |tail| > half then buffer.(tail := tail[1..], dropped := buffer.dropped + 1) else buffer.(tail := tail)
  }

  function Feed(half: nat, buffer: Buffer, bytes: seq<Byte>): Buffer
    decreases |bytes|
  {
    if bytes == [] then buffer else Feed(half, Take(half, buffer, bytes[0]), bytes[1..])
  }

  /** What is kept of an input, said without a history. */
  function Kept(half: nat, input: seq<Byte>): Buffer {
    if |input| <= half then Buffer(input, [], 0)
    else if |input| <= 2 * half then Buffer(input[..half], input[half..], 0)
    else Buffer(input[..half], input[|input| - half..], |input| - 2 * half)
  }

  lemma TakeExtends(half: nat, input: seq<Byte>, b: Byte)
    ensures Take(half, Kept(half, input), b) == Kept(half, input + [b])
  {
    var more := input + [b];
    assert forall i :: 0 <= i <= |input| ==> more[i..] == input[i..] + [b];
    assert forall i :: 0 <= i <= |input| ==> more[..i] == input[..i];
  }

  lemma {:induction false} FeedExtends(half: nat, input: seq<Byte>, bytes: seq<Byte>)
    ensures Feed(half, Kept(half, input), bytes) == Kept(half, input + bytes)
    decreases |bytes|
  {
    if bytes == [] {
      assert input + bytes == input;
    } else {
      TakeExtends(half, input, bytes[0]);
      FeedExtends(half, input + [bytes[0]], bytes[1..]);
      assert input + [bytes[0]] + bytes[1..] == input + bytes;
    }
  }

  function Concat(chunks: seq<seq<Byte>>): seq<Byte> {
    if chunks == [] then [] else chunks[0] + Concat(chunks[1..])
  }

  function FeedAll(half: nat, buffer: Buffer, chunks: seq<seq<Byte>>): Buffer
    decreases |chunks|
  {
    if chunks == [] then buffer else FeedAll(half, Feed(half, buffer, chunks[0]), chunks[1..])
  }

  /** However the output arrives in pieces, what is kept depends on the whole of it only. */
  lemma {:induction false} ChunkingIsInvisible(half: nat, input: seq<Byte>, chunks: seq<seq<Byte>>)
    ensures FeedAll(half, Kept(half, input), chunks) == Kept(half, input + Concat(chunks))
    decreases |chunks|
  {
    if chunks == [] {
      assert input + Concat(chunks) == input;
    } else {
      var first, rest := chunks[0], chunks[1..];
      FeedExtends(half, input, first);
      hide Feed, Kept;
      ChunkingIsInvisible(half, input + first, rest);
      assert Concat(chunks) == first + Concat(rest);
      Associative(input, first, Concat(rest));
    }
  }

  /** Exactly as much is counted as dropped as is missing, and nothing is missing while the input fits. */
  lemma DroppedIsExact(half: nat, input: seq<Byte>)
    ensures var k := Kept(half, input);
            && |k.head| + |k.tail| + k.dropped == |input|
            && k.head <= input && k.head + input[|k.head|..|k.head| + k.dropped] + k.tail == input
            && (k.dropped == 0 <==> |input| <= 2 * half)
  {}

  function Ascii(s: string): seq<Byte>
    requires forall i :: 0 <= i < |s| ==> s[i] < 128 as char
  {
    seq(|s|, i requires 0 <= i < |s| => s[i] as int)
  }

  /** The ellipsis in UTF-8. */
  const ELLIPSIS: seq<Byte> := [0xE2, 0x80, 0xA6]

  function Note(dropped: nat): seq<Byte> {
    Ascii("\n") + ELLIPSIS + Ascii(" [") + Ascii(Show(dropped)) + Ascii(" bytes truncated] ") + ELLIPSIS + Ascii("\n")
  }

  function Rendered(k: Buffer): seq<Byte> {
    k.head + (if k.dropped > 0 then Note(k.dropped) else []) + k.tail
  }

  class Capture {
    var head: seq<Byte>
    var tail: seq<Byte>
    var dropped: nat
    const cap: nat
    ghost var seen: seq<Byte>

    ghost predicate Valid()
      reads this
    {
      Buffer(head, tail, dropped) == Kept(cap / 2, seen)
    }

    constructor (cap: nat)
      ensures Valid() && seen == [] && this.cap == cap
    {
      this.cap := cap;
      head, tail, dropped, seen := [], [], 0, [];
    }

    method Push(buf: seq<Byte>)
      requires Valid()
      modifies this
      ensures Valid() && seen == old(seen) + buf
    {
      var half := cap / 2;
      var i := 0;
      assert buf[..0] == [];
      while i < |buf|
        invariant 0 <= i <= |buf|
        invariant seen == old(seen) + buf[..i] && Valid()
      {
        var b := buf[i];
        TakeExtends(half, seen, b);
        if |head| < half {
          head := head + [b];
        } else {
          tail := tail + [b];
          if |tail| > half {
            tail := tail[1..];
            dropped := dropped + 1;
          }
        }
        assert buf[..i + 1] == buf[..i] + [b];
        seen := seen + [b];
        i := i + 1;
      }
    }

    method IntoVec() returns (v: seq<Byte>)
      requires Valid()
      ensures v == Rendered(Kept(cap / 2, seen))
      ensures |seen| <= 2 * (cap / 2) ==> v == seen
    {
      v := head;
      if dropped > 0 {
        v := v + Note(dropped);
      }
      v := v + tail;
    }
  }
}
