/**
 * `ToStringStream` of src/stream.ts: a writable stream that keeps every chunk
 * written to it, and reads back as the UTF-8 decoding of their concatenation.
 * It is empty when nothing was written or when that text is blank once
 * lodash's `trim` has stripped its leading and trailing whitespace.
 *
 * UTF-8 decoding is not modelled: each stream carries the decoder it reads
 * back with. The one fact the lemmas below need of it is that it reads ASCII
 * bytes as the characters of the same code (`AsciiPreserving`).
 */
module Stream {
  import opened Wrappers

  newtype byte = x: int | 0 <= x < 256

  type Bytes = seq<byte>

  /** `Buffer.concat(chunks)`. */
  function Concat(chunks: seq<Bytes>): (b: Bytes)
    ensures chunks == [] ==> b == []
  {
    if chunks == [] then []
    else Concat(chunks[..|chunks| - 1]) + chunks[|chunks| - 1]
  }

  /** Concatenating in two parts concatenates the parts. */
  lemma {:induction false} ConcatAppend(a: seq<Bytes>, b: seq<Bytes>)
    ensures Concat(a + b) == Concat(a) + Concat(b)
    decreases |b|
  {
    if b == [] {
      assert a + b == a;
    } else {
      var n := |b| - 1;
      assert (a + b)[..|a + b| - 1] == a + b[..n];
      ConcatAppend(a, b[..n]);
    }
  }

  /** Concatenating splits at any point into the concatenations of the two
      parts. */
  lemma ConcatSplit(chunks: seq<Bytes>)
    ensures forall k :: 0 <= k <= |chunks| ==> Concat(chunks) == Concat(chunks[..k]) + Concat(chunks[k..])
  {
    forall k | 0 <= k <= |chunks|
      ensures Concat(chunks) == Concat(chunks[..k]) + Concat(chunks[k..])
    {
      assert chunks == chunks[..k] + chunks[k..];
      ConcatAppend(chunks[..k], chunks[k..]);
    }
  }

  /** Every byte of every chunk is found in the concatenation, in order, at
      the offset of its chunk. */
  lemma {:induction false} ConcatHoldsChunk(chunks: seq<Bytes>, i: nat, j: nat)
    requires i < |chunks| && j < |chunks[i]|
    ensures |Concat(chunks[..i])| + j < |Concat(chunks)|
    ensures Concat(chunks)[|Concat(chunks[..i])| + j] == chunks[i][j]
  {
    assert chunks == chunks[..i] + [chunks[i]] + chunks[i + 1..];
    ConcatAppend(chunks[..i] + [chunks[i]], chunks[i + 1..]);
    ConcatAppend(chunks[..i], [chunks[i]]);
    assert Concat([chunks[i]]) == chunks[i] by {
      assert [chunks[i]][..0] == [];
    }
  }

  /** A character of the `\s` class of JavaScript regular expressions, the
      whitespace lodash's `trim` strips. */
  predicate IsWhitespace(c: char) {
    || c == '\t' || c == '\n' || c == '\U{000B}' || c == '\U{000C}' || c == '\r' || c == ' '
    || c == '\U{00A0}' || c == '\U{1680}' || ('\U{2000}' <= c <= '\U{200A}')
    || c == '\U{2028}' || c == '\U{2029}' || c == '\U{202F}' || c == '\U{205F}'
    || c == '\U{3000}' || c == '\U{FEFF}'
  }

  predicate AllWhitespace(s: string) {
    forall i :: 0 <= i < |s| ==> IsWhitespace(s[i])
  }

  /** `s` without its trailing whitespace. */
  function TrimEnd(s: string): (r: string)
    ensures r <= s && AllWhitespace(s[|r|..])
    ensures r == [] || !IsWhitespace(r[|r| - 1])
  {
    if s == [] || !IsWhitespace(s[|s| - 1]) then s
    else TrimEnd(s[..|s| - 1])
  }

  /** `s` without its leading whitespace. */
  function TrimStart(s: string): (r: string)
    ensures |r| <= |s| && r == s[|s| - |r|..] && AllWhitespace(s[..|s| - |r|])
    ensures r == [] || !IsWhitespace(r[0])
  {
    if s == [] || !IsWhitespace(s[0]) then s
    else TrimStart(s[1..])
  }

  /** lodash `trim(s)`: the end is cut first, then the start. What is left
      is a piece of `s` that neither starts nor ends with whitespace, and it
      is empty exactly when `s` is all whitespace. */
  function Trim(s: string): (r: string)
    ensures |r| <= |s|
    ensures r == [] || (!IsWhitespace(r[0]) && !IsWhitespace(r[|r| - 1]))
    ensures r == [] <==> AllWhitespace(s)
  {
    BothEndsCutBlank(s);
    TrimStart(TrimEnd(s))
  }

  /** Cutting both ends leaves nothing exactly when the text is all
      whitespace. */
  lemma BothEndsCutBlank(s: string)
    ensures TrimStart(TrimEnd(s)) == [] <==> AllWhitespace(s)
  {
    var e := TrimEnd(s);
    if TrimStart(e) == [] {
      forall i | 0 <= i < |s|
        ensures IsWhitespace(s[i])
      {
        if i < |e| {
          assert s[i] == e[..|e| - 0][i];
        } else {
          assert s[i] == s[|e|..][i - |e|];
        }
      }
    }
  }

  /** A byte below 128. */
  predicate IsAscii(b: byte) {
    b < 128
  }

  predicate AllAscii(bs: Bytes) {
    forall i :: 0 <= i < |bs| ==> IsAscii(bs[i])
  }

  /** ASCII bytes read one character each, of the same code. */
  function AsciiText(bs: Bytes): (s: string)
    requires AllAscii(bs)
    ensures |s| == |bs| && forall i :: 0 <= i < |bs| ==> s[i] as int == bs[i] as int
  {
    seq(|bs|, i requires 0 <= i < |bs| => (bs[i] as int) as char)
  }

  /** A decoder that reads ASCII as ASCII, as UTF-8 does. */
  ghost predicate AsciiPreserving(decode: Bytes -> string) {
    forall bs: Bytes :: AllAscii(bs) ==> decode(bs) == AsciiText(bs)
  }

  /** An ASCII whitespace byte: tab, line feed, vertical tab, form feed,
      carriage return or space. */
  predicate IsWhitespaceByte(b: byte) {
    b == 9 || b == 10 || b == 11 || b == 12 || b == 13 || b == 32
  }

  /** Every byte is ASCII whitespace. */
  predicate AllWhitespaceBytes(bs: Bytes) {
    forall k :: 0 <= k < |bs| ==> IsWhitespaceByte(bs[k])
  }

  /** Every byte of every chunk is ASCII whitespace. */
  predicate WhitespaceChunks(chunks: seq<Bytes>) {
    forall i :: 0 <= i < |chunks| ==> AllWhitespaceBytes(chunks[i])
  }

  /** Concatenating ASCII chunks gives ASCII. */
  lemma ConcatAscii(chunks: seq<Bytes>)
    requires forall i :: 0 <= i < |chunks| ==> AllAscii(chunks[i])
    ensures AllAscii(Concat(chunks))
  {
    if chunks != [] {
      var n := |chunks| - 1;
      ConcatAscii(chunks[..n]);
    }
  }

  /** The stream of src/stream.ts that collects what is written to it. */
  class ToStringStream {
    /** How the collected bytes read as text. */
    const decode: Bytes -> string
    /** The chunks written so far, in write order. */
    var chunks: seq<Bytes>

    /** A new stream: nothing written. */
    constructor (decode: Bytes -> string)
      ensures this.decode == decode && chunks == []
      ensures IsEmpty()
    {
      this.decode := decode;
      chunks := [];
    }

    /** `_write(chunk, encoding, callback)`: keep the chunk, then call back
        without an error (the result is the error the callback receives). */
    method Write(chunk: Bytes) returns (error: Option<string>)
      modifies this
      ensures chunks == old(chunks) + [chunk]
      ensures error == None
      ensures ToString() == decode(Concat(old(chunks)) + chunk)
    {
      chunks := chunks + [chunk];
      error := None;
    }

    /** `toString()`: the collected bytes, read as text. The chunks are
        concatenated in write order before anything is decoded, so a chunk
        boundary never splits the text. */
    function ToString(): (s: string)
      reads this
      ensures chunks == [] ==> s == decode([])
      ensures forall k :: 0 <= k <= |chunks| ==> s == decode(Concat(chunks[..k]) + Concat(chunks[k..]))
    {
      ConcatSplit(chunks);
      decode(Concat(chunks))
    }

    /** `isEmpty()`: nothing written, or only whitespace. */
    function IsEmpty(): (r: bool)
      reads this
      ensures r <==> chunks == [] || AllWhitespace(ToString())
    {
      |chunks| == 0 || |Trim(decode(Concat(chunks)))| == 0
    }

    /** With a decoder that reads ASCII as ASCII and only ASCII written, the
        stream is empty exactly when every byte written is ASCII whitespace. */
    lemma EmptyIffWhitespaceBytes()
      requires AsciiPreserving(decode)
      requires forall i :: 0 <= i < |chunks| ==> AllAscii(chunks[i])
      ensures IsEmpty() <==> WhitespaceChunks(chunks)
    {
      var all := Concat(chunks);
      ConcatAscii(chunks);
      assert ToString() == AsciiText(all);
      AsciiBlankIffWhitespaceBytes(all);
      ChunksWhitespaceIffConcat(chunks);
    }
  }

  /** ASCII text is all whitespace exactly when its bytes are all ASCII
      whitespace. */
  lemma AsciiBlankIffWhitespaceBytes(bs: Bytes)
    requires AllAscii(bs)
    ensures AllWhitespace(AsciiText(bs)) <==> AllWhitespaceBytes(bs)
  {
    var text := AsciiText(bs);
    forall k | 0 <= k < |bs|
      ensures IsWhitespace(text[k]) <==> IsWhitespaceByte(bs[k])
    {
      assert text[k] as int == bs[k] as int;
    }
  }

  /** All bytes of all chunks are whitespace exactly when all bytes of their
      concatenation are. */
  lemma ChunksWhitespaceIffConcat(chunks: seq<Bytes>)
    ensures WhitespaceChunks(chunks) <==> AllWhitespaceBytes(Concat(chunks))
  {
    var all := Concat(chunks);
    if AllWhitespaceBytes(all) {
      forall i, j | 0 <= i < |chunks| && 0 <= j < |chunks[i]|
        ensures IsWhitespaceByte(chunks[i][j])
      {
        ConcatHoldsChunk(chunks, i, j);
      }
    }
    if WhitespaceChunks(chunks) {
      forall k | 0 <= k < |all|
        ensures IsWhitespaceByte(all[k])
      {
        var i, j := ConcatFindByte(chunks, k);
      }
    }
  }

  /** Every byte of the concatenation comes from some chunk. */
  lemma {:induction false} ConcatFindByte(chunks: seq<Bytes>, k: nat) returns (i: nat, j: nat)
    requires k < |Concat(chunks)|
    ensures i < |chunks| && j < |chunks[i]| && Concat(chunks)[k] == chunks[i][j]
    decreases |chunks|
  {
    var n := |chunks| - 1;
    var init := Concat(chunks[..n]);
    if k < |init| {
      i, j := ConcatFindByte(chunks[..n], k);
    } else {
      i, j := n, k - |init|;
    }
  }
}
