/** The recorder's reassembly buffer: captured payloads are cut into
    chunks, each a 2-byte big-endian length followed by that many bytes. */
module StreamBuffer {
  import opened Wrappers
  import opened Bytes

  /** Length of the chunk that starts `s`, its 2-byte header included. */
  function ChunkLen(s: seq<byte>): nat
    requires |s| >= 2
  {
    s[0] as int * 256 + s[1] as int + 2
  }

  predicate HasChunk(s: seq<byte>) {
    |s| >= 2 && |s| >= ChunkLen(s)
  }

  /** `c` is exactly one chunk. */
  predicate IsChunk(c: seq<byte>) {
    |c| >= 2 && |c| == ChunkLen(c)
  }

  /** The value of a `Buffer`: the number of the next chunk and the pending bytes. */
  datatype Buf = Buf(counter: nat, data: seq<byte>)

  function Append(b: Buf, payload: seq<byte>): Buf {
    b.(data := b.data + payload)
  }

  function FirstChunk(s: seq<byte>): seq<byte>
    requires HasChunk(s)
  {
    s[..ChunkLen(s)]
  }

  function AfterFirst(s: seq<byte>): (r: seq<byte>)
    requires HasChunk(s)
    ensures |r| < |s|
  {
    s[ChunkLen(s)..]
  }

  /** The complete chunks of a byte stream, in order. */
  function Chunks(s: seq<byte>): seq<seq<byte>>
    decreases |s|
  {
    if HasChunk(s) then [FirstChunk(s)] + Chunks(AfterFirst(s)) else []
  }

  /** What follows the last complete chunk of a byte stream. */
  function Tail(s: seq<byte>): seq<byte>
    decreases |s|
  {
    if HasChunk(s) then Tail(AfterFirst(s)) else s
  }

  ghost predicate AllChunks(cs: seq<seq<byte>>) {
    forall i :: 0 <= i < |cs| ==> IsChunk(cs[i])
  }

  lemma FirstIs(s: seq<byte>)
    requires HasChunk(s)
    ensures IsChunk(FirstChunk(s)) && FirstChunk(s) + AfterFirst(s) == s && |AfterFirst(s)| < |s|
  {
  }

  lemma CutStep(s: seq<byte>)
    ensures HasChunk(s) ==> Chunks(s) == [FirstChunk(s)] + Chunks(AfterFirst(s)) && Tail(s) == Tail(AfterFirst(s))
    ensures !HasChunk(s) ==> Chunks(s) == [] && Tail(s) == s
  {
  }

  lemma ChunkIsLong(c: seq<byte>)
    requires IsChunk(c)
    ensures |c| >= 2
  {
  }

  /** Cutting loses and invents nothing, and leaves no complete chunk behind. */
  lemma {:induction false} CutSound(s: seq<byte>)
    ensures AllChunks(Chunks(s))
    ensures !HasChunk(Tail(s))
    ensures Flatten(Chunks(s)) + Tail(s) == s
    decreases |s|
  {
    if HasChunk(s) {
      FirstIs(s);
      hide ChunkLen, HasChunk, IsChunk, FirstChunk, AfterFirst;
      var first, rest := FirstChunk(s), AfterFirst(s);
      CutSound(rest);
      assert Chunks(s) == [first] + Chunks(rest) && Chunks(s)[1..] == Chunks(rest);
      assert first + (Flatten(Chunks(rest)) + Tail(rest)) == (first + Flatten(Chunks(rest))) + Tail(rest);
    }
  }

  /** A chunk in front of a stream is the first one cut off. */
  lemma ChunkInFront(c: seq<byte>, s: seq<byte>)
    requires IsChunk(c)
    ensures HasChunk(c + s) && FirstChunk(c + s) == c && AfterFirst(c + s) == s
    ensures Chunks(c + s) == [c] + Chunks(s) && Tail(c + s) == Tail(s)
  {
    assert (c + s)[..|c|] == c;
    assert (c + s)[|c|..] == s;
  }

  /** There is only one way to cut a stream: any list of chunks followed by
      a remainder holding no complete chunk is the one that is computed. */
  lemma {:induction false} CutUnique(cs: seq<seq<byte>>, rest: seq<byte>)
    requires AllChunks(cs) && !HasChunk(rest)
    ensures Chunks(Flatten(cs) + rest) == cs
    ensures Tail(Flatten(cs) + rest) == rest
    decreases |cs|
  {
    if cs == [] {
      assert Flatten(cs) + rest == rest;
    } else {
      CutUnique(cs[1..], rest);
      ChunkInFront(cs[0], Flatten(cs[1..]) + rest);
      assert Flatten(cs) + rest == cs[0] + (Flatten(cs[1..]) + rest);
    }
  }

  /** Bytes arriving later do not change the chunks already complete. */
  lemma {:induction false} CutAppend(a: seq<byte>, b: seq<byte>)
    ensures Chunks(a + b) == Chunks(a) + Chunks(Tail(a) + b)
    ensures Tail(a + b) == Tail(Tail(a) + b)
    decreases |a|
  {
    if HasChunk(a) {
      CutAppend(AfterFirst(a), b);
      assert FirstChunk(a) + (AfterFirst(a) + b) == a + b;
      ChunkInFront(FirstChunk(a), AfterFirst(a) + b);
    }
  }

  class Buffer {
    var counter: nat
    var buffer: seq<byte>

    ghost function State(): Buf
      reads this
    {
      Buf(counter, buffer)
    }

    constructor ()
      ensures State() == Buf(0, [])
    {
      counter := 0;
      buffer := [];
    }

    method HandleData(payload: seq<byte>)
      modifies this
      ensures State() == Append(old(State()), payload)
    {
      buffer := buffer + payload;
    }

    method Remaining() returns (n: nat)
      ensures n == |State().data|
    {
      n := |buffer|;
    }

    /** Length (including the 2-byte header) of the chunk at the front. */
    method Len() returns (r: Option<nat>)
      ensures r == if |buffer| >= 2 then Some(ChunkLen(buffer)) else None
    {
      if |buffer| >= 2 {
        r := Some(buffer[0] as int * 256 + buffer[1] as int + 2);
      } else {
        r := None;
      }
    }

    method HaveChunk() returns (r: Option<seq<byte>>)
      ensures r == if HasChunk(State().data) then Some(FirstChunk(State().data)) else None
    {
      var len := Len();
      if len.Some? && |buffer| >= len.value {
        r := Some(buffer[..len.value]);
      } else {
        r := None;
      }
    }

    /** Take everything that is left as one last chunk. */
    method Cleanup() returns (r: Option<(nat, seq<byte>)>)
      modifies this
      ensures old(State()).data == [] ==> r == None && State() == old(State())
      ensures old(State()).data != [] ==>
                r == Some((old(State()).counter, old(State()).data)) &&
                State() == Buf(old(State()).counter + 1, [])
    {
      if buffer == [] {
        return None;
      }
      r := Some((counter, buffer));
      counter := counter + 1;
      buffer := [];
    }

    method Next() returns (r: Option<(nat, seq<byte>)>)
      modifies this
      ensures !HasChunk(old(State()).data) ==> r == None && State() == old(State())
      ensures HasChunk(old(State()).data) ==>
                r == Some((old(State()).counter, FirstChunk(old(State()).data))) &&
                State() == Buf(old(State()).counter + 1, AfterFirst(old(State()).data))
    {
      var len := Len();
      if len.None? || |buffer| < len.value {
        return None;
      }
      r := Some((counter, buffer[..len.value]));
      counter := counter + 1;
      if |buffer| > len.value {
        buffer := buffer[len.value..];
      } else {
        buffer := [];
      }
    }
  }
}
