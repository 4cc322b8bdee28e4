/** The sending side: a test peer that writes and reads messages as sequences
    of encrypted chunks. */
module Pseudonode {
  import opened Wrappers
  import opened Bytes
  import opened Common
  import opened StreamBuffer
  import opened ChunkParser

  /** The largest plain text put in one chunk. */
  const PIECE := 0xffe0

  /** A message cut in pieces of `PIECE` bytes, the last one possibly shorter. */
  function Pieces(m: seq<byte>): seq<seq<byte>>
    decreases |m|
  {
    if m == [] then [] else if |m| <= PIECE then [m] else [m[..PIECE]] + Pieces(m[PIECE..])
  }

  /** `BinaryChunk::from_content`: the length in two bytes, then the content. */
  function Frame(content: seq<byte>): (c: seq<byte>)
    requires |content| <= 0xffff
    ensures IsChunk(c) && c[2..] == content
  {
    [|content| / 256, |content| % 256] + content
  }

  predicate Small(pieces: seq<seq<byte>>) {
    forall i :: 0 <= i < |pieces| ==> |pieces[i]| <= PIECE
  }

  /** One encrypted piece in its chunk. */
  function Seal(env: Env, key: Key, piece: seq<byte>): (c: seq<byte>)
    requires SoundCrypto(env) && |piece| <= PIECE
    ensures IsChunk(c) && c[2..] == env.encrypt(key.secret, key.nonce, piece)
  {
    Frame(env.encrypt(key.secret, key.nonce, piece))
  }

  function Later(key: Key, n: nat): Key {
    key.(nonce := key.nonce + n)
  }

  /** Pieces encrypted with consecutive nonces, each in its chunk. */
  ghost function Sealed(env: Env, key: Key, pieces: seq<seq<byte>>): seq<seq<byte>>
    requires SoundCrypto(env) && Small(pieces)
    decreases |pieces|
  {
    if pieces == [] then [] else [Seal(env, key, pieces[0])] + Sealed(env, Later(key, 1), pieces[1..])
  }

  /** The pieces of a message are not empty, full but for the last one, and make
      it up. */
  lemma {:induction false} PiecesSound(m: seq<byte>)
    ensures Small(Pieces(m)) && Flatten(Pieces(m)) == m
    ensures forall i :: 0 <= i < |Pieces(m)| ==> Pieces(m)[i] != []
    ensures forall i :: 0 <= i < |Pieces(m)| - 1 ==> |Pieces(m)[i]| == 0xffe0
    ensures m != [] ==> Pieces(m) != [] && Pieces(m)[0] == (if |m| <= PIECE then m else m[..PIECE])
    decreases |m|
  {
    if |m| > PIECE {
      PiecesSound(m[PIECE..]);
      assert Pieces(m)[1..] == Pieces(m[PIECE..]);
      assert m == m[..PIECE] + m[PIECE..];
    } else if m != [] {
      assert [m][1..] == [];
      assert Flatten([m]) == m + Flatten([]) == m;
    }
  }

  lemma {:induction false} SealedLength(env: Env, key: Key, pieces: seq<seq<byte>>)
    requires SoundCrypto(env) && Small(pieces)
    ensures |Sealed(env, key, pieces)| == |pieces|
    decreases |pieces|
  {
    if pieces != [] {
      SealedLength(env, Later(key, 1), pieces[1..]);
    }
  }

  /** Chunk `i` is piece `i` under the `i`-th nonce. */
  lemma {:induction false} SealedAt(env: Env, key: Key, pieces: seq<seq<byte>>, i: nat)
    requires SoundCrypto(env) && Small(pieces) && i < |pieces|
    ensures |Sealed(env, key, pieces)| == |pieces|
    ensures Sealed(env, key, pieces)[i] == Seal(env, Later(key, i), pieces[i])
    decreases |pieces|
  {
    hide SoundCrypto, Seal;
    SealedLength(env, key, pieces);
    if i > 0 {
      SealedAt(env, Later(key, 1), pieces[1..], i - 1);
      assert Later(Later(key, 1), i - 1) == Later(key, i);
    }
  }

  lemma SealedSound(env: Env, key: Key, pieces: seq<seq<byte>>)
    requires SoundCrypto(env) && Small(pieces)
    ensures |Sealed(env, key, pieces)| == |pieces| && AllChunks(Sealed(env, key, pieces))
    ensures forall i :: 0 <= i < |pieces| ==> Sealed(env, key, pieces)[i] == Seal(env, Later(key, i), pieces[i])
  {
    hide SoundCrypto, Seal;
    SealedLength(env, key, pieces);
    forall i | 0 <= i < |pieces|
      ensures Sealed(env, key, pieces)[i] == Seal(env, Later(key, i), pieces[i])
    {
      SealedAt(env, key, pieces, i);
    }
  }

  lemma {:induction false} SealedAppend(env: Env, key: Key, a: seq<seq<byte>>, b: seq<seq<byte>>)
    requires SoundCrypto(env) && Small(a) && Small(b)
    ensures Small(a + b)
    ensures Sealed(env, key, a + b) == Sealed(env, key, a) + Sealed(env, Later(key, |a|), b)
    decreases |a|
  {
    hide SoundCrypto, Seal, Later;
    LaterLater(key, |a|);
    if a == [] {
      assert a + b == b;
    } else {
      assert (a + b)[1..] == a[1..] + b && (a + b)[0] == a[0];
      SealedAppend(env, Later(key, 1), a[1..], b);
    }
  }

  lemma LaterLater(key: Key, n: nat)
    ensures Later(key, 0) == key && (n > 0 ==> Later(Later(key, 1), n - 1) == Later(key, n))
  {
  }

  /** Writing one more piece. */
  lemma OneMore(env: Env, key: Key, done: seq<seq<byte>>, piece: seq<byte>)
    requires SoundCrypto(env) && Small(done) && |piece| <= PIECE
    ensures Small(done + [piece])
    ensures Flatten(Sealed(env, key, done + [piece])) ==
            Flatten(Sealed(env, key, done)) + Seal(env, Later(key, |done|), piece)
  {
    hide SoundCrypto, Seal, Flatten;
    SealedAppend(env, key, done, [piece]);
    var one := Seal(env, Later(key, |done|), piece);
    SealedOne(env, Later(key, |done|), piece);
    FlattenAppend(Sealed(env, key, done), [one]);
    FlattenOne(one);
  }

  lemma SealedOne(env: Env, key: Key, piece: seq<byte>)
    requires SoundCrypto(env) && |piece| <= PIECE
    ensures Small([piece]) && Sealed(env, key, [piece]) == [Seal(env, key, piece)]
  {
    hide SoundCrypto, Seal;
    assert [piece][1..] == [];
  }

  lemma FlattenOne(p: seq<byte>)
    ensures Flatten([p]) == p
  {
    assert [p][1..] == [];
    assert Flatten([p]) == p + Flatten([]);
  }

  lemma PiecesStep(m: seq<byte>)
    requires m != []
    ensures Pieces(m) == if |m| <= PIECE then [m] + Pieces([]) else [m[..PIECE]] + Pieces(m[PIECE..])
  {
    assert [m] + [] == [m];
  }

  /** `write_msg`: what is appended to the stream, and the nonce afterwards. */
  method WriteMsg(env: Env, message: seq<byte>, stream: seq<byte>, key: Key) returns (stream': seq<byte>, nonce: nat)
    requires SoundCrypto(env)
    ensures Small(Pieces(message))
    ensures stream' == stream + Flatten(Sealed(env, key, Pieces(message)))
    ensures nonce == key.nonce + |Pieces(message)|
  {
    hide SoundCrypto, Seal, Sealed, Flatten, Pieces;
    PiecesSound(message);
    NothingSealed(env, key);
    stream', nonce := stream, key.nonce;
    var rest := message;
    ghost var done: seq<seq<byte>> := [];
    while rest != []
      invariant Pieces(message) == done + Pieces(rest)
      invariant Small(done) && nonce == key.nonce + |done|
      invariant stream' == stream + Flatten(Sealed(env, key, done))
      decreases |rest|
    {
      var piece := if |rest| <= PIECE then rest else rest[..PIECE];
      var after := if |rest| <= PIECE then [] else rest[PIECE..];
      var chunk := Seal(env, key.(nonce := nonce), piece);
      OneMore(env, key, done, piece);
      PiecesStep(rest);
      assert done + ([piece] + Pieces(after)) == (done + [piece]) + Pieces(after);
      assert stream + (Flatten(Sealed(env, key, done)) + chunk) == stream' + chunk;
      stream' := stream' + chunk;
      nonce := nonce + 1;
      done, rest := done + [piece], after;
    }
    assert done + [] == done;
  }

  lemma NothingSealed(env: Env, key: Key)
    requires SoundCrypto(env)
    ensures Pieces([]) == [] && Flatten([]) == [] && Flatten(Sealed(env, key, [])) == []
  {
  }

  /** A byte stream that delivers what was sent in portions of any positive size. */
  class Source {
    var incoming: seq<byte>
    var sizes: seq<nat>

    constructor (incoming: seq<byte>, sizes: seq<nat>)
      ensures this.incoming == incoming
    {
      this.incoming := incoming;
      this.sizes := sizes;
    }

    method Read(max: nat) returns (bytes: seq<byte>)
      modifies this
      ensures bytes + incoming == old(incoming) && |bytes| <= max
      ensures max > 0 && old(incoming) != [] ==> bytes != []
    {
      var wanted := if sizes != [] then sizes[0] else max;
      var most := if |incoming| < max then |incoming| else max;
      var n := if wanted == 0 && most > 0 then 1 else if wanted < most then wanted else most;
      bytes := incoming[..n];
      incoming := incoming[n..];
      sizes := if sizes == [] then [] else sizes[1..];
    }
  }

  const CAPACITY := 0x10000

  class ChunkBuffer {
    var len: nat
    const data: array<byte>

    ghost predicate Valid()
      reads this
    {
      len <= data.Length == CAPACITY
    }

    ghost function Pending(): seq<byte>
      reads this, data
      requires Valid()
    {
      data[..len]
    }

    constructor ()
      ensures Valid() && fresh(data) && Pending() == []
    {
      len := 0;
      data := new byte[CAPACITY](_ => 0);
    }

    /** Move what follows the first `n` bytes to the front. */
    method Shift(n: nat)
      requires Valid() && n <= len
      modifies this`len, data
      ensures Valid() && Pending() == old(Pending())[n..]
    {
      var i := n;
      while i < len
        invariant n <= i <= len == old(len) && Valid()
        invariant forall k :: 0 <= k < i - n ==> data[k] == old(data[k + n])
        invariant forall k :: i - n <= k < data.Length ==> data[k] == old(data[k])
      {
        data[i - n] := data[i];
        i := i + 1;
      }
      len := len - n;
      assert data[..len] == old(data[..len])[n..];
    }

    /** Read as much as fits and is there; at the end of the stream, and into a
        full buffer, that is nothing. */
    method Fill(stream: Source)
      requires Valid() && (stream as object) !in {this as object, data}
      modifies this`len, data, stream
      ensures Valid() && Pending() + stream.incoming == old(Pending() + stream.incoming)
      ensures len >= old(len) && len + |stream.incoming| == old(len + |stream.incoming|)
      ensures len == old(len) ==> old(len) == CAPACITY || old(stream.incoming) == []
    {
      var bytes := stream.Read(data.Length - len);
      forall k | 0 <= k < |bytes| {
        data[len + k] := bytes[k];
      }
      len := len + |bytes|;
      assert data[..len] == old(data[..len]) + bytes;
      assert (old(data[..len]) + bytes) + stream.incoming == old(data[..len]) + (bytes + stream.incoming);
    }

    /** The next chunk of the stream: the same one, leaving the same bytes, as
        the recorder's buffer cuts. `None` where nothing more can be read: there
        the program goes on reading nothing for ever. */
    method ReadChunk(stream: Source) returns (chunk: Option<seq<byte>>)
      requires Valid() && (stream as object) !in {this as object, data}
      modifies this`len, data, stream
      ensures Valid()
      ensures var all := old(Pending() + stream.incoming);
              if Arrives(all) then chunk == Some(FirstChunk(all)) && Pending() + stream.incoming == AfterFirst(all)
              else chunk == None && Pending() + stream.incoming == all
    {
      ghost var all := Pending() + stream.incoming;
      while true
        invariant Valid() && Pending() + stream.incoming == all
        decreases |stream.incoming|
      {
        if len >= 2 {
          var rawLen := data[0] as int * 256 + data[1] as int + 2;
          assert rawLen == ChunkLen(all);
          if len >= rawLen {
            chunk := Some(data[..rawLen]);
            assert chunk.value == all[..rawLen];
            ghost var rest := Pending()[rawLen..] + stream.incoming;
            assert rest == all[rawLen..];
            Shift(rawLen);
            return;
          }
        }
        var before := len;
        NeverArrives(Pending(), stream.incoming);
        Fill(stream);
        if len == before {
          return None;
        }
      }
    }
  }

  /** A whole chunk comes and fits the buffer. */
  predicate Arrives(s: seq<byte>) {
    HasChunk(s) && |FirstChunk(s)| <= CAPACITY
  }

  /** Stuck at the end of the stream or at a full buffer. */
  lemma NeverArrives(pending: seq<byte>, incoming: seq<byte>)
    requires |pending| < 2 || |pending| < ChunkLen(pending + incoming)
    ensures |pending| >= CAPACITY || incoming == [] ==> !Arrives(pending + incoming)
  {
    assert pending + [] == pending;
  }

  lemma SealOpens(env: Env, key: Key, piece: seq<byte>)
    requires SoundCrypto(env) && |piece| <= PIECE
    ensures |Seal(env, key, piece)| <= CAPACITY
    ensures env.decrypt(key.secret, key.nonce, Seal(env, key, piece)[2..]) == Some(piece)
  {
  }

  /** The first chunk of what is still to be read, and what follows it. */
  lemma NextSealed(env: Env, key: Key, pieces: seq<seq<byte>>, rest: seq<byte>)
    requires SoundCrypto(env) && Small(pieces) && pieces != []
    ensures var all := Flatten(Sealed(env, key, pieces)) + rest;
            HasChunk(all) && FirstChunk(all) == Seal(env, key, pieces[0]) &&
            AfterFirst(all) == Flatten(Sealed(env, Later(key, 1), pieces[1..])) + rest
  {
    hide SoundCrypto, Seal, HasChunk, FirstChunk, AfterFirst;
    var first, more := Seal(env, key, pieces[0]), Sealed(env, Later(key, 1), pieces[1..]);
    assert Sealed(env, key, pieces)[1..] == more;
    assert Flatten(Sealed(env, key, pieces)) + rest == first + (Flatten(more) + rest);
    ChunkInFront(first, Flatten(more) + rest);
  }

  /** Only all the pieces together are as long as the message. */
  lemma PiecesReadSoFar(message: seq<byte>, i: nat)
    requires i <= |Pieces(message)|
    ensures Flatten(Pieces(message)[..i]) <= message
    ensures |Flatten(Pieces(message)[..i])| == |message| <==> i == |Pieces(message)|
    ensures i > 0 && |message| >= 4 ==> |Flatten(Pieces(message)[..i])| >= 4
  {
    var ps := Pieces(message);
    PiecesSound(message);
    assert ps == ps[..i] + ps[i..];
    FlattenAppend(ps[..i], ps[i..]);
    if i < |ps| {
      assert Flatten(ps[i..]) == ps[i] + Flatten(ps[i..][1..]);
    } else {
      assert ps[..i] == ps && ps[i..] == [];
    }
    if i > 0 {
      assert Flatten(ps[..i]) == ps[0] + Flatten(ps[..i][1..]);
    }
  }

  /** How reading a message ends: `Waits` goes on for ever without reading anything. */
  datatype Outcome = Got(nonce: nat, bytes: seq<byte>) | Panics | Waits

  /** `read_msg` on a stream: `bytes` are the plain bytes so far, `length` the
      size they announced. The second part is what is left of the stream. */
  function Reading(env: Env, key: Key, peerMessage: bool, bytes: seq<byte>, length: nat, s: seq<byte>): (Outcome, seq<byte>)
    decreases |s|
  {
    if !Arrives(s) then (Waits, s)
    else
      var rest := AfterFirst(s);
      match env.decrypt(key.secret, key.nonce, FirstChunk(s)[2..])
      case None => (Panics, rest)
      case Some(plain) =>
        var all := bytes + plain;
        if length == 0 && peerMessage && |all| < 4 then (Panics, rest)
        else
          var total := if length == 0 && peerMessage then BeVal(all[..4]) + 4 else length;
          if |all| == total || !peerMessage then (Got(key.nonce + 1, all), rest)
          else Reading(env, Later(key, 1), peerMessage, all, total, rest)
  }

  /** `read_msg`, over any portions in which the stream delivers the bytes. */
  method ReadMsg(env: Env, stream: Source, buffer: ChunkBuffer, key: Key, peerMessage: bool) returns (outcome: Outcome)
    requires buffer.Valid() && (stream as object) !in {buffer as object, buffer.data}
    modifies buffer`len, buffer.data, stream
    ensures buffer.Valid()
    ensures (outcome, buffer.Pending() + stream.incoming) ==
            Reading(env, key, peerMessage, [], 0, old(buffer.Pending() + stream.incoming))
  {
    hide BeVal;
    var key' := key;
    var bytes: seq<byte> := [];
    var length: nat := 0;
    ghost var s := buffer.Pending() + stream.incoming;
    ghost var expected := Reading(env, key, peerMessage, [], 0, s);
    while true
      invariant buffer.Valid() && s == buffer.Pending() + stream.incoming
      invariant Reading(env, key', peerMessage, bytes, length, s) == expected
      decreases |s|
    {
      var chunk := buffer.ReadChunk(stream);
      if chunk.None? {
        return Waits;
      }
      s := AfterFirst(s);
      var plain := env.decrypt(key'.secret, key'.nonce, chunk.value[2..]);
      if plain.None? {
        return Panics;
      }
      bytes := bytes + plain.value;
      if length == 0 && peerMessage {
        if |bytes| < 4 {
          return Panics;
        }
        length := BeVal(bytes[..4]) + 4;
      }
      key' := Later(key', 1);
      if |bytes| == length || !peerMessage {
        return Got(key'.nonce, bytes);
      }
    }
  }

  /** What the reader has when it comes to piece `i` of a message. */
  lemma {:induction false} ReadingPieces(env: Env, key: Key, peerMessage: bool, message: seq<byte>, rest: seq<byte>, i: nat)
    requires SoundCrypto(env) && i < |Pieces(message)| && Small(Pieces(message)) && message != []
    requires peerMessage ==> |message| >= 4 && BeVal(message[..4]) + 4 == |message|
    requires !peerMessage ==> |message| <= PIECE
    ensures var ps := Pieces(message);
            Reading(env, Later(key, i), peerMessage, Flatten(ps[..i]), if i > 0 && peerMessage then |message| else 0,
                    Flatten(Sealed(env, Later(key, i), ps[i..])) + rest) ==
            (Got(key.nonce + |ps|, message), rest)
    decreases |Pieces(message)| - i
  {
    hide SoundCrypto, Seal, Sealed, Flatten, Pieces, HasChunk, FirstChunk, AfterFirst, BeVal;
    var ps := Pieces(message);
    NextSealed(env, Later(key, i), ps[i..], rest);
    SealOpens(env, Later(key, i), ps[i]);
    assert ps[i..][0] == ps[i] && ps[i..][1..] == ps[i + 1..] && Later(Later(key, i), 1) == Later(key, i + 1);
    OnePieceMore(ps, i);
    PiecesReadSoFar(message, i + 1);
    if peerMessage && i == 0 {
      assert Flatten(ps[..i + 1])[..4] == message[..4];
    }
    if !peerMessage {
      OnePiece(message);
    }
    if i + 1 < |ps| {
      ReadingPieces(env, key, peerMessage, message, rest, i + 1);
    } else {
      NothingSealed(env, Later(key, i + 1));
      assert ps[i + 1..] == [] && [] + rest == rest;
      assert Flatten(ps[..i + 1]) == message;
    }
  }

  /** Reading undoes writing: it gives the message and the nonce the writer
      ended with, and leaves what was written behind the message. */
  lemma ReadUndoesWrite(env: Env, key: Key, peerMessage: bool, message: seq<byte>, rest: seq<byte>)
    requires SoundCrypto(env) && message != []
    requires peerMessage ==> |message| >= 4 && BeVal(message[..4]) + 4 == |message|
    requires !peerMessage ==> |message| <= PIECE
    ensures Small(Pieces(message))
    ensures Reading(env, key, peerMessage, [], 0, Flatten(Sealed(env, key, Pieces(message))) + rest) ==
            (Got(key.nonce + |Pieces(message)|, message), rest)
  {
    hide Sealed, Pieces, BeVal, Reading, SoundCrypto;
    PiecesSound(message);
    NothingSealed(env, key);
    var ps := Pieces(message);
    assert ps[..0] == [] && ps[0..] == ps && Later(key, 0) == key;
    ReadingPieces(env, key, peerMessage, message, rest, 0);
  }

  /** A chunk with the largest body does not fit the reader's buffer. */
  lemma LargestNeverArrives(s: seq<byte>)
    requires HasChunk(s)
    ensures !Arrives(s) <==> s[0] == 0xff && s[1] == 0xff
  {
  }

  lemma OnePieceMore(ps: seq<seq<byte>>, i: nat)
    requires i < |ps|
    ensures Flatten(ps[..i + 1]) == Flatten(ps[..i]) + ps[i]
  {
    assert ps[..i + 1] == ps[..i] + [ps[i]];
    FlattenAppend(ps[..i], [ps[i]]);
    FlattenOne(ps[i]);
  }

  lemma OnePiece(message: seq<byte>)
    requires 0 < |message| <= PIECE
    ensures Pieces(message) == [message]
  {
  }
}
