/** From the peer that writes messages to the messages the recorder stores. */
module EndToEnd {
  import opened Wrappers
  import opened Bytes
  import opened Common
  import opened StreamBuffer
  import opened MessageParsing
  import opened ChunkParser
  import opened MessageRanges
  import opened Directions
  import opened Pseudonode

  /** A peer message whose header states its remaining length. */
  predicate WellFormed(m: seq<byte>) {
    6 <= |m| < 0x1_0000_0000 && BeVal(m[..4]) + 4 == |m|
  }

  /** What one side sends: connection message, metadata, acknowledge, peer messages. */
  datatype Script = Script(connection: seq<byte>, meta: seq<byte>, ack: seq<byte>, peers: seq<seq<byte>>)

  ghost predicate Proper(s: Script) {
    && 82 <= |s.connection| <= 0xffff
    && 2 <= |s.meta| <= PIECE && 1 <= |s.ack| <= PIECE
    && forall i :: 0 <= i < |s.peers| ==> WellFormed(s.peers[i])
  }

  /** The pieces of the peer messages, in order. */
  function PeerPieces(peers: seq<seq<byte>>): seq<seq<byte>>
    decreases |peers|
  {
    if peers == [] then [] else PeerPieces(peers[..|peers| - 1]) + Pieces(peers[|peers| - 1])
  }

  /** The plain texts of all chunks that are sent. */
  function SentPlains(s: Script): seq<seq<byte>> {
    [s.connection, s.meta, s.ack] + PeerPieces(s.peers)
  }

  /** The number of chunks before peer message `i`. */
  function Start(peers: seq<seq<byte>>, i: nat): nat
    requires i <= |peers|
  {
    3 + |PeerPieces(peers[..i])|
  }

  /** The chunk ranges the peer messages should get. */
  function SentGroups(peers: seq<seq<byte>>): seq<Group>
    decreases |peers|
  {
    if peers == [] then []
    else
      var n := |peers| - 1;
      var first := 3 + |PeerPieces(peers[..n])|;
      SentGroups(peers[..n]) + [Group(first, first + |Pieces(peers[n])|, true)]
  }

  // ---------------------------------------------------------------- sizes of pieces

  lemma {:induction false} PieceSizes(pre: seq<seq<byte>>, ps: seq<seq<byte>>, post: seq<seq<byte>>)
    ensures Size(pre + ps + post, |pre|, |pre| + |ps|) == |Flatten(ps)|
    decreases |ps|
  {
    var all := pre + ps + post;
    if ps != [] {
      var n := |ps| - 1;
      PieceSizes(pre, ps[..n], [ps[n]] + post);
      assert pre + ps[..n] + ([ps[n]] + post) == all;
      assert ps == ps[..n] + [ps[n]];
      FlattenAppend(ps[..n], [ps[n]]);
      FlattenOne(ps[n]);
      assert all[|pre| + n] == ps[n];
    }
  }

  lemma HeaderOfPieces(m: seq<byte>)
    requires WellFormed(m)
    ensures Pieces(m) != [] && |Pieces(m)[0]| >= 6 && Declared(Pieces(m)[0]) == |m|
    ensures Pieces(m)[0][4..6] == m[4..6]
  {
    hide BeVal;
    PiecesSound(m);
    assert Pieces(m)[0][..4] == m[..4];
  }

  lemma PiecesUnfinished(pre: seq<seq<byte>>, m: seq<byte>)
    requires WellFormed(m) && |Pieces(m)| > 1
    ensures Unfinished(pre + Pieces(m), |pre|, |pre| + |Pieces(m)| - 1)
  {
    hide BeVal, Pieces, Declared;
    var ps := Pieces(m);
    var all, i, k := pre + ps, |pre|, |ps|;
    PiecesSound(m);
    HeaderOfPieces(m);
    PieceSizes(pre, ps[..k - 1], [ps[k - 1]]);
    assert pre + ps[..k - 1] + [ps[k - 1]] == all;
    PiecesReadSoFar(m, k - 1);
    assert forall j :: i <= j < i + k - 1 ==> all[j] == ps[j - i];
  }

  /** The pieces of a well-formed message are a complete group wherever they stand. */
  lemma MessageIsGroup(pre: seq<seq<byte>>, m: seq<byte>)
    requires |pre| >= 3 && WellFormed(m)
    ensures IsGroup(pre + Pieces(m), Group(|pre|, |pre| + |Pieces(m)|, true))
  {
    hide BeVal, Pieces, Declared, Unfinished, Size;
    var ps := Pieces(m);
    PiecesSound(m);
    HeaderOfPieces(m);
    assert pre + ps + [] == pre + ps;
    PieceSizes(pre, ps, []);
    assert (pre + ps)[|pre|] == ps[0] && (pre + ps)[|pre| + |ps| - 1] == ps[|ps| - 1];
    if |ps| > 1 {
      PiecesUnfinished(pre, m);
    }
  }

  lemma NoTiles(plains: seq<seq<byte>>)
    ensures Tiled(plains, []) && EndOf([]) == 3
  {
  }

  lemma {:induction false} SentTiled(s: Script, peers: seq<seq<byte>>)
    requires forall i :: 0 <= i < |peers| ==> WellFormed(peers[i])
    ensures var plains := [s.connection, s.meta, s.ack] + PeerPieces(peers);
            Tiled(plains, SentGroups(peers)) && EndOf(SentGroups(peers)) == |plains|
    decreases |peers|
  {
    hide IsGroup, WellFormed, Pieces, Tiled, EndOf;
    if peers == [] {
      NoTiles([s.connection, s.meta, s.ack]);
      assert [s.connection, s.meta, s.ack] + [] == [s.connection, s.meta, s.ack];
    } else {
      var n := |peers| - 1;
      var head := [s.connection, s.meta, s.ack];
      var pre := head + PeerPieces(peers[..n]);
      SentTiled(s, peers[..n]);
      var ps := Pieces(peers[n]);
      assert head + PeerPieces(peers) == pre + ps;
      TiledPrefix(pre, ps, SentGroups(peers[..n]));
      MessageIsGroup(pre, peers[n]);
      TiledAdd(pre + ps, SentGroups(peers[..n]), Group(|pre|, |pre| + |ps|, true));
    }
  }

  /** What was sent is understood as what was meant. */
  lemma SentUnderstood(s: Script)
    requires Proper(s)
    ensures Understood(SentPlains(s), SentGroups(s.peers))
  {
    SentTiled(s, s.peers);
    var plains := SentPlains(s);
    assert plains[0] == s.connection && plains[1] == s.meta && plains[2] == s.ack;
  }

  // ---------------------------------------------------------------- the sent stream

  lemma {:induction false} PeerPiecesSmall(peers: seq<seq<byte>>)
    ensures Small(PeerPieces(peers))
    decreases |peers|
  {
    if peers != [] {
      PeerPiecesSmall(peers[..|peers| - 1]);
      PiecesSound(peers[|peers| - 1]);
    }
  }

  /** Everything encrypted: metadata, acknowledge and the pieces of the peer messages. */
  function SentPieces(s: Script): seq<seq<byte>> {
    [s.meta, s.ack] + PeerPieces(s.peers)
  }

  lemma SentPiecesSmall(s: Script)
    requires Proper(s)
    ensures Small(SentPieces(s))
  {
    PeerPiecesSmall(s.peers);
  }

  ghost function SentChunks(env: Env, key: Key, s: Script): seq<seq<byte>>
    requires SoundCrypto(env) && Proper(s)
  {
    SentPiecesSmall(s);
    [Frame(s.connection)] + Sealed(env, key, SentPieces(s))
  }

  /** The bytes on the wire are what `write_msg` writes, message by message. */
  method Send(env: Env, s: Script, key: Key) returns (stream: seq<byte>)
    requires SoundCrypto(env) && Proper(s)
    ensures stream == Flatten(SentChunks(env, key, s))
  {
    hide SoundCrypto, Sealed, Pieces, Flatten, Frame;
    ghost var first := Frame(s.connection);
    var nonce;
    stream := Frame(s.connection);
    OnePiece(s.meta);
    OnePiece(s.ack);
    stream, nonce := WriteMsg(env, s.meta, stream, key);
    stream, nonce := WriteMsg(env, s.ack, stream, key.(nonce := nonce));
    ghost var done: seq<seq<byte>> := [s.meta, s.ack];
    WrittenTwo(env, key, s.meta, s.ack);
    assert stream == first + Flatten(Sealed(env, key, done));
    var i := 0;
    assert done == [s.meta, s.ack] + [] && PeerPieces(s.peers[..0]) == [];
    while i < |s.peers|
      invariant i <= |s.peers| && done == [s.meta, s.ack] + PeerPieces(s.peers[..i])
      invariant Small(done) && nonce == key.nonce + |done|
      invariant stream == first + Flatten(Sealed(env, key, done))
    {
      ghost var ps := Pieces(s.peers[i]);
      stream, nonce := WriteMsg(env, s.peers[i], stream, key.(nonce := nonce));
      WrittenMore(env, key, done, ps);
      assert s.peers[..i + 1][..i] == s.peers[..i];
      assert done + ps == [s.meta, s.ack] + (PeerPieces(s.peers[..i]) + ps);
      done := done + ps;
      i := i + 1;
    }
    assert s.peers[..i] == s.peers;
    FirstThen(first, Sealed(env, key, SentPieces(s)));
  }

  lemma FirstThen(first: seq<byte>, rest: seq<seq<byte>>)
    ensures Flatten([first] + rest) == first + Flatten(rest)
  {
    assert ([first] + rest)[1..] == rest;
  }

  lemma WrittenMore(env: Env, key: Key, done: seq<seq<byte>>, ps: seq<seq<byte>>)
    requires SoundCrypto(env) && Small(done) && Small(ps)
    ensures Small(done + ps)
    ensures Flatten(Sealed(env, key, done)) + Flatten(Sealed(env, Later(key, |done|), ps)) ==
            Flatten(Sealed(env, key, done + ps))
  {
    SealedAppend(env, key, done, ps);
    FlattenAppend(Sealed(env, key, done), Sealed(env, Later(key, |done|), ps));
  }

  lemma WrittenTwo(env: Env, key: Key, a: seq<byte>, b: seq<byte>)
    requires SoundCrypto(env) && |a| <= PIECE && |b| <= PIECE
    ensures Small([a]) && Small([b]) && Small([a, b])
    ensures Flatten(Sealed(env, key, [a])) + Flatten(Sealed(env, Later(key, 1), [b])) ==
            Flatten(Sealed(env, key, [a, b]))
  {
    WrittenMore(env, key, [a], [b]);
    assert [a] + [b] == [a, b];
  }

  // ---------------------------------------------------------------- what is read back

  lemma SentChunkAt(env: Env, key: Key, s: Script, i: nat)
    requires SoundCrypto(env) && Proper(s) && i < |SentChunks(env, key, s)|
    ensures |SentChunks(env, key, s)| == |SentPlains(s)| && AllChunks(SentChunks(env, key, s))
    ensures i == 0 ==> SentChunks(env, key, s)[i][2..] == SentPlains(s)[i]
    ensures i > 0 ==> env.decrypt(key.secret, key.nonce + (i - 1), SentChunks(env, key, s)[i][2..]) ==
                      Some(SentPlains(s)[i])
  {
    hide SoundCrypto, Seal, Sealed, PeerPieces;
    SentPiecesSmall(s);
    var ps := SentPieces(s);
    SealedSound(env, key, ps);
    assert SentPlains(s) == [s.connection] + ps;
    if i > 0 {
      SealOpens(env, Later(key, i - 1), ps[i - 1]);
    }
  }

  /** The recorder decrypts every chunk to the plain text that was sent. */
  lemma SentClear(env: Env, item: ConnItem, sender: Sender, key: Key, s: Script)
    requires SoundCrypto(env) && Proper(s)
    ensures var cs := SentChunks(env, key, s);
            AllChunks(cs) && cs != [] && Readable(env, key, cs) == |cs| &&
            Plains(Clear(env, item, sender, key, cs)) == SentPlains(s)
  {
    hide SoundCrypto, SentChunks, SentPlains, Good, Clear, Numbered;
    var cs := SentChunks(env, key, s);
    SentNotEmpty(env, key, s);
    SentChunkAt(env, key, s, 0);
    var rest := cs[1..];
    if Good(env, key, rest) < |rest| {
      var g := Good(env, key, rest);
      GoodFails(env, key, rest);
      SentChunkAt(env, key, s, g + 1);
    }
    var clear := Clear(env, item, sender, key, cs);
    ClearAt(env, item, sender, key, cs);
    ClearFirst(env, item, sender, key, cs);
    forall i | 0 <= i < |cs| ensures Plains(clear)[i] == SentPlains(s)[i] {
      SentChunkAt(env, key, s, i);
    }
  }

  lemma SentNotEmpty(env: Env, key: Key, s: Script)
    requires SoundCrypto(env) && Proper(s)
    ensures SentChunks(env, key, s) != [] && SentChunks(env, key, s)[0] == Frame(s.connection)
  {
  }

  lemma ClearFirst(env: Env, item: ConnItem, sender: Sender, key: Key, cs: seq<seq<byte>>)
    requires AllChunks(cs) && cs != []
    ensures var clear := Clear(env, item, sender, key, cs); clear != [] && clear[0].plain == cs[0][2..]
  {
  }

  /** Message `i` among the peer messages. */
  function SentMessage(env: Env, item: ConnItem, cs: seq<Chunk>, peers: seq<seq<byte>>, i: nat): Message
    requires i < |peers| && Start(peers, i + 1) <= |cs|
  {
    Build(env, item, cs[Start(peers, i + 1) - 1], P2p(KindFromTag(if |peers[i]| >= 6 then BeVal(peers[i][4..6]) else 0)),
          Start(peers, i), Start(peers, i + 1))
  }

  lemma {:induction false} StartMonotone(peers: seq<seq<byte>>, i: nat)
    requires i < |peers|
    ensures Start(peers, i + 1) == Start(peers, i) + |Pieces(peers[i])|
  {
    assert peers[..i + 1][..i] == peers[..i];
  }

  /** Message `i` of those recorded is message `i` of those sent. */
  ghost predicate SentAt(env: Env, item: ConnItem, cs: seq<Chunk>, peers: seq<seq<byte>>, ms: seq<Message>, i: nat) {
    i < |peers| && i < |ms| && Start(peers, i + 1) <= |cs| && ms[i] == SentMessage(env, item, cs, peers, i)
  }

  lemma {:induction false} PeersSent(env: Env, item: ConnItem, cs: seq<Chunk>, s: Script, n: nat)
    requires Proper(s) && n <= |s.peers| && Plains(cs) == SentPlains(s)
    requires Tiled(Plains(cs), SentGroups(s.peers[..n]))
    ensures var ms := Peers(env, item, cs, SentGroups(s.peers[..n]));
            |ms| == n && forall i :: 0 <= i < n ==> SentAt(env, item, cs, s.peers, ms, i)
    decreases n
  {
    hide Build, Proper, Plains, Tiled, SentGroups, Start, SentPlains, SentAt;
    if n == 0 {
      NoPeers(env, item, cs, s.peers);
    } else {
      var k := n - 1;
      SentGroupsStep(s.peers, k);
      var gs, g := SentGroups(s.peers[..k]), Group(Start(s.peers, k), Start(s.peers, n), true);
      PieceInPlace(cs, s, k);
      PeersAdd(env, item, cs, gs, g);
      PeersSent(env, item, cs, s, k);
      ProperPeer(s, k);
      var ms, more := Peers(env, item, cs, gs), Peers(env, item, cs, gs + [g]);
      LastSent(env, item, cs, s.peers, more, k);
      forall i | 0 <= i < k ensures SentAt(env, item, cs, s.peers, more, i) {
        StillSent(env, item, cs, s.peers, ms, more, i);
      }
    }
  }

  lemma LastSent(env: Env, item: ConnItem, cs: seq<Chunk>, peers: seq<seq<byte>>, ms: seq<Message>, k: nat)
    requires k < |peers| && |ms| == k + 1 && 0 < Start(peers, k + 1) <= |cs| && |peers[k]| >= 6
    requires ms[k] == Build(env, item, cs[Start(peers, k + 1) - 1], P2p(KindFromTag(BeVal(peers[k][4..6]))),
                            Start(peers, k), Start(peers, k + 1))
    ensures SentAt(env, item, cs, peers, ms, k)
  {
    hide Build, Start;
  }

  lemma StillSent(env: Env, item: ConnItem, cs: seq<Chunk>, peers: seq<seq<byte>>, ms: seq<Message>, more: seq<Message>,
                  i: nat)
    requires SentAt(env, item, cs, peers, ms, i) && ms <= more
    ensures SentAt(env, item, cs, peers, more, i)
  {
    hide Start;
  }

  lemma ProperPeer(s: Script, k: nat)
    requires Proper(s) && k < |s.peers|
    ensures |s.peers[k]| >= 6
  {
  }

  lemma NoPeers(env: Env, item: ConnItem, cs: seq<Chunk>, peers: seq<seq<byte>>)
    ensures SentGroups(peers[..0]) == [] && Tiled(Plains(cs), []) && Peers(env, item, cs, []) == []
  {
  }

  lemma SentGroupsStep(peers: seq<seq<byte>>, k: nat)
    requires k < |peers|
    ensures SentGroups(peers[..k + 1]) ==
            SentGroups(peers[..k]) + [Group(Start(peers, k), Start(peers, k + 1), true)]
  {
    StartMonotone(peers, k);
    assert peers[..k + 1][..k] == peers[..k];
  }

  lemma PeersAdd(env: Env, item: ConnItem, cs: seq<Chunk>, gs: seq<Group>, g: Group)
    requires Tiled(Plains(cs), gs + [g]) && g.complete
    ensures Tiled(Plains(cs), gs) && 3 <= g.first < g.end <= |cs| && |cs[g.first].plain| >= 6
    ensures Peers(env, item, cs, gs + [g]) ==
            Peers(env, item, cs, gs) +
            [Build(env, item, cs[g.end - 1], P2p(KindFromTag(BeVal(cs[g.first].plain[4..6]))), g.first, g.end)]
  {
    hide Build, BeVal, KindFromTag;
    assert (gs + [g])[..|gs|] == gs;
  }

  /** The first piece of a message is where its range starts. */
  lemma PieceInPlace(cs: seq<Chunk>, s: Script, k: nat)
    requires Proper(s) && k < |s.peers| && Plains(cs) == SentPlains(s)
    ensures Start(s.peers, k) < Start(s.peers, k + 1) <= |cs|
    ensures |cs[Start(s.peers, k)].plain| >= 6 && cs[Start(s.peers, k)].plain[4..6] == s.peers[k][4..6]
    ensures Flatten(Plains(cs)[Start(s.peers, k)..Start(s.peers, k + 1)]) == s.peers[k]
  {
    hide Pieces, Flatten, PeerPieces;
    var m := s.peers[k];
    var a, b := Start(s.peers, k), Start(s.peers, k + 1);
    StartMonotone(s.peers, k);
    PiecesSound(m);
    HeaderOfPieces(m);
    SlicesAre(s, k);
    var ps := Pieces(m);
    assert Plains(cs)[a..b] == ps;
    assert Plains(cs)[a] == Plains(cs)[a..b][0] && Plains(cs)[a] == cs[a].plain;
  }

  lemma {:induction false} PiecesWithin(peers: seq<seq<byte>>, k: nat)
    requires k < |peers|
    ensures |PeerPieces(peers[..k])| <= |PeerPieces(peers[..k + 1])| <= |PeerPieces(peers)|
    ensures PeerPieces(peers)[|PeerPieces(peers[..k])|..|PeerPieces(peers[..k + 1])|] == Pieces(peers[k])
    decreases |peers|
  {
    hide Pieces;
    var n := |peers| - 1;
    assert peers[..k + 1][..k] == peers[..k];
    if k < n {
      PiecesWithin(peers[..n], k);
      assert peers[..n][..k] == peers[..k] && peers[..n][..k + 1] == peers[..k + 1];
    } else {
      assert peers[..k + 1] == peers;
    }
  }

  lemma SlicesAre(s: Script, k: nat)
    requires k < |s.peers|
    ensures Start(s.peers, k) <= Start(s.peers, k + 1) <= |SentPlains(s)|
    ensures SentPlains(s)[Start(s.peers, k)..Start(s.peers, k + 1)] == Pieces(s.peers[k])
  {
    hide Pieces, PeerPieces;
    PiecesWithin(s.peers, k);
    StartMonotone(s.peers, k);
    var x, y := |PeerPieces(s.peers[..k])|, |PeerPieces(s.peers[..k + 1])|;
    assert SentPlains(s)[3 + x..3 + y] == PeerPieces(s.peers)[x..y];
  }
}
