/** What every run of a connection guarantees for each of its directions. */
module RunLaws {
  import opened Wrappers
  import opened Bytes
  import opened Common
  import opened StreamBuffer
  import opened MessageParsing
  import opened ChunkParser
  import opened Segmentation
  import opened MessageRanges
  import opened MessageLaws
  import opened Directions
  import opened Connections
  import opened ConnectionRuns
  import opened Pseudonode
  import opened EndToEnd
  import opened Peering

  /** Filtering by direction keeps the order of what is stored. */
  lemma {:induction false} ByIn(es: seq<Effect>, sender: Sender)
    requires AllOf(es, sender)
    ensures MessagesIn(By(es, sender)) == MessagesIn(es) && ChunksIn(By(es, sender)) == ChunksIn(es)
  {
    hide MessagesIn, ChunksIn;
    if es == [] {
    } else {
      var e, rest := es[0], es[1..];
      assert es == [e] + rest;
      ByIn(rest, sender);
      InAppend([e], rest);
      if e.PutConnection? {
        InConnection(e);
        assert [] + MessagesIn(rest) == MessagesIn(rest) && [] + ChunksIn(rest) == ChunksIn(rest);
      } else {
        InAppend([e], By(rest, sender));
      }
    }
  }

  lemma KeyedAllOf(env: Env, item: ConnItem, sender: Sender, key: Key, cs: seq<seq<byte>>)
    requires SoundCrypto(env) && AllChunks(cs) && cs != []
    ensures AllOf(Keyed(env, item, sender, key, cs).effects, sender)
  {
    hide MpStep, MpRun, Keyed, Clear, Opaques, SoundCrypto, Numbered;
    KeyedIsRuns(env, item, sender, key, cs);
    ClearAt(env, item, sender, key, cs);
    OpaquesShape(env, item, sender, key, cs);
    var clear, ops := Clear(env, item, sender, key, cs), Opaques(env, item, sender, key, cs);
    RunAllOf(env, item, FRESH, clear, sender);
    var r := MpRun(env, item, FRESH, clear);
    RunAllOf(env, MarkCannotDecrypt(r.item, sender, Readable(env, key, cs)), r.mp, ops, sender);
  }

  function HalfOf(c: Conn, sender: Sender): Half
    requires c.phase.Done?
  {
    if sender.Local? then LocalHalf(c) else RemoteHalf(c)
  }

  function KeyFor(keys: (Key, Key), sender: Sender): Key {
    if sender.Local? then keys.0 else keys.1
  }

  /** The keys a run derives once both connection messages are there. */
  function RunKeys(env: Env, c0: Conn, es: seq<Event>): Option<(Key, Key)>
    requires Completed(es)
  {
    MakeKeys(env, FirstChunk(Of(es, Local)), FirstChunk(Of(es, Remote)), c0.item.initiator)
  }

  /** What a keyed direction has stored after a run, as a function of its
      bytes, whatever the other direction did and however the bytes were cut
      into payloads: every complete chunk under its number, except the first
      one that does not decrypt, whose number is remarked; and the messages of
      the longest understood run of readable chunks. */
  lemma DirectionOfRun(env: Env, c0: Conn, es: seq<Event>, sender: Sender, keys: (Key, Key))
    returns (h: nat, groups: seq<Group>)
    requires SoundCrypto(env) && Inv(c0) && Fresh(c0) && Captured(es)
    requires EarlyOk(es) && Completed(es) && RunKeys(env, c0, es) == Some(keys) && FedAfter(es, sender)
    ensures var key, cs := KeyFor(keys, sender), Chunks(Of(es, sender));
            AllChunks(cs) && cs != [] &&
            var clear, f := Clear(env, c0.item, sender, key, cs), Readable(env, key, cs);
            var (c, effects) := Run(env, c0, es);
            && |clear| == f && h <= f && Understood(Plains(clear[..h]), groups)
            && (h < f ==> TooSmallNext(Plains(clear[..h]), groups, clear[h].plain))
            && ChunksIn(By(effects, sender)) == clear + Opaques(env, c0.item, sender, key, cs)
            && MessagesIn(By(effects, sender)) == Expected(env, c0.item, clear[..h], groups)
            && c.phase.Done? && HalfOf(c, sender).buf == Buf(|cs|, Tail(Of(es, sender)))
            && (HalfOf(c, sender).mode.CannotDecrypt? <==> f < |cs|)
            && CannotDecryptAt(c.item, sender) == if f < |cs| then Some(f) else None
  {
    hide Run, Keyed, By, MessagesIn, ChunksIn, Understood, TooSmallNext, Expected, Opaques, MakeKeys, Tracks;
    RunShape(env, c0, es);
    var (c, effects) := Run(env, c0, es);
    var key, cs, item := KeyFor(keys, sender), Chunks(Of(es, sender)), c0.item;
    h, groups := KeyedMeaning(env, item, sender, key, cs);
    KeyedAllOf(env, item, sender, key, cs);
    KeyedMark(env, item, sender, key, cs);
    ByIn(Keyed(env, item, sender, key, cs).effects, sender);
  }

  /** Nothing is lost or invented in a run: the stored chunks, with the one
      undecryptable chunk in the place that is remarked, and what is still
      buffered, are all the bytes the side sent. */
  lemma RunConserves(env: Env, c0: Conn, es: seq<Event>, sender: Sender, keys: (Key, Key)) returns (dropped: seq<byte>)
    requires SoundCrypto(env) && Inv(c0) && Fresh(c0) && Captured(es)
    requires EarlyOk(es) && Completed(es) && RunKeys(env, c0, es) == Some(keys) && FedAfter(es, sender)
    ensures var (c, effects) := Run(env, c0, es);
            var cs := ChunksIn(By(effects, sender));
            c.phase.Done? &&
            var pending := HalfOf(c, sender).buf.data;
            match CannotDecryptAt(c.item, sender)
            case None => Flatten(BytesOf(cs)) + pending == Of(es, sender)
            case Some(f) =>
              && f <= |cs| && IsChunk(dropped)
              && Flatten(BytesOf(cs[..f])) + dropped + Flatten(BytesOf(cs[f..])) + pending == Of(es, sender)
  {
    hide Run, By, MessagesIn, ChunksIn, Understood, TooSmallNext, Expected, Opaques, Clear, Readable, MakeKeys, Chunks, Tail,
         Of, EarlyOk, FedAfter, Flatten, BytesOf;
    var h, groups := DirectionOfRun(env, c0, es, sender, keys);
    var key, stream := KeyFor(keys, sender), Of(es, sender);
    var all := Chunks(stream);
    Conservation(env, c0.item, sender, key, stream);
    var clear, ops := Clear(env, c0.item, sender, key, all), Opaques(env, c0.item, sender, key, all);
    var f := Readable(env, key, all);
    OpaquesShape(env, c0.item, sender, key, all);
    assert (clear + ops)[..f] == clear && (clear + ops)[f..] == ops;
    dropped := if f == |all| then [] else all[f];
    if f == |all| {
      assert clear + ops == clear && BytesOf(ops) == [];
      NothingBetween(Flatten(BytesOf(clear)), Tail(stream));
    }
  }

  lemma NothingBetween(a: seq<byte>, b: seq<byte>)
    ensures a + [] + Flatten([]) + b == a + b
  {
  }

  /** The messages of a direction after a run: the connection, metadata and
      acknowledge messages own chunks 0, 1 and 2; the peer messages follow with
      ordered, disjoint ranges of stored chunks, each as long as its header
      says. */
  lemma RunRanges(env: Env, c0: Conn, es: seq<Event>, sender: Sender, keys: (Key, Key))
    requires SoundCrypto(env) && Inv(c0) && Fresh(c0) && Captured(es)
    requires EarlyOk(es) && Completed(es) && RunKeys(env, c0, es) == Some(keys) && FedAfter(es, sender)
    ensures var stored := By(Run(env, c0, es).1, sender);
            var cs, ms := ChunksIn(stored), MessagesIn(stored);
            && Ordered(ms)
            && (forall i :: 0 <= i < |ms| && i < 3 ==> i < |cs| && ms[i] == HandshakeMessage(env, c0.item, cs[i], i))
            && (forall i :: 3 <= i < |ms| ==> IsPeerMessage(cs, ms[i]))
            && (forall i :: 0 <= i < |ms| ==> RowOf(env, c0.item, sender, ms[i]))
  {
    hide Run, By, MessagesIn, ChunksIn, Understood, TooSmallNext, Expected, Opaques, Clear, Readable, MakeKeys, Chunks, Tail,
         Of, EarlyOk, FedAfter, IsPeerMessage, Ordered, HandshakeMessage, RowOf;
    var h, groups := DirectionOfRun(env, c0, es, sender, keys);
    var key, all := KeyFor(keys, sender), Chunks(Of(es, sender));
    var clear, ops := Clear(env, c0.item, sender, key, all), Opaques(env, c0.item, sender, key, all);
    var understood := clear[..h];
    UnderstoodTiles(Plains(understood), groups);
    RangesOrdered(env, c0.item, understood, groups);
    ClearDirection(env, c0.item, sender, key, all);
    ExpectedRows(env, c0.item, understood, groups, sender);
    var ms, cs := Expected(env, c0.item, understood, groups), clear + ops;
    assert cs == understood + cs[h..];
    forall i | 3 <= i < |ms| ensures IsPeerMessage(cs, ms[i]) {
      PeerOfMore(understood, cs[h..], ms[i]);
    }
  }

  lemma ClearDirection(env: Env, item: ConnItem, sender: Sender, key: Key, cs: seq<seq<byte>>)
    requires AllChunks(cs) && cs != []
    ensures var clear := Clear(env, item, sender, key, cs);
            |clear| == Readable(env, key, cs) && OfDirection(clear, item.key, sender)
  {
    var clear, rest := Clear(env, item, sender, key, cs), cs[1..];
    DecodedAt(env, item.key, sender, key, 1, rest);
    var ds := Decoded(env, item.key, sender, key, 1, rest);
    forall i | 1 <= i < |clear| ensures clear[i] == Chunk(item.key, sender, i, rest[i - 1], ds[i - 1].plain) {
      assert clear[i] == ds[i - 1];
    }
  }

  lemma PeerOfMore(cs: seq<Chunk>, more: seq<Chunk>, m: Message)
    requires IsPeerMessage(cs, m)
    ensures IsPeerMessage(cs + more, m)
  {
    assert Plains(cs + more) == Plains(cs) + Plains(more);
    SizePrefix(Plains(cs), Plains(more), m.first, m.end);
  }

  /** Before the direction is fed again only its connection message is
      stored; complete chunks that arrived too early wait in the buffer. */
  lemma UnfedDirection(env: Env, c0: Conn, es: seq<Event>, sender: Sender, keys: (Key, Key))
    requires Inv(c0) && Fresh(c0) && Captured(es)
    requires EarlyOk(es) && Completed(es) && RunKeys(env, c0, es) == Some(keys) && !FedAfter(es, sender)
    ensures var (c, effects) := Run(env, c0, es);
            var stream := Of(es, sender);
            var cm := ConnectionChunk(c0.item, sender, FirstChunk(stream));
            && c.phase.Done? && HalfOf(c, sender).buf == Buf(1, AfterFirst(stream))
            && ChunksIn(By(effects, sender)) == [cm]
            && MessagesIn(By(effects, sender)) ==
               (if |cm.plain| < 82 then [] else [Build(env, c0.item, cm, Connection, 0, 1)])
            && (forall m :: m in MessagesIn(By(effects, sender)) ==> RowOf(env, c0.item, sender, m))
  {
    hide Run, Keyed, By, MessagesIn, ChunksIn, MakeKeys, MpStep;
    RunShape(env, c0, es);
    var stream := Of(es, sender);
    var cm := ConnectionChunk(c0.item, sender, FirstChunk(stream));
    StepStoresChunk(env, c0.item, FRESH, cm);
  }

  lemma StepStoresChunk(env: Env, item: ConnItem, mp: Mp, c: Chunk)
    requires c.bytes != []
    ensures ChunksIn(MpStep(env, item, mp, c).effects) == [c]
    ensures mp == FRESH && c.counter == 0 ==>
              MessagesIn(MpStep(env, item, mp, c).effects) ==
              if |c.plain| < 82 then [] else [Build(env, item, c, Connection, 0, 1)]
  {
    OneEffect(c);
    var e := MpStep(env, item, mp, c).effects;
    assert e == [PutChunk(c)] || (|e| == 2 && e[0] == PutChunk(c) && e[1].PutMessage?);
    if |e| == 2 {
      TwoEffects(c, e[1].message);
      assert e == [PutChunk(c), PutMessage(e[1].message)];
    }
  }

  /** A side that sends a complete chunk right behind its connection message,
      and nothing more after the other side's: the chunk stays in the buffer. */
  lemma EarlyChunkWaits(env: Env, c0: Conn, remote: seq<byte>, early: seq<byte>, local: seq<byte>)
    requires Inv(c0) && Fresh(c0) && IsChunk(remote) && IsChunk(early) && IsChunk(local)
    requires |local| >= 36 && |remote| >= 36 && env.publicKey == local[4..36]
    ensures var (c, effects) := Run(env, c0, [Event(remote + early, Remote), Event(local, Local)]);
            && c.phase.Done? && RemoteHalf(c).buf == Buf(1, early) && HasChunk(early)
            && ChunksIn(By(effects, Remote)) == [ConnectionChunk(c0.item, Remote, remote)]
  {
    hide Run, By, MessagesIn, ChunksIn, Inv, Fresh, EarlyOk, FedAfter, Of;
    var es := [Event(remote + early, Remote), Event(local, Local)];
    EarlyPayloads(remote + early, local);
    ChunkInFront(remote, early);
    OneWhole(local);
    OneWhole(early);
    UnfedDirection(env, c0, es, Remote, RunKeys(env, c0, es).value);
  }

  lemma EarlyPayloads(r: seq<byte>, l: seq<byte>)
    ensures var es := [Event(r, Remote), Event(l, Local)];
            && Of(es, Remote) == r && Of(es, Local) == l && !FedAfter(es, Remote)
            && EarlyOk(es)
  {
    NoChunkInNothing();
    hide HasChunk;
    var none: seq<Event> := [];
    var first, second := Event(r, Remote), Event(l, Local);
    assert none + [first] == [first] && [first] + [second] == [first, second];
    OfAdd(none, first, Local);
    OfAdd(none, first, Remote);
    OfAdd([first], second, Local);
    OfAdd([first], second, Remote);
    assert Of([first], Local) == [];
  }

  lemma OneWhole(c: seq<byte>)
    requires IsChunk(c)
    ensures HasChunk(c) && FirstChunk(c) == c
  {
  }

  /** The recorder gives a connection up exactly when one side sent more than
      the early limit before the other side's connection message was there. */
  lemma UncertainIff(env: Env, c0: Conn, es: seq<Event>)
    requires Inv(c0) && Fresh(c0) && Captured(es)
    ensures Run(env, c0, es).0.phase == Done(Uncertain, Uncertain) <==> !EarlyOk(es)
    ensures Run(env, c0, es).0.phase.Done? <==> !EarlyOk(es) || Completed(es)
  {
    hide Run, By, MakeKeys, IsUnread, EarlyOk, Completed, IsKeyed, Of;
    RunShape(env, c0, es);
    if EarlyOk(es) && Completed(es) && RunKeys(env, c0, es).Some? {
      var (c, effects) := Run(env, c0, es);
      KeyedIsCut(env, c0.item, Local, RunKeys(env, c0, es).value.0, Of(es, Local), FedAfter(es, Local),
                 LocalHalf(c), By(effects, Local));
    }
  }

  lemma KeyedIsCut(env: Env, item: ConnItem, sender: Sender, key: Key, stream: seq<byte>, fed: bool, h: Half,
                   stored: seq<Effect>)
    requires IsKeyed(env, item, sender, key, stream, fed, h, stored)
    ensures Cuts(h)
  {
    hide MpStep, OneChunk, By;
    if fed {
      var cs := Chunks(stream);
      var s := MpStep(env, item, FRESH, ConnectionChunk(item, sender, cs[0]));
      ManyKeepsCuts(env, sender, Line(s.item, HaveKey(key), 1, s.mp), cs[1..]);
    }
  }

  /** A connection that is given up keeps the bytes, except the payload it
      was given up on, and stores no message. */
  lemma GivenUp(env: Env, c0: Conn, es: seq<Event>, sender: Sender)
    requires Inv(c0) && Fresh(c0) && Captured(es) && !EarlyOk(es)
    ensures var stored := By(Run(env, c0, es).1, sender);
            MessagesIn(stored) == [] && Flatten(BytesOf(ChunksIn(stored))) == Taken(es, sender)
  {
    hide Run, By, MakeKeys, ChunksIn, MessagesIn, Taken, EarlyOk;
    RunShape(env, c0, es);
  }

  /** The same without any exception when no key could be derived. */
  lemma NoKey(env: Env, c0: Conn, es: seq<Event>, sender: Sender)
    requires Inv(c0) && Fresh(c0) && Captured(es) && EarlyOk(es) && Completed(es) && RunKeys(env, c0, es).None?
    ensures var stored := By(Run(env, c0, es).1, sender);
            MessagesIn(stored) == [] && Flatten(BytesOf(ChunksIn(stored))) == Of(es, sender)
  {
    hide Run, By, MakeKeys, ChunksIn, MessagesIn, Of, EarlyOk;
    RunShape(env, c0, es);
  }

  // ---------------------------------------------------------------- the round trip

  /** The bytes of message `k` of a script. */
  function ScriptMessage(s: Script, k: nat): seq<byte>
    requires k < 3 + |s.peers|
  {
    if k == 0 then s.connection else if k == 1 then s.meta else if k == 2 then s.ack else s.peers[k - 3]
  }

  /** `ty` is the type of message `k`: by its place, or by the tag in its header. */
  ghost predicate HasScriptType(s: Script, k: nat, ty: MessageType)
    requires k < 3 + |s.peers|
  {
    if k == 0 then ty == Connection else if k == 1 then ty == Meta else if k == 2 then ty == Ack
    else ty.P2p? && |s.peers[k - 3]| >= 6 && IsKind(ty.kind, BeVal(s.peers[k - 3][4..6]))
  }

  lemma SentExpected(env: Env, item: ConnItem, cs: seq<Chunk>, s: Script, k: nat)
    requires Proper(s) && Plains(cs) == SentPlains(s) && Understood(Plains(cs), SentGroups(s.peers))
    requires k < 3 + |s.peers|
    ensures var ms := Expected(env, item, cs, SentGroups(s.peers));
            && |ms| == 3 + |s.peers|
            && HasScriptType(s, k, ms[k].ty)
            && ms[k].first < ms[k].end <= |cs|
            && Flatten(Plains(cs)[ms[k].first..ms[k].end]) == ScriptMessage(s, k)
  {
    hide Understood, Handshakes, Peers, SentGroups, Tiled, Flatten, PeerPieces, Start;
    HandshakesAt(env, item, cs);
    ThreePlains(cs, s);
    assert s.peers[..|s.peers|] == s.peers;
    UnderstoodTiles(Plains(cs), SentGroups(s.peers));
    PeersSent(env, item, cs, s, |s.peers|);
    if k < 3 {
      assert Plains(cs)[k..k + 1] == [Plains(cs)[k]];
      FlattenOne(Plains(cs)[k]);
    } else {
      PieceInPlace(cs, s, k - 3);
      assert SentAt(env, item, cs, s.peers, Peers(env, item, cs, SentGroups(s.peers)), k - 3);
      ProperPeer(s, k - 3);
      var tag := BeVal(s.peers[k - 3][4..6]);
      KindsAndTags(KindFromTag(tag), tag);
    }
  }

  lemma ThreePlains(cs: seq<Chunk>, s: Script)
    requires Plains(cs) == SentPlains(s)
    ensures |cs| >= 3 && Plains(cs)[0] == s.connection && Plains(cs)[1] == s.meta && Plains(cs)[2] == s.ack
  {
  }

  /** What a run stores for a side that sent a script under the key the recorder
      has for it. */
  lemma RoundTripWith(env: Env, c0: Conn, es: seq<Event>, sender: Sender, keys: (Key, Key), s: Script, k: nat)
    requires SoundCrypto(env) && Inv(c0) && Fresh(c0) && Captured(es)
    requires EarlyOk(es) && Completed(es) && RunKeys(env, c0, es) == Some(keys) && FedAfter(es, sender)
    requires Proper(s) && Of(es, sender) == Flatten(SentChunks(env, KeyFor(keys, sender), s))
    requires k < 3 + |s.peers|
    ensures var stored := By(Run(env, c0, es).1, sender);
            var cs, ms := ChunksIn(stored), MessagesIn(stored);
            && Plains(cs) == SentPlains(s) && BytesOf(cs) == SentChunks(env, KeyFor(keys, sender), s)
            && OfDirection(cs, c0.item.key, sender)
            && |ms| == 3 + |s.peers|
            && HasScriptType(s, k, ms[k].ty) && RowOf(env, c0.item, sender, ms[k])
            && ms[k].first < ms[k].end <= |cs|
            && Flatten(Plains(cs)[ms[k].first..ms[k].end]) == ScriptMessage(s, k)
  {
    hide Run, By, MessagesIn, ChunksIn, Understood, TooSmallNext, Expected, MakeKeys, SentChunks, SentPlains, Flatten,
         Clear, Of, EarlyOk, Completed, FedAfter, Proper, SentGroups, Chunks, Tail, RowOf, HasScriptType, BytesOf;
    var key, item := KeyFor(keys, sender), c0.item;
    var cs := SentChunks(env, key, s);
    SentClear(env, item, sender, key, s);
    NoChunkInNothing();
    CutUnique(cs, []);
    assert Flatten(cs) + [] == Flatten(cs);
    var h, groups := DirectionOfRun(env, c0, es, sender, keys);
    var clear := Clear(env, item, sender, key, cs);
    ClearDirection(env, item, sender, key, cs);
    StoredBytes(env, item, sender, key, cs);
    OpaquesShape(env, item, sender, key, cs);
    assert clear + [] == clear && cs[..|cs|] == cs;
    SentUnderstood(s);
    if h < |clear| {
      NotTooSmall(clear, s, h, groups);
    }
    assert clear[..h] == clear;
    UnderstoodUnique(Plains(clear), groups, SentGroups(s.peers));
    ExpectedRows(env, item, clear, groups, sender);
    SentExpected(env, item, clear, s, k);
  }

  /** The first chunks of the two sides, with the public keys of the node and of
      the peer in them. */
  ghost predicate Greeted(env: Env, es: seq<Event>, peerSecret: seq<byte>) {
    Completed(es) && Introduced(env, peerSecret, FirstChunk(Of(es, Local)), FirstChunk(Of(es, Remote)))
  }

  /** The key a side writes with, from its own secret key, its own connection
      message and the other side's. */
  function OwnKey(env: Env, c0: Conn, es: seq<Event>, peerSecret: seq<byte>, sender: Sender): Key
    requires Completed(es) && |FirstChunk(Of(es, Local))| >= 36 && |FirstChunk(Of(es, Remote))| >= 36
  {
    WritesWith(env, peerSecret, c0.item.initiator, FirstChunk(Of(es, Local)), FirstChunk(Of(es, Remote)), sender)
  }

  /** End to end. Let the node and a peer exchange connection messages and derive
      their keys, each from its own secret key; let one of them send a
      connection message, metadata, an acknowledge and any well-formed peer
      messages, encrypted with the key and nonces it derived; let the bytes reach
      the recorder in any non-empty portions, in any interleaving with the other
      direction (within the early limit, and with something arriving after the
      handshake). Then the recorder stores for this direction exactly those
      messages, in order, with their types, the opener and the address of the
      connection and the time of their last chunk, and the chunks of each one's
      range concatenate to the bytes that were sent. */
  lemma RoundTrip(env: Env, c0: Conn, es: seq<Event>, sender: Sender, peerSecret: seq<byte>, s: Script, k: nat)
    requires SoundCrypto(env) && SoundHandshake(env) && Inv(c0) && Fresh(c0) && Captured(es)
    requires EarlyOk(es) && FedAfter(es, sender) && Greeted(env, es, peerSecret)
    requires Proper(s) && Of(es, sender) == Flatten(SentChunks(env, OwnKey(env, c0, es, peerSecret, sender), s))
    requires k < 3 + |s.peers|
    ensures var stored := By(Run(env, c0, es).1, sender);
            var cs, ms := ChunksIn(stored), MessagesIn(stored);
            && Plains(cs) == SentPlains(s) && BytesOf(cs) == SentChunks(env, OwnKey(env, c0, es, peerSecret, sender), s)
            && OfDirection(cs, c0.item.key, sender)
            && |ms| == 3 + |s.peers|
            && HasScriptType(s, k, ms[k].ty) && RowOf(env, c0.item, sender, ms[k])
            && ms[k].first < ms[k].end <= |cs|
            && Flatten(Plains(cs)[ms[k].first..ms[k].end]) == ScriptMessage(s, k)
  {
    hide Run, By, MessagesIn, ChunksIn, MakeKeys, SentChunks, SentPlains, Flatten, Of, EarlyOk, FedAfter, Proper, RowOf,
         HasScriptType, BytesOf, SoundHandshake, WritesWith;
    RecorderAgrees(env, peerSecret, c0.item.initiator, FirstChunk(Of(es, Local)), FirstChunk(Of(es, Remote)));
    var keys := (OwnKey(env, c0, es, peerSecret, Local), OwnKey(env, c0, es, peerSecret, Remote));
    RoundTripWith(env, c0, es, sender, keys, s, k);
  }

  lemma NoChunkInNothing()
    ensures !HasChunk([])
  {
  }

  /** No chunk of a proper script is too small for its place. */
  lemma NotTooSmall(cs: seq<Chunk>, s: Script, h: nat, groups: seq<Group>)
    requires Plains(cs) == SentPlains(s) && h < |cs|
    requires Understood(Plains(cs), SentGroups(s.peers)) && Understood(Plains(cs[..h]), groups)
    ensures !TooSmallNext(Plains(cs[..h]), groups, cs[h].plain)
  {
    hide Understood, TooSmallNext, SentGroups, SentPlains;
    assert Plains(cs)[..h] == Plains(cs[..h]);
    PrefixNotTooSmall(Plains(cs), SentGroups(s.peers), h, groups);
  }

  /** A chunk of an understood list is not too small after the chunks before it. */
  lemma PrefixNotTooSmall(plains: seq<seq<byte>>, all: seq<Group>, h: nat, groups: seq<Group>)
    requires h < |plains| && Understood(plains, all) && Understood(plains[..h], groups)
    ensures !TooSmallNext(plains[..h], groups, plains[h])
  {
    if h >= 3 {
      var pre, post := plains[..h], plains[h..];
      assert plains == pre + post;
      TiledPrefix(pre, post, groups);
      NotLonger(plains, all, groups);
      TilingsAgree(plains, groups, all, |groups|);
      assert groups[..|groups|] == groups;
      NextInside(plains, all, groups, h);
    }
  }

  lemma NextInside(plains: seq<seq<byte>>, all: seq<Group>, groups: seq<Group>, h: nat)
    requires 3 <= h < |plains| && Understood(plains, all) && Understood(plains[..h], groups)
    requires |groups| <= |all| && all[..|groups|] == groups
    ensures !TooSmallNext(plains[..h], groups, plains[h])
  {
    var k, first := |groups|, EndOf(groups);
    EndInRange(plains[..h], groups);
    if k == |all| {
      assert all == groups;
    } else {
      TiledAt(plains, all, k);
      var g := all[k];
      if g.end <= h {
        var pre, post := plains[..h], plains[h..];
        assert plains == pre + post;
        SizePrefix(pre, post, first, g.end);
        SizeMonotone(pre, first, g.end, h);
      }
    }
  }
}
