/** Whole runs of a connection: any interleaving of local and remote payloads. */
module ConnectionRuns {
  import opened Wrappers
  import opened Bytes
  import opened Common
  import opened StreamBuffer
  import opened MessageParsing
  import opened ChunkParser
  import opened Segmentation
  import opened MessageRanges
  import opened Directions
  import opened Connections

  datatype Event = Event(payload: seq<byte>, sender: Sender)

  ghost predicate Captured(es: seq<Event>) {
    forall i :: 0 <= i < |es| ==> es[i].payload != []
  }

  /** A connection from its opening through the given payloads. */
  ghost function Run(env: Env, c: Conn, es: seq<Event>): (r: (Conn, seq<Effect>))
    requires Inv(c)
    ensures Inv(r.0)
    decreases |es|
  {
    if es == [] then (c, [])
    else
      var n := |es| - 1;
      var (c', effects) := Run(env, c, es[..n]);
      StepKeepsInv(env, c', es[n].payload, es[n].sender.Remote?);
      var (c'', more) := Step(env, c', es[n].payload, es[n].sender.Remote?);
      (c'', effects + more)
  }

  /** All bytes one side sent. */
  function Of(es: seq<Event>, sender: Sender): seq<byte>
    decreases |es|
  {
    if es == [] then []
    else
      var n := |es| - 1;
      Of(es[..n], sender) + (if es[n].sender == sender then es[n].payload else [])
  }

  /** Both connection messages are complete. */
  predicate Completed(es: seq<Event>) {
    HasChunk(Of(es, Local)) && HasChunk(Of(es, Remote))
  }

  /** A side that has sent its connection message and more than the early
      limit sends again before the other side's connection message is there. */
  predicate Overflows(es: seq<Event>, e: Event) {
    !Completed(es) && HasChunk(Of(es, e.sender)) && |Of(es, e.sender)| > 0x20000
  }

  predicate EarlyOk(es: seq<Event>)
    decreases |es|
  {
    es == [] || (EarlyOk(es[..|es| - 1]) && !Overflows(es[..|es| - 1], es[|es| - 1]))
  }

  /** Something arrived from `sender` after both connection messages were there. */
  predicate FedAfter(es: seq<Event>, sender: Sender)
    decreases |es|
  {
    es != [] &&
    (FedAfter(es[..|es| - 1], sender) || (Completed(es[..|es| - 1]) && es[|es| - 1].sender == sender))
  }

  /** The bytes that were not thrown away: all but the payload on which the
      recorder gave up the handshake. */
  function Taken(es: seq<Event>, sender: Sender): seq<byte>
    decreases |es|
  {
    if es == [] then []
    else
      var n := |es| - 1;
      Taken(es[..n], sender) +
      (if es[n].sender == sender && !(EarlyOk(es[..n]) && Overflows(es[..n], es[n])) then es[n].payload else [])
  }

  lemma {:induction false} TakenIsAll(es: seq<Event>, sender: Sender)
    requires EarlyOk(es)
    ensures Taken(es, sender) == Of(es, sender)
    decreases |es|
  {
    if es != [] {
      TakenIsAll(es[..|es| - 1], sender);
    }
  }

  // ---------------------------------------------------------------- what a direction looks like

  /** A direction with its key after `stream`: what was stored and what is
      pending is determined by the bytes. Until the direction is fed again,
      what came with or before the connection messages stays buffered. */
  ghost predicate IsKeyed(env: Env, item: ConnItem, sender: Sender, key: Key, stream: seq<byte>, fed: bool,
                          h: Half, stored: seq<Effect>)
  {
    HasChunk(stream) && AllChunks(Chunks(stream)) && Chunks(stream) != [] &&
    if fed then
      var r := Keyed(env, item, sender, key, Chunks(stream));
      h == Half(r.line.mode, Buf(r.line.counter, Tail(stream)), r.line.mp) && stored == By(r.effects, sender)
    else
      var s := MpStep(env, item, FRESH, ConnectionChunk(item, sender, FirstChunk(stream)));
      h == Half(HaveKey(key), Buf(1, AfterFirst(stream)), s.mp) && stored == s.effects
  }

  /** What is remarked about decrypting it: its own chunks decide. */
  ghost function MarkOf(env: Env, item: ConnItem, sender: Sender, key: Key, stream: seq<byte>, fed: bool): Option<nat> {
    var cs := Chunks(stream);
    if fed && AllChunks(cs) && cs != [] then CannotDecryptAt(Keyed(env, item, sender, key, cs).line.item, sender)
    else CannotDecryptAt(item, sender)
  }

  /** A direction without a key: every payload is stored as a chunk as it is,
      and no message. */
  ghost predicate IsUnread(mode: Mode, stream: seq<byte>, h: Half, stored: seq<Effect>) {
    && h.mode == mode && h.buf == Buf(|ChunksIn(stored)|, [])
    && MessagesIn(stored) == []
    && (forall i :: 0 <= i < |ChunksIn(stored)| ==> ChunksIn(stored)[i].counter == i)
    && Flatten(BytesOf(ChunksIn(stored))) == stream
  }

  // ---------------------------------------------------------------- keyed directions

  lemma FirstOfMore(s: seq<byte>, more: seq<byte>)
    requires HasChunk(s)
    ensures HasChunk(s + more) && FirstChunk(s + more) == FirstChunk(s)
    ensures AfterFirst(s + more) == AfterFirst(s) + more
    ensures Chunks(s + more) == [FirstChunk(s)] + Chunks(AfterFirst(s) + more)
    ensures Tail(s + more) == Tail(AfterFirst(s) + more)
  {
    assert FirstChunk(s) + (AfterFirst(s) + more) == s + more;
    ChunkInFront(FirstChunk(s), AfterFirst(s) + more);
  }

  /** Feeding a direction for the first time after the handshake. */
  lemma FirstFeed(env: Env, item: ConnItem, sender: Sender, key: Key, stream: seq<byte>, payload: seq<byte>)
    requires HasChunk(stream)
    ensures AllChunks(Chunks(stream + payload)) && Chunks(stream + payload) != []
    ensures var s := MpStep(env, item, FRESH, ConnectionChunk(item, sender, FirstChunk(stream)));
            var f := Feed(env, s.item, sender, Half(HaveKey(key), Buf(1, AfterFirst(stream)), s.mp), payload);
            var r := Keyed(env, item, sender, key, Chunks(stream + payload));
            f.half == Half(r.line.mode, Buf(r.line.counter, Tail(stream + payload)), r.line.mp) &&
            r.effects == s.effects + f.effects && f.item == r.line.item
  {
    hide MpStep;
    FirstOfMore(stream, payload);
    CutSound(stream + payload);
    var s := MpStep(env, item, FRESH, ConnectionChunk(item, sender, FirstChunk(stream)));
    var h := Half(HaveKey(key), Buf(1, AfterFirst(stream)), s.mp);
    FeedIsMany(env, s.item, sender, h, payload);
    assert Chunks(stream + payload)[1..] == Chunks(AfterFirst(stream) + payload);
  }

  /** Feeding it again. */
  lemma NextFeed(env: Env, item: ConnItem, sender: Sender, key: Key, stream: seq<byte>, payload: seq<byte>)
    requires HasChunk(stream) && AllChunks(Chunks(stream)) && Chunks(stream) != []
    ensures AllChunks(Chunks(stream + payload)) && Chunks(stream + payload) != []
    ensures var q := Keyed(env, item, sender, key, Chunks(stream));
            var h := Half(q.line.mode, Buf(q.line.counter, Tail(stream)), q.line.mp);
            var f := Feed(env, q.line.item, sender, h, payload);
            var r := Keyed(env, item, sender, key, Chunks(stream + payload));
            f.half == Half(r.line.mode, Buf(r.line.counter, Tail(stream + payload)), r.line.mp) &&
            r.effects == q.effects + f.effects && f.item == r.line.item
  {
    hide MpStep, OneChunk, Feed, ManyChunks, Chunks, Tail, Flatten;
    var cs, more := Chunks(stream), Chunks(Tail(stream) + payload);
    CutAppend(stream, payload);
    CutSound(stream + payload);
    CutSound(Tail(stream) + payload);
    assert (cs + more)[1..] == cs[1..] + more && (cs + more)[0] == cs[0];
    var s := MpStep(env, item, FRESH, ConnectionChunk(item, sender, cs[0]));
    var l := Line(s.item, HaveKey(key), 1, s.mp);
    ManyAppend(env, sender, l, cs[1..], more);
    ManyKeepsCuts(env, sender, l, cs[1..]);
    var x := ManyChunks(env, sender, l, cs[1..]);
    var h := Half(x.line.mode, Buf(x.line.counter, Tail(stream)), x.line.mp);
    FeedIsMany(env, x.line.item, sender, h, payload);
    var y := ManyChunks(env, sender, x.line, more);
    assert s.effects + (x.effects + y.effects) == (s.effects + x.effects) + y.effects;
  }

  lemma KeyedItemSame(env: Env, item: ConnItem, sender: Sender, key: Key, cs: seq<seq<byte>>)
    requires AllChunks(cs) && cs != []
    ensures Same(Keyed(env, item, sender, key, cs).line.item, item)
  {
    hide MpStep, Keyed;
    KeyedIsRuns(env, item, sender, key, cs);
    var clear := Clear(env, item, sender, key, cs);
    RunSame(env, item, item, FRESH, clear);
    var r := MpRun(env, item, FRESH, clear);
    var marked := MarkCannotDecrypt(r.item, sender, Readable(env, key, cs));
    RunSame(env, marked, marked, r.mp, Opaques(env, item, sender, key, cs));
  }

  /** One payload keeps the shape of a keyed direction, whatever the
      connection record says by then. */
  lemma KeyedFeed(env: Env, item: ConnItem, now: ConnItem, sender: Sender, key: Key, stream: seq<byte>, fed: bool,
                  h: Half, stored: seq<Effect>, payload: seq<byte>)
    requires IsKeyed(env, item, sender, key, stream, fed, h, stored) && Same(now, item)
    ensures var f := Feed(env, now, sender, h, payload);
            IsKeyed(env, item, sender, key, stream + payload, true, f.half, stored + By(f.effects, sender)) &&
            Same(f.item, item)
  {
    hide MpStep, Feed, Keyed, ManyChunks;
    FirstOfMore(stream, payload);
    if fed {
      var q := Keyed(env, item, sender, key, Chunks(stream));
      KeyedItemSame(env, item, sender, key, Chunks(stream));
      NextFeed(env, item, sender, key, stream, payload);
      FeedSame(env, now, q.line.item, sender, h, payload);
      ByAppend(q.effects, Feed(env, q.line.item, sender, h, payload).effects, sender);
    } else {
      var c := ConnectionChunk(item, sender, FirstChunk(stream));
      var s := MpStep(env, item, FRESH, c);
      FirstFeed(env, item, sender, key, stream, payload);
      StepItemSame(env, item, FRESH, c);
      FeedSame(env, now, s.item, sender, h, payload);
      ByAppend(s.effects, Feed(env, s.item, sender, h, payload).effects, sender);
      StepBy(env, item, FRESH, c);
    }
  }

  lemma KeyedFeedMarks(env: Env, item: ConnItem, now: ConnItem, sender: Sender, key: Key, stream: seq<byte>, fed: bool,
                       h: Half, stored: seq<Effect>, payload: seq<byte>)
    requires IsKeyed(env, item, sender, key, stream, fed, h, stored) && Same(now, item)
    requires CannotDecryptAt(now, sender) == MarkOf(env, item, sender, key, stream, fed)
    ensures var f := Feed(env, now, sender, h, payload);
            && CannotDecryptAt(f.item, sender) == MarkOf(env, item, sender, key, stream + payload, true)
            && forall other :: other != sender ==> CannotDecryptAt(f.item, other) == CannotDecryptAt(now, other)
  {
    hide MpStep, Feed, Keyed, ManyChunks, Drain, CannotDecryptAt;
    forall other | other != sender
      ensures CannotDecryptAt(Feed(env, now, sender, h, payload).item, other) == CannotDecryptAt(now, other)
    {
      FeedMark(env, now, sender, h, payload, other);
    }
    FeedMark(env, now, sender, h, payload, sender);
    if fed {
      var q := Keyed(env, item, sender, key, Chunks(stream));
      KeyedItemSame(env, item, sender, key, Chunks(stream));
      NextFeed(env, item, sender, key, stream, payload);
      FeedMark(env, q.line.item, sender, h, payload, sender);
    } else {
      var c := ConnectionChunk(item, sender, FirstChunk(stream));
      var s := MpStep(env, item, FRESH, c);
      FirstFeed(env, item, sender, key, stream, payload);
      StepItemSame(env, item, FRESH, c);
      StepKeepsMark(env, item, FRESH, c, sender);
      FeedMark(env, s.item, sender, h, payload, sender);
    }
  }

  lemma StepItemSame(env: Env, item: ConnItem, mp: Mp, c: Chunk)
    ensures Same(MpStep(env, item, mp, c).item, item)
  {
  }

  /** A step concerns the chunk's own direction. */
  lemma StepBy(env: Env, item: ConnItem, mp: Mp, c: Chunk)
    ensures By(MpStep(env, item, mp, c).effects, c.sender) == MpStep(env, item, mp, c).effects
    ensures forall other :: other != c.sender ==> By(MpStep(env, item, mp, c).effects, other) == []
  {
    var e := MpStep(env, item, mp, c).effects;
    hide MpStep;
    assert |e| <= 2 && AllOf(e, c.sender) && forall i :: 0 <= i < |e| ==> !e[i].PutConnection? by {
      StepOf(env, item, mp, c);
    }
    ByAll(e, c.sender);
    forall other | other != c.sender ensures By(e, other) == [] {
      ByOther(e, c.sender, other);
    }
  }

  lemma StepOf(env: Env, item: ConnItem, mp: Mp, c: Chunk)
    ensures var e := MpStep(env, item, mp, c).effects;
            |e| <= 2 && AllOf(e, c.sender) && forall i :: 0 <= i < |e| ==> !e[i].PutConnection?
  {
  }

  lemma {:induction false} ByAll(es: seq<Effect>, sender: Sender)
    requires AllOf(es, sender) && forall i :: 0 <= i < |es| ==> !es[i].PutConnection?
    ensures By(es, sender) == es
  {
    if es != [] {
      ByAll(es[1..], sender);
      assert es == [es[0]] + es[1..];
    }
  }

  // ---------------------------------------------------------------- unread directions

  lemma FlattenAdd(parts: seq<seq<byte>>, p: seq<byte>)
    ensures Flatten(parts + [p]) == Flatten(parts) + p
  {
    FlattenAppend(parts, [p]);
    assert [p][1..] == [];
    assert Flatten([p]) == p + Flatten([]) == p;
  }

  /** One more stored chunk. */
  lemma UnreadAdd(mode: Mode, stream: seq<byte>, h: Half, stored: seq<Effect>, c: Chunk, mp: Mp)
    requires IsUnread(mode, stream, h, stored) && c.counter == h.buf.counter
    ensures IsUnread(mode, stream + c.bytes, Half(mode, Buf(h.buf.counter + 1, []), mp), stored + [PutChunk(c)])
  {
    hide MessagesIn, ChunksIn, Flatten;
    OneEffect(c);
    InAppend(stored, [PutChunk(c)]);
    var before, after := ChunksIn(stored), ChunksIn(stored) + [c];
    assert BytesOf(after) == BytesOf(before) + [c.bytes];
    FlattenAdd(BytesOf(before), c.bytes);
  }

  lemma UnreadStep(env: Env, item: ConnItem, mp: Mp, c: Chunk)
    requires c.plain == [] && c.bytes != []
    ensures MpStep(env, item, mp, c) == MpResult(item, mp.(error := true), [PutChunk(c)])
  {
  }

  lemma UnreadFeed(env: Env, now: ConnItem, sender: Sender, mode: Mode, stream: seq<byte>, h: Half,
                   stored: seq<Effect>, payload: seq<byte>)
    requires IsUnread(mode, stream, h, stored) && payload != [] && (mode.Uncertain? || mode.HaveNotKey?)
    ensures var f := Feed(env, now, sender, h, payload);
            IsUnread(mode, stream + payload, f.half, stored + By(f.effects, sender)) && f.item == now
  {
    hide MpStep, IsUnread, ChunksIn, MessagesIn;
    UnreadIs(mode, stream, h, stored);
    var buf := Append(h.buf, payload);
    assert buf.data == payload;
    var c := WholeBuffer(now.key, sender, buf);
    UnreadStep(env, now, h.mp, c);
    UnreadAdd(mode, stream, h, stored, c, h.mp.(error := true));
    ByOne(c);
  }

  lemma UnreadIs(mode: Mode, stream: seq<byte>, h: Half, stored: seq<Effect>)
    requires IsUnread(mode, stream, h, stored)
    ensures h.mode == mode && h.buf.data == []
  {
  }

  lemma ByOne(c: Chunk)
    ensures By([PutChunk(c)], c.sender) == [PutChunk(c)]
    ensures forall other :: other != c.sender ==> By([PutChunk(c)], other) == []
  {
    assert [PutChunk(c)][1..] == [];
  }

  /** What a direction that is given up starts with. */
  lemma UnreadStart(env: Env, item: ConnItem, now: ConnItem, sender: Sender, data: seq<byte>, mode: Mode)
    ensures var o := Flushed(item, sender, Buf(0, data), mode);
            var r := FirstChunkOf(env, now, o.chunk);
            IsUnread(mode, data, Half(o.mode, o.buf, r.mp), r.effects) && r.item == now &&
            By(r.effects, sender) == r.effects && forall other :: other != sender ==> By(r.effects, other) == []
  {
    hide MpStep;
    assert IsUnread(mode, [], Half(mode, Buf(0, []), FRESH), []) by {
      assert BytesOf([]) == [];
    }
    if data != [] {
      hide IsUnread, ChunksIn, MessagesIn;
      var c := WholeBuffer(item.key, sender, Buf(0, data));
      UnreadStep(env, now, FRESH, c);
      UnreadAdd(mode, [], Half(mode, Buf(0, []), FRESH), [], c, FRESH.(error := true));
      assert [] + data == data && [] + [PutChunk(c)] == [PutChunk(c)];
      ByOne(c);
    }
  }

  // ---------------------------------------------------------------- the end of the handshake

  /** The first chunks of the two directions do not mix. */
  lemma CompleteBy(env: Env, h: Handed, le: seq<Effect>, re: seq<Effect>)
    requires le == FirstChunkOf(env, h.item, h.local.chunk).effects
    requires re == FirstChunkOf(env, FirstChunkOf(env, h.item, h.local.chunk).item, h.remote.chunk).effects
    requires By(le, Local) == le && By(le, Remote) == [] && By(re, Remote) == re && By(re, Local) == []
    ensures By(Complete(env, h).1, Local) == le && By(Complete(env, h).1, Remote) == re
  {
    hide MpStep, FirstChunkOf;
    var put := [PutConnection(h.item)];
    ByPut(PutConnection(h.item));
    forall s: Sender ensures By(put + le + re, s) == By(put, s) + By(le, s) + By(re, s) {
      ByAppend(put, le, s);
      ByAppend(put + le, re, s);
    }
    assert [] + le + [] == le && [] + [] + re == re;
  }

  lemma ByPut(e: Effect)
    requires e.PutConnection?
    ensures By([e], Local) == [] && By([e], Remote) == []
  {
    assert [e][1..] == [];
  }

  /** Both directions given up. */
  ghost predicate BothUnread(mode: Mode, l: seq<byte>, r: seq<byte>, c: Conn, effects: seq<Effect>) {
    && c.phase == Done(mode, mode)
    && IsUnread(mode, l, LocalHalf(c), By(effects, Local))
    && IsUnread(mode, r, RemoteHalf(c), By(effects, Remote))
  }

  lemma FlushBoth(env: Env, item: ConnItem, now: ConnItem, l: seq<byte>, r: seq<byte>, mode: Mode)
    ensures var h := Handed(now, Flushed(item, Local, Buf(0, l), mode), Flushed(item, Remote, Buf(0, r), mode));
            var (c, e) := Complete(env, h);
            BothUnread(mode, l, r, c, e) && c.item == now
  {
    hide MpStep, IsUnread, By;
    var h := Handed(now, Flushed(item, Local, Buf(0, l), mode), Flushed(item, Remote, Buf(0, r), mode));
    UnreadStart(env, item, now, Local, l, mode);
    UnreadStart(env, item, now, Remote, r, mode);
    CompleteBy(env, h, FirstChunkOf(env, now, h.local.chunk).effects, FirstChunkOf(env, now, h.remote.chunk).effects);
  }

  /** Both directions with their keys. */
  ghost predicate BothKeyed(env: Env, item: ConnItem, keys: (Key, Key), l: seq<byte>, r: seq<byte>, fedL: bool,
                            fedR: bool, c: Conn, effects: seq<Effect>)
  {
    && c.phase.Done? && Same(c.item, item)
    && IsKeyed(env, item, Local, keys.0, l, fedL, LocalHalf(c), By(effects, Local))
    && IsKeyed(env, item, Remote, keys.1, r, fedR, RemoteHalf(c), By(effects, Remote))
    && CannotDecryptAt(c.item, Local) == MarkOf(env, item, Local, keys.0, l, fedL)
    && CannotDecryptAt(c.item, Remote) == MarkOf(env, item, Remote, keys.1, r, fedR)
  }

  lemma KeyedStart(env: Env, item: ConnItem, now: ConnItem, sender: Sender, key: Key, data: seq<byte>)
    requires HasChunk(data) && Same(now, item)
    ensures var o := WithKey(item, sender, Buf(0, data), key);
            var r := FirstChunkOf(env, now, o.chunk);
            IsKeyed(env, item, sender, key, data, false, Half(o.mode, o.buf, r.mp), r.effects) && Same(r.item, item) &&
            By(r.effects, sender) == r.effects && forall other :: other != sender ==> By(r.effects, other) == []
  {
    hide MpStep, By, Keyed;
    CutSound(data);
    var c := ConnectionChunk(item, sender, FirstChunk(data));
    StepSame(env, item, now, FRESH, c);
    StepItemSame(env, now, FRESH, c);
    StepBy(env, now, FRESH, c);
  }

  lemma KeepsMarks(env: Env, item: ConnItem, now: ConnItem, keys: (Key, Key), l: seq<byte>, r: seq<byte>)
    requires HasChunk(l) && HasChunk(r)
    ensures var h := Handed(now, WithKey(item, Local, Buf(0, l), keys.0), WithKey(item, Remote, Buf(0, r), keys.1));
            forall of :: CannotDecryptAt(Complete(env, h).0.item, of) == CannotDecryptAt(now, of)
  {
    hide MpStep, CannotDecryptAt;
    var h := Handed(now, WithKey(item, Local, Buf(0, l), keys.0), WithKey(item, Remote, Buf(0, r), keys.1));
    var a := MpStep(env, now, FRESH, h.local.chunk.value).item;
    forall of ensures CannotDecryptAt(Complete(env, h).0.item, of) == CannotDecryptAt(now, of) {
      StepKeepsMark(env, now, FRESH, h.local.chunk.value, of);
      StepKeepsMark(env, a, FRESH, h.remote.chunk.value, of);
    }
  }

  lemma KeyBoth(env: Env, item: ConnItem, now: ConnItem, keys: (Key, Key), l: seq<byte>, r: seq<byte>)
    requires HasChunk(l) && HasChunk(r) && Same(now, item)
    requires forall of :: CannotDecryptAt(now, of) == CannotDecryptAt(item, of)
    ensures var h := Handed(now, WithKey(item, Local, Buf(0, l), keys.0), WithKey(item, Remote, Buf(0, r), keys.1));
            var (c, e) := Complete(env, h);
            BothKeyed(env, item, keys, l, r, false, false, c, e)
  {
    hide MpStep, IsKeyed, By, CannotDecryptAt;
    KeepsMarks(env, item, now, keys, l, r);
    var h := Handed(now, WithKey(item, Local, Buf(0, l), keys.0), WithKey(item, Remote, Buf(0, r), keys.1));
    KeyedStart(env, item, now, Local, keys.0, l);
    var le := FirstChunkOf(env, now, h.local.chunk);
    KeyedStart(env, item, le.item, Remote, keys.1, r);
    CompleteBy(env, h, le.effects, FirstChunkOf(env, le.item, h.remote.chunk).effects);
  }

  lemma RemarksSame(env: Env, item: ConnItem, l: seq<byte>, r: seq<byte>)
    ensures var now := RemarkRemote(env, RemarkLocal(env, item, l), r);
            Same(now, item) && forall of :: CannotDecryptAt(now, of) == CannotDecryptAt(item, of)
  {
  }

  // ---------------------------------------------------------------- every run

  /** What a connection looks like after any payloads. */
  ghost predicate Shape(env: Env, c0: Conn, es: seq<Event>, c: Conn, effects: seq<Effect>) {
    var item, l, r := c0.item, Of(es, Local), Of(es, Remote);
    if !EarlyOk(es) then
      BothUnread(Uncertain, Taken(es, Local), Taken(es, Remote), c, effects) && Same(c.item, item)
    else if !Completed(es) then
      && effects == []
      && c == c0.(lbuf := Buf(0, l), rbuf := Buf(0, r),
                  phase := Handshake(if HasChunk(l) then HaveCm else Initial, if HasChunk(r) then HaveCm else Initial))
    else
      match MakeKeys(env, FirstChunk(l), FirstChunk(r), item.initiator)
      case None => BothUnread(HaveNotKey, l, r, c, effects) && Same(c.item, item)
      case Some(keys) =>
        BothKeyed(env, item, keys, l, r, FedAfter(es, Local), FedAfter(es, Remote), c, effects)
  }

  ghost predicate Fresh(c: Conn) {
    c == NewConn(c.item.key, c.item.initiator, c.item.remoteAddr)
  }

  lemma OfAdd(es: seq<Event>, e: Event, sender: Sender)
    ensures Of(es + [e], sender) == Of(es, sender) + (if e.sender == sender then e.payload else [])
    ensures EarlyOk(es + [e]) == (EarlyOk(es) && !Overflows(es, e))
    ensures FedAfter(es + [e], sender) == (FedAfter(es, sender) || (Completed(es) && e.sender == sender))
    ensures Taken(es + [e], sender) ==
            Taken(es, sender) +
            (if e.sender == sender && !(EarlyOk(es) && Overflows(es, e)) then e.payload else [])
  {
    assert (es + [e])[..|es|] == es;
  }

  lemma {:induction false} FedMeansCompleted(es: seq<Event>, sender: Sender)
    requires FedAfter(es, sender)
    ensures Completed(es)
    decreases |es|
  {
    var n := |es| - 1;
    var init := es[..n];
    if FedAfter(init, sender) {
      FedMeansCompleted(init, sender);
    }
    FirstOfMore(Of(init, Local), if es[n].sender == Local then es[n].payload else []);
    FirstOfMore(Of(init, Remote), if es[n].sender == Remote then es[n].payload else []);
  }

  /** A payload during the handshake. */
  lemma WaitingStep(env: Env, c0: Conn, es: seq<Event>, e: Event, c: Conn)
    requires Fresh(c0) && Inv(c) && e.payload != [] && EarlyOk(es) && !Completed(es) && Shape(env, c0, es, c, [])
    ensures var (c', more) := Step(env, c, e.payload, e.sender.Remote?);
            Shape(env, c0, es + [e], c', more)
  {
    hide MakeKeys, BothUnread, BothKeyed, Of, EarlyOk, FedAfter, Taken, RemarkRemote, RemarkLocal, Complete, Inv;
    var item, l, r := c0.item, Of(es, Local), Of(es, Remote);
    OfAdd(es, e, Local);
    OfAdd(es, e, Remote);
    NotFedYet(es);
    assert l + [] == l && r + [] == r;
    var l' := if e.sender == Local then l + e.payload else l;
    var r' := if e.sender == Remote then r + e.payload else r;
    if HasChunk(l) {
      FirstOfMore(l, e.payload);
    }
    if HasChunk(r) {
      FirstOfMore(r, e.payload);
    }
    if Overflows(es, e) {
      TakenIsAll(es, Local);
      TakenIsAll(es, Remote);
      FlushBoth(env, item, MarkUncertain(item), l, r, Uncertain);
    } else if HasChunk(l') && HasChunk(r') {
      match MakeKeys(env, FirstChunk(l'), FirstChunk(r'), item.initiator)
      case None =>
        FlushBoth(env, item, item.(comments := item.comments.(outgoingWrongPk := true)), l', r', HaveNotKey);
      case Some(keys) =>
        RemarksSame(env, item, FirstChunk(l'), FirstChunk(r'));
        KeyBoth(env, item, RemarkRemote(env, RemarkLocal(env, item, FirstChunk(l')), FirstChunk(r')), keys, l', r');
    }
  }

  lemma NotFedYet(es: seq<Event>)
    requires !Completed(es)
    ensures !FedAfter(es, Local) && !FedAfter(es, Remote)
  {
    if FedAfter(es, Local) {
      FedMeansCompleted(es, Local);
    }
    if FedAfter(es, Remote) {
      FedMeansCompleted(es, Remote);
    }
  }

  /** A payload of one direction stores nothing of the other. */
  lemma DoneBy(env: Env, c: Conn, effects: seq<Effect>, e: Event)
    requires c.phase.Done?
    ensures var h := if e.sender == Local then LocalHalf(c) else RemoteHalf(c);
            var f := Feed(env, c.item, e.sender, h, e.payload);
            var (c', more) := DoneStep(env, c, e.payload, e.sender.Remote?);
            && c'.phase.Done? && c'.item == f.item
            && (if e.sender == Local then LocalHalf(c') == f.half && RemoteHalf(c') == RemoteHalf(c)
                else RemoteHalf(c') == f.half && LocalHalf(c') == LocalHalf(c))
            && forall s :: By(effects + more, s) == By(effects, s) + (if s == e.sender then By(f.effects, s) else [])
  {
    hide Feed, By;
    var h := if e.sender == Local then LocalHalf(c) else RemoteHalf(c);
    var f := Feed(env, c.item, e.sender, h, e.payload);
    FeedAllOf(env, c.item, e.sender, h, e.payload);
    forall s ensures By(effects + f.effects, s) ==
                     By(effects, s) + (if s == e.sender then By(f.effects, s) else [])
    {
      ByAppend(effects, f.effects, s);
      if s != e.sender {
        ByOther(f.effects, e.sender, s);
      }
    }
  }

  lemma UnreadDone(env: Env, mode: Mode, l: seq<byte>, r: seq<byte>, c: Conn, effects: seq<Effect>, e: Event)
    requires BothUnread(mode, l, r, c, effects) && e.payload != [] && (mode.Uncertain? || mode.HaveNotKey?)
    ensures var (c', more) := DoneStep(env, c, e.payload, e.sender.Remote?);
            BothUnread(mode, if e.sender == Local then l + e.payload else l,
                       if e.sender == Remote then r + e.payload else r, c', effects + more) &&
            c'.item == c.item
  {
    hide Feed, By, IsUnread, DoneStep;
    DoneBy(env, c, effects, e);
    if e.sender == Local {
      UnreadFeed(env, c.item, Local, mode, l, LocalHalf(c), By(effects, Local), e.payload);
      UnreadMode(mode, l + e.payload, Feed(env, c.item, Local, LocalHalf(c), e.payload).half,
                 By(effects, Local) + By(Feed(env, c.item, Local, LocalHalf(c), e.payload).effects, Local));
      assert By(effects, Remote) + [] == By(effects, Remote);
    } else {
      UnreadFeed(env, c.item, Remote, mode, r, RemoteHalf(c), By(effects, Remote), e.payload);
      UnreadMode(mode, r + e.payload, Feed(env, c.item, Remote, RemoteHalf(c), e.payload).half,
                 By(effects, Remote) + By(Feed(env, c.item, Remote, RemoteHalf(c), e.payload).effects, Remote));
      assert By(effects, Local) + [] == By(effects, Local);
    }
  }

  lemma UnreadMode(mode: Mode, stream: seq<byte>, h: Half, stored: seq<Effect>)
    requires IsUnread(mode, stream, h, stored)
    ensures h.mode == mode
  {
  }

  lemma KeyedDone(env: Env, item: ConnItem, keys: (Key, Key), l: seq<byte>, r: seq<byte>, fedL: bool, fedR: bool,
                  c: Conn, effects: seq<Effect>, e: Event)
    requires BothKeyed(env, item, keys, l, r, fedL, fedR, c, effects)
    ensures var (c', more) := DoneStep(env, c, e.payload, e.sender.Remote?);
            BothKeyed(env, item, keys, if e.sender == Local then l + e.payload else l,
                      if e.sender == Remote then r + e.payload else r,
                      fedL || e.sender == Local, fedR || e.sender == Remote, c', effects + more)
  {
    hide Feed, By, IsKeyed, DoneStep, MarkOf, CannotDecryptAt;
    DoneBy(env, c, effects, e);
    if e.sender == Local {
      KeyedFeed(env, item, c.item, Local, keys.0, l, fedL, LocalHalf(c), By(effects, Local), e.payload);
      KeyedFeedMarks(env, item, c.item, Local, keys.0, l, fedL, LocalHalf(c), By(effects, Local), e.payload);
      assert By(effects, Remote) + [] == By(effects, Remote);
    } else {
      KeyedFeed(env, item, c.item, Remote, keys.1, r, fedR, RemoteHalf(c), By(effects, Remote), e.payload);
      KeyedFeedMarks(env, item, c.item, Remote, keys.1, r, fedR, RemoteHalf(c), By(effects, Remote), e.payload);
      assert By(effects, Local) + [] == By(effects, Local);
    }
  }

  /** A payload after the handshake. */
  lemma AfterwardsStep(env: Env, c0: Conn, es: seq<Event>, e: Event, c: Conn, effects: seq<Effect>)
    requires Inv(c) && e.payload != [] && (!EarlyOk(es) || Completed(es)) && Shape(env, c0, es, c, effects)
    ensures var (c', more) := Step(env, c, e.payload, e.sender.Remote?);
            Shape(env, c0, es + [e], c', effects + more)
  {
    hide MakeKeys, By, Of, EarlyOk, FedAfter, Taken, DoneStep, IsUnread, IsKeyed;
    var item, l, r := c0.item, Of(es, Local), Of(es, Remote);
    OfAdd(es, e, Local);
    OfAdd(es, e, Remote);
    if !EarlyOk(es) {
      var tl, tr := Taken(es, Local), Taken(es, Remote);
      assert tl + [] == tl && tr + [] == tr;
      UnreadDone(env, Uncertain, tl, tr, c, effects, e);
    } else {
      assert l + [] == l && r + [] == r;
      FirstOfMore(l, e.payload);
      FirstOfMore(r, e.payload);
      match MakeKeys(env, FirstChunk(l), FirstChunk(r), item.initiator)
      case None => UnreadDone(env, HaveNotKey, l, r, c, effects, e);
      case Some(keys) =>
        KeyedDone(env, item, keys, l, r, FedAfter(es, Local), FedAfter(es, Remote), c, effects, e);
    }
  }

  /** The meaning of every run, in terms of the captured bytes alone. */
  lemma {:induction false} RunShape(env: Env, c0: Conn, es: seq<Event>)
    requires Inv(c0) && Fresh(c0) && Captured(es)
    ensures Shape(env, c0, es, Run(env, c0, es).0, Run(env, c0, es).1)
    decreases |es|
  {
    if es == [] {
      NothingYet(env, c0);
    } else {
      hide Shape, Step, EarlyOk, Completed, Inv, Fresh;
      var n := |es| - 1;
      var init, e := es[..n], es[n];
      RunShape(env, c0, init);
      var (c, effects) := Run(env, c0, init);
      assert es == init + [e];
      if EarlyOk(init) && !Completed(init) {
        WaitingNothing(env, c0, init, c, effects);
        WaitingStep(env, c0, init, e, c);
        assert [] + Step(env, c, e.payload, e.sender.Remote?).1 == Step(env, c, e.payload, e.sender.Remote?).1;
      } else {
        AfterwardsStep(env, c0, init, e, c, effects);
      }
    }
  }

  lemma NothingYet(env: Env, c0: Conn)
    requires Fresh(c0)
    ensures Shape(env, c0, [], c0, [])
  {
  }

  lemma WaitingNothing(env: Env, c0: Conn, es: seq<Event>, c: Conn, effects: seq<Effect>)
    requires Shape(env, c0, es, c, effects) && EarlyOk(es) && !Completed(es)
    ensures effects == []
  {
  }
}
