/** How captured bytes are split into payloads does not matter, and the two
    directions of a connection do not influence each other. */
module Segmentation {
  import opened Wrappers
  import opened Bytes
  import opened Common
  import opened StreamBuffer
  import opened MessageParsing
  import opened ChunkParser

  /** A direction between two chunks: no buffer, only what the next chunk meets. */
  datatype Line = Line(item: ConnItem, mode: Mode, counter: nat, mp: Mp)

  datatype LineResult = LineResult(line: Line, effects: seq<Effect>)

  /** One whole chunk of a direction that is cut by length. */
  function OneChunk(env: Env, sender: Sender, l: Line, bytes: seq<byte>): LineResult
    requires |bytes| >= 2
  {
    var decrypted := if l.mode.HaveKey? then env.decrypt(l.mode.key.secret, l.mode.key.nonce, bytes[2..]) else None;
    if l.mode.HaveKey? && decrypted.None? then
      var item := MarkCannotDecrypt(l.item, sender, l.counter);
      LineResult(Line(item, CannotDecrypt, l.counter + 1, l.mp), [PutConnection(item)])
    else
      var plain := if l.mode.HaveKey? then decrypted.value else [];
      var mode := if l.mode.HaveKey? then HaveKey(l.mode.key.(nonce := l.mode.key.nonce + 1)) else l.mode;
      var r := MpStep(env, l.item, l.mp, Chunk(l.item.key, sender, l.counter, bytes, plain));
      LineResult(Line(r.item, mode, l.counter + 1, r.mp), r.effects)
  }

  function ManyChunks(env: Env, sender: Sender, l: Line, cs: seq<seq<byte>>): LineResult
    requires AllChunks(cs)
    decreases |cs|
  {
    if cs == [] then LineResult(l, [])
    else
      var first := OneChunk(env, sender, l, cs[0]);
      var rest := ManyChunks(env, sender, first.line, cs[1..]);
      LineResult(rest.line, first.effects + rest.effects)
  }

  lemma {:induction false} ManyAppend(env: Env, sender: Sender, l: Line, a: seq<seq<byte>>, b: seq<seq<byte>>)
    requires AllChunks(a) && AllChunks(b)
    ensures AllChunks(a + b)
    ensures var x := ManyChunks(env, sender, l, a);
            var y := ManyChunks(env, sender, x.line, b);
            ManyChunks(env, sender, l, a + b) == LineResult(y.line, x.effects + y.effects)
    decreases |a|
  {
    if a == [] {
      assert a + b == b;
      var y := ManyChunks(env, sender, l, b);
      assert [] + y.effects == y.effects;
    } else {
      assert (a + b)[1..] == a[1..] + b;
      var first := OneChunk(env, sender, l, a[0]);
      ManyAppend(env, sender, first.line, a[1..], b);
      var x := ManyChunks(env, sender, first.line, a[1..]);
      var y := ManyChunks(env, sender, x.line, b);
      assert first.effects + (x.effects + y.effects) == (first.effects + x.effects) + y.effects;
    }
  }

  /** The result of a payload, seen from the chunks it completed. */
  function FromLine(r: LineResult, rest: seq<byte>): DoneResult {
    DoneResult(r.line.item, Half(r.line.mode, Buf(r.line.counter, rest), r.line.mp), r.effects)
  }

  lemma {:induction false} FeedRawIsMany(env: Env, item: ConnItem, sender: Sender, buf: Buf, mp: Mp)
    ensures AllChunks(Chunks(buf.data))
    ensures FeedRaw(env, item, sender, buf, mp) ==
            FromLine(ManyChunks(env, sender, Line(item, CannotDecrypt, buf.counter, mp), Chunks(buf.data)),
                     Tail(buf.data))
    decreases |buf.data|
  {
    CutSound(buf.data);
    if HasChunk(buf.data) {
      var first, rest := FirstChunk(buf.data), Buf(buf.counter + 1, AfterFirst(buf.data));
      var s := MpStep(env, item, mp, Chunk(item.key, sender, buf.counter, first, []));
      FeedRawStep(env, item, sender, buf, mp);
      FeedRawIsMany(env, s.item, sender, rest, s.mp);
      assert Chunks(buf.data)[1..] == Chunks(rest.data);
    }
  }

  lemma {:induction false} FeedKeyedIsMany(env: Env, item: ConnItem, sender: Sender, key: Key, buf: Buf, mp: Mp)
    ensures AllChunks(Chunks(buf.data))
    ensures FeedKeyed(env, item, sender, key, buf, mp) ==
            FromLine(ManyChunks(env, sender, Line(item, HaveKey(key), buf.counter, mp), Chunks(buf.data)),
                     Tail(buf.data))
    decreases |buf.data|
  {
    hide MpStep, FeedKeyed, FeedRaw, MarkCannotDecrypt, HasChunk, FirstChunk, AfterFirst, Chunks, Tail, IsChunk;
    CutSound(buf.data);
    CutStep(buf.data);
    if HasChunk(buf.data) {
      var first, rest := FirstChunk(buf.data), Buf(buf.counter + 1, AfterFirst(buf.data));
      FirstIs(buf.data);
      ChunkIsLong(first);
      match env.decrypt(key.secret, key.nonce, first[2..])
      case Some(plain) =>
        var s := MpStep(env, item, mp, Chunk(item.key, sender, buf.counter, first, plain));
        FeedKeyedStep(env, item, sender, key, buf, mp);
        FeedKeyedIsMany(env, s.item, sender, key.(nonce := key.nonce + 1), rest, s.mp);
      case None =>
        var item' := MarkCannotDecrypt(item, sender, buf.counter);
        FeedRawIsMany(env, item', sender, rest, mp);
        FailsAtOnce(env, item, sender, key, buf, mp);
    } else {
      NothingKeyed(env, item, sender, key, buf, mp);
    }
  }

  /** A direction past its handshake whose chunks are cut by length. */
  predicate Cuts(h: Half) {
    h.mode.HaveKey? || h.mode.CannotDecrypt?
  }

  /** A payload does, chunk by chunk, what its complete chunks call for. */
  lemma FeedIsMany(env: Env, item: ConnItem, sender: Sender, h: Half, payload: seq<byte>)
    requires Cuts(h)
    ensures var data := h.buf.data + payload;
            AllChunks(Chunks(data)) &&
            Feed(env, item, sender, h, payload) ==
            FromLine(ManyChunks(env, sender, Line(item, h.mode, h.buf.counter, h.mp), Chunks(data)), Tail(data))
  {
    if h.mode.HaveKey? {
      FeedKeyedIsMany(env, item, sender, h.mode.key, Append(h.buf, payload), h.mp);
    } else {
      FeedRawIsMany(env, item, sender, Append(h.buf, payload), h.mp);
    }
  }

  lemma {:induction false} ManyKeepsCuts(env: Env, sender: Sender, l: Line, cs: seq<seq<byte>>)
    requires AllChunks(cs) && (l.mode.HaveKey? || l.mode.CannotDecrypt?)
    ensures var m := ManyChunks(env, sender, l, cs).line.mode; m.HaveKey? || m.CannotDecrypt?
    decreases |cs|
  {
    if cs != [] {
      ManyKeepsCuts(env, sender, OneChunk(env, sender, l, cs[0]).line, cs[1..]);
    }
  }

  /** `second` continues where `first` stopped. */
  function Then(first: DoneResult, second: DoneResult): DoneResult {
    second.(effects := first.effects + second.effects)
  }

  /** Segmentation independence for two payloads, whether or not a chunk fails
      to decrypt on the way. */
  lemma FeedSplit(env: Env, item: ConnItem, sender: Sender, h: Half, a: seq<byte>, b: seq<byte>)
    requires Cuts(h)
    ensures var first := Feed(env, item, sender, h, a);
            Cuts(first.half) &&
            Feed(env, item, sender, h, a + b) == Then(first, Feed(env, first.item, sender, first.half, b))
  {
    var l := Line(item, h.mode, h.buf.counter, h.mp);
    var data := h.buf.data + a;
    assert h.buf.data + (a + b) == data + b;
    FeedIsMany(env, item, sender, h, a);
    FeedIsMany(env, item, sender, h, a + b);
    ManyKeepsCuts(env, sender, l, Chunks(data));
    var first := Feed(env, item, sender, h, a);
    FeedIsMany(env, first.item, sender, first.half, b);
    CutAppend(data, b);
    ManyAppend(env, sender, l, Chunks(data), Chunks(Tail(data) + b));
  }

  /** The payloads one after the other. */
  function FeedAll(env: Env, item: ConnItem, sender: Sender, h: Half, payloads: seq<seq<byte>>): DoneResult
    decreases |payloads|
  {
    if payloads == [] then DoneResult(item, h, [])
    else
      var first := Feed(env, item, sender, h, payloads[0]);
      Then(first, FeedAll(env, first.item, sender, first.half, payloads[1..]))
  }

  /** Segmentation independence: once a direction has its key, what one or
      more payloads leave behind and store is what their concatenation does. */
  lemma {:induction false} FeedAllIsFeed(env: Env, item: ConnItem, sender: Sender, h: Half,
                                         payloads: seq<seq<byte>>)
    requires Cuts(h) && payloads != []
    ensures FeedAll(env, item, sender, h, payloads) == Feed(env, item, sender, h, Flatten(payloads))
    decreases |payloads|
  {
    var first := Feed(env, item, sender, h, payloads[0]);
    if |payloads| == 1 {
      assert Flatten(payloads) == payloads[0] + Flatten([]) == payloads[0];
      assert FeedAll(env, first.item, sender, first.half, []) == DoneResult(first.item, first.half, []);
      assert first.effects + [] == first.effects;
    } else {
      FeedSplit(env, item, sender, h, payloads[0], Flatten(payloads[1..]));
      FeedAllIsFeed(env, first.item, sender, first.half, payloads[1..]);
    }
  }

  // ---------------------------------------------------------------- independence

  predicate Concerns(e: Effect, sender: Sender) {
    match e
    case PutConnection(_) => false
    case PutChunk(c) => c.sender == sender
    case PutMessage(m) => m.sender == sender
  }

  /** What is stored for one direction. */
  function By(es: seq<Effect>, sender: Sender): seq<Effect> {
    if es == [] then []
    else if Concerns(es[0], sender) then [es[0]] + By(es[1..], sender)
    else By(es[1..], sender)
  }

  lemma {:induction false} ByAppend(a: seq<Effect>, b: seq<Effect>, sender: Sender)
    ensures By(a + b, sender) == By(a, sender) + By(b, sender)
  {
    if a == [] {
      assert a + b == b;
    } else {
      assert (a + b)[1..] == a[1..] + b;
      ByAppend(a[1..], b, sender);
    }
  }

  /** Remarks on the record do not influence what a direction stores. */
  lemma FeedSame(env: Env, a: ConnItem, b: ConnItem, sender: Sender, h: Half, payload: seq<byte>)
    requires Same(a, b)
    ensures var x := Feed(env, a, sender, h, payload);
            var y := Feed(env, b, sender, h, payload);
            x.half == y.half && By(x.effects, sender) == By(y.effects, sender) && Same(x.item, a)
  {
    var buf := Append(h.buf, payload);
    if h.mode.HaveKey? {
      var d := Drain(env, a.key, sender, h.mode.key, buf);
      RunSame(env, a, b, h.mp, d.chunks);
      if d.error.Some? {
        var x, y := MpRun(env, a, h.mp, d.chunks), MpRun(env, b, h.mp, d.chunks);
        var a' := MarkCannotDecrypt(x.item, sender, d.error.value);
        var b' := MarkCannotDecrypt(y.item, sender, d.error.value);
        var cs := DrainRaw(a.key, sender, d.buf).1;
        RunSame(env, a', b', x.mp, cs);
        var ra, rb := MpRun(env, a', x.mp, cs), MpRun(env, b', x.mp, cs);
        ByMiddle(x.effects, PutConnection(a'), ra.effects, sender);
        ByMiddle(y.effects, PutConnection(b'), rb.effects, sender);
      }
    } else if h.mode.CannotDecrypt? {
      RunSame(env, a, b, h.mp, DrainRaw(a.key, sender, buf).1);
    }
  }

  lemma ByMiddle(a: seq<Effect>, e: Effect, b: seq<Effect>, sender: Sender)
    requires e.PutConnection?
    ensures By(a + [e] + b, sender) == By(a, sender) + By(b, sender)
  {
    ByAppend(a, [e], sender);
    ByAppend(a + [e], b, sender);
    assert By([e], sender) == By([], sender) == [];
    assert By(a, sender) + [] == By(a, sender);
  }

  ghost predicate AllOf(es: seq<Effect>, sender: Sender) {
    forall i :: 0 <= i < |es| ==> es[i].PutConnection? || Concerns(es[i], sender)
  }

  ghost predicate ChunksOf(cs: seq<Chunk>, sender: Sender) {
    forall i :: 0 <= i < |cs| ==> cs[i].sender == sender
  }

  lemma {:induction false} RunAllOf(env: Env, item: ConnItem, mp: Mp, cs: seq<Chunk>, sender: Sender)
    requires ChunksOf(cs, sender)
    ensures AllOf(MpRun(env, item, mp, cs).effects, sender)
    decreases |cs|
  {
    if cs != [] {
      RunAllOf(env, item, mp, cs[..|cs| - 1], sender);
    }
  }

  lemma {:induction false} DrainOf(env: Env, cn: ConnKey, sender: Sender, key: Key, buf: Buf)
    ensures ChunksOf(Drain(env, cn, sender, key, buf).chunks, sender)
    decreases |buf.data|
  {
    if HasChunk(buf.data) {
      DrainOf(env, cn, sender, key.(nonce := key.nonce + 1), Buf(buf.counter + 1, AfterFirst(buf.data)));
    }
  }

  lemma {:induction false} DrainRawOf(cn: ConnKey, sender: Sender, buf: Buf)
    ensures ChunksOf(DrainRaw(cn, sender, buf).1, sender)
    decreases |buf.data|
  {
    if HasChunk(buf.data) {
      DrainRawOf(cn, sender, Buf(buf.counter + 1, AfterFirst(buf.data)));
    }
  }

  /** A payload of one direction stores nothing of the other. */
  lemma FeedAllOf(env: Env, item: ConnItem, sender: Sender, h: Half, payload: seq<byte>)
    ensures AllOf(Feed(env, item, sender, h, payload).effects, sender)
  {
    var buf := Append(h.buf, payload);
    if h.mode.HaveKey? {
      var d := Drain(env, item.key, sender, h.mode.key, buf);
      DrainOf(env, item.key, sender, h.mode.key, buf);
      RunAllOf(env, item, h.mp, d.chunks, sender);
      if d.error.Some? {
        var x := MpRun(env, item, h.mp, d.chunks);
        DrainRawOf(item.key, sender, d.buf);
        RunSame(env, item, item, h.mp, d.chunks);
        RunAllOf(env, MarkCannotDecrypt(x.item, sender, d.error.value), x.mp,
                 DrainRaw(item.key, sender, d.buf).1, sender);
      }
    } else if h.mode.CannotDecrypt? {
      DrainRawOf(item.key, sender, buf);
      RunAllOf(env, item, h.mp, DrainRaw(item.key, sender, buf).1, sender);
    }
  }

  lemma {:induction false} ByOther(es: seq<Effect>, sender: Sender, other: Sender)
    requires AllOf(es, sender) && other != sender
    ensures By(es, other) == []
  {
    if es != [] {
      ByOther(es[1..], sender, other);
    }
  }
}
