/** One direction of a connection from its first byte: what is stored, as a
    function of the bytes alone. */
module Directions {
  import opened Wrappers
  import opened Bytes
  import opened Common
  import opened StreamBuffer
  import opened MessageParsing
  import opened ChunkParser
  import opened Segmentation
  import opened MessageRanges

  /** How many of the chunks decrypt, one nonce after the other. */
  function Good(env: Env, key: Key, cs: seq<seq<byte>>): (g: nat)
    requires AllChunks(cs)
    ensures g <= |cs|
    decreases |cs|
  {
    if cs == [] || env.decrypt(key.secret, key.nonce, cs[0][2..]).None? then 0
    else 1 + Good(env, key.(nonce := key.nonce + 1), cs[1..])
  }

  /** The chunks that decrypt, numbered from `counter`. */
  function Decoded(env: Env, cn: ConnKey, sender: Sender, key: Key, counter: nat, cs: seq<seq<byte>>): seq<Chunk>
    requires AllChunks(cs)
    decreases |cs|
  {
    if cs == [] then []
    else
      match env.decrypt(key.secret, key.nonce, cs[0][2..])
      case None => []
      case Some(plain) =>
        [Chunk(cn, sender, counter, cs[0], plain)] +
        Decoded(env, cn, sender, key.(nonce := key.nonce + 1), counter + 1, cs[1..])
  }

  /** Chunks as they are, numbered from `counter`. */
  function Raws(cn: ConnKey, sender: Sender, counter: nat, cs: seq<seq<byte>>): (r: seq<Chunk>)
    ensures |r| == |cs|
  {
    seq(|cs|, i requires 0 <= i < |cs| => Chunk(cn, sender, counter + i, cs[i], []))
  }

  lemma {:induction false} DecodedLength(env: Env, cn: ConnKey, sender: Sender, key: Key, counter: nat,
                                         cs: seq<seq<byte>>)
    requires AllChunks(cs)
    ensures |Decoded(env, cn, sender, key, counter, cs)| == Good(env, key, cs)
    decreases |cs|
  {
    if cs != [] {
      DecodedLength(env, cn, sender, key.(nonce := key.nonce + 1), counter + 1, cs[1..]);
    }
  }

  lemma {:induction false} GoodFails(env: Env, key: Key, cs: seq<seq<byte>>)
    requires AllChunks(cs) && Good(env, key, cs) < |cs|
    ensures var g := Good(env, key, cs); env.decrypt(key.secret, key.nonce + g, cs[g][2..]).None?
    decreases |cs|
  {
    if env.decrypt(key.secret, key.nonce, cs[0][2..]).Some? {
      GoodFails(env, key.(nonce := key.nonce + 1), cs[1..]);
    }
  }

  /** Chunk `i` of the decoded ones is chunk `i`, decrypted with the `i`-th nonce. */
  lemma {:induction false} DecodedOne(env: Env, cn: ConnKey, sender: Sender, key: Key, counter: nat,
                                      cs: seq<seq<byte>>, i: nat)
    requires AllChunks(cs) && i < |Decoded(env, cn, sender, key, counter, cs)| <= |cs|
    ensures var d := Decoded(env, cn, sender, key, counter, cs)[i];
            env.decrypt(key.secret, key.nonce + i, cs[i][2..]) == Some(d.plain) &&
            d == Chunk(cn, sender, counter + i, cs[i], d.plain)
    decreases |cs|
  {
    if i > 0 {
      DecodedOne(env, cn, sender, key.(nonce := key.nonce + 1), counter + 1, cs[1..], i - 1);
    }
  }

  lemma DecodedAt(env: Env, cn: ConnKey, sender: Sender, key: Key, counter: nat, cs: seq<seq<byte>>)
    requires AllChunks(cs)
    ensures var g, ds := Good(env, key, cs), Decoded(env, cn, sender, key, counter, cs);
            && |ds| == g
            && (forall i :: 0 <= i < g ==>
                  env.decrypt(key.secret, key.nonce + i, cs[i][2..]) == Some(ds[i].plain) &&
                  ds[i] == Chunk(cn, sender, counter + i, cs[i], ds[i].plain))
            && (g < |cs| ==> env.decrypt(key.secret, key.nonce + g, cs[g][2..]).None?)
  {
    var g, ds := Good(env, key, cs), Decoded(env, cn, sender, key, counter, cs);
    DecodedLength(env, cn, sender, key, counter, cs);
    forall i | 0 <= i < g
      ensures env.decrypt(key.secret, key.nonce + i, cs[i][2..]) == Some(ds[i].plain)
      ensures ds[i] == Chunk(cn, sender, counter + i, cs[i], ds[i].plain)
    {
      DecodedOne(env, cn, sender, key, counter, cs, i);
    }
    if g < |cs| {
      GoodFails(env, key, cs);
    }
  }

  lemma RunNothing(env: Env, item: ConnItem, mp: Mp)
    ensures MpRun(env, item, mp, []) == MpResult(item, mp, [])
  {
  }

  lemma {:induction false} ManyRaw(env: Env, sender: Sender, l: Line, cs: seq<seq<byte>>)
    requires AllChunks(cs) && l.mode.CannotDecrypt?
    ensures var r := MpRun(env, l.item, l.mp, Raws(l.item.key, sender, l.counter, cs));
            ManyChunks(env, sender, l, cs) ==
            LineResult(Line(r.item, CannotDecrypt, l.counter + |cs|, r.mp), r.effects)
    decreases |cs|
  {
    hide MpStep, MpRun;
    var raws := Raws(l.item.key, sender, l.counter, cs);
    if cs == [] {
      RunNothing(env, l.item, l.mp);
    } else {
      var first := OneChunk(env, sender, l, cs[0]);
      var rest := Raws(l.item.key, sender, l.counter + 1, cs[1..]);
      StepKeepsKey(env, l.item, l.mp, raws[0]);
      ManyRaw(env, sender, first.line, cs[1..]);
      MpRunHead(env, l.item, l.mp, raws[0], rest);
      assert raws == [raws[0]] + rest;
      assert l.counter + 1 + |cs[1..]| == l.counter + |cs|;
    }
  }

  /** A keyed direction hands over the decoded chunks, marks the first
      undecodable one, and hands over the rest as they are. */
  function KeyedLine(env: Env, sender: Sender, l: Line, cs: seq<seq<byte>>): LineResult
    requires AllChunks(cs) && l.mode.HaveKey?
  {
    var key := l.mode.key;
    var g := Good(env, key, cs);
    var r := MpRun(env, l.item, l.mp, Decoded(env, l.item.key, sender, key, l.counter, cs));
    if g == |cs| then
      LineResult(Line(r.item, HaveKey(key.(nonce := key.nonce + g)), l.counter + g, r.mp), r.effects)
    else
      var item := MarkCannotDecrypt(r.item, sender, l.counter + g);
      var s := MpRun(env, item, r.mp, Raws(item.key, sender, l.counter + g + 1, cs[g + 1..]));
      LineResult(Line(s.item, CannotDecrypt, l.counter + |cs|, s.mp), r.effects + ([PutConnection(item)] + s.effects))
  }

  lemma {:induction false} KeyedLineStep(env: Env, sender: Sender, l: Line, cs: seq<seq<byte>>, plain: seq<byte>)
    requires AllChunks(cs) && l.mode.HaveKey? && cs != []
    requires env.decrypt(l.mode.key.secret, l.mode.key.nonce, cs[0][2..]) == Some(plain)
    ensures var s := MpStep(env, l.item, l.mp, Chunk(l.item.key, sender, l.counter, cs[0], plain));
            var l' := Line(s.item, HaveKey(l.mode.key.(nonce := l.mode.key.nonce + 1)), l.counter + 1, s.mp);
            var rest := KeyedLine(env, sender, l', cs[1..]);
            KeyedLine(env, sender, l, cs) == LineResult(rest.line, s.effects + rest.effects)
  {
    hide MpStep, MpRun;
    var key := l.mode.key;
    var key' := key.(nonce := key.nonce + 1);
    var c := Chunk(l.item.key, sender, l.counter, cs[0], plain);
    var s := MpStep(env, l.item, l.mp, c);
    StepKeepsKey(env, l.item, l.mp, c);
    var ds := Decoded(env, l.item.key, sender, key', l.counter + 1, cs[1..]);
    MpRunHead(env, l.item, l.mp, c, ds);
    var g := Good(env, key', cs[1..]);
    var r := MpRun(env, s.item, s.mp, ds);
    if g < |cs| - 1 {
      assert cs[1..][g + 1..] == cs[g + 2..];
      var item := MarkCannotDecrypt(r.item, sender, l.counter + 1 + g);
      var t := MpRun(env, item, r.mp, Raws(item.key, sender, l.counter + g + 2, cs[g + 2..]));
      var tail := [PutConnection(item)] + t.effects;
      assert s.effects + (r.effects + tail) == (s.effects + r.effects) + tail;
    }
  }

  lemma KeyedLineFails(env: Env, sender: Sender, l: Line, cs: seq<seq<byte>>)
    requires AllChunks(cs) && l.mode.HaveKey?
    requires cs == [] || env.decrypt(l.mode.key.secret, l.mode.key.nonce, cs[0][2..]).None?
    ensures KeyedLine(env, sender, l, cs) ==
            if cs == [] then LineResult(l, [])
            else
              var item := MarkCannotDecrypt(l.item, sender, l.counter);
              var s := MpRun(env, item, l.mp, Raws(item.key, sender, l.counter + 1, cs[1..]));
              LineResult(Line(s.item, CannotDecrypt, l.counter + |cs|, s.mp), [PutConnection(item)] + s.effects)
  {
    hide MpStep;
    if cs != [] {
      var item := MarkCannotDecrypt(l.item, sender, l.counter);
      var s := MpRun(env, item, l.mp, Raws(item.key, sender, l.counter + 1, cs[1..]));
      assert [] + ([PutConnection(item)] + s.effects) == [PutConnection(item)] + s.effects;
    }
  }

  /** Chunk by chunk or all at once. */
  lemma {:induction false} ManyKeyed(env: Env, sender: Sender, l: Line, cs: seq<seq<byte>>)
    requires AllChunks(cs) && l.mode.HaveKey?
    ensures ManyChunks(env, sender, l, cs) == KeyedLine(env, sender, l, cs)
    decreases |cs|
  {
    hide MpStep, MpRun, KeyedLine, Raws;
    var key := l.mode.key;
    if cs == [] || env.decrypt(key.secret, key.nonce, cs[0][2..]).None? {
      KeyedLineFails(env, sender, l, cs);
      if cs != [] {
        var item := MarkCannotDecrypt(l.item, sender, l.counter);
        ManyRaw(env, sender, Line(item, CannotDecrypt, l.counter + 1, l.mp), cs[1..]);
      }
    } else {
      KeyedLineStep(env, sender, l, cs, env.decrypt(key.secret, key.nonce, cs[0][2..]).value);
      ManyKeyed(env, sender, OneChunk(env, sender, l, cs[0]).line, cs[1..]);
    }
  }

  // ---------------------------------------------------------------- from the first chunk on

  /** The connection message is chunk 0 and is not encrypted. */
  function ConnectionChunk(item: ConnItem, sender: Sender, bytes: seq<byte>): Chunk
    requires |bytes| >= 2
  {
    Chunk(item.key, sender, 0, bytes, bytes[2..])
  }

  /** All chunks of a direction that got its key, the connection message first. */
  function Keyed(env: Env, item: ConnItem, sender: Sender, key: Key, cs: seq<seq<byte>>): LineResult
    requires AllChunks(cs) && cs != []
  {
    var s := MpStep(env, item, FRESH, ConnectionChunk(item, sender, cs[0]));
    var r := ManyChunks(env, sender, Line(s.item, HaveKey(key), 1, s.mp), cs[1..]);
    LineResult(r.line, s.effects + r.effects)
  }

  /** The chunks of the direction that can be read. */
  function Clear(env: Env, item: ConnItem, sender: Sender, key: Key, cs: seq<seq<byte>>): seq<Chunk>
    requires AllChunks(cs) && cs != []
  {
    [ConnectionChunk(item, sender, cs[0])] + Decoded(env, item.key, sender, key, 1, cs[1..])
  }

  /** Their number; if there are more chunks, the next one is the first that
      does not decrypt. */
  function Readable(env: Env, key: Key, cs: seq<seq<byte>>): (f: nat)
    requires AllChunks(cs) && cs != []
    ensures 1 <= f <= |cs|
  {
    1 + Good(env, key, cs[1..])
  }

  /** The chunks behind the first undecryptable one, as they are. */
  function Opaques(env: Env, item: ConnItem, sender: Sender, key: Key, cs: seq<seq<byte>>): seq<Chunk>
    requires AllChunks(cs) && cs != []
  {
    var f := Readable(env, key, cs);
    if f == |cs| then [] else Raws(item.key, sender, f + 1, cs[f + 1..])
  }

  lemma ClearAt(env: Env, item: ConnItem, sender: Sender, key: Key, cs: seq<seq<byte>>)
    requires SoundCrypto(env) && AllChunks(cs) && cs != []
    ensures var clear := Clear(env, item, sender, key, cs);
            && |clear| == Readable(env, key, cs) && Numbered(clear)
            && (forall i :: 0 <= i < |clear| ==> clear[i].bytes == cs[i] && clear[i].sender == sender)
            && (forall i :: 1 <= i < |clear| ==>
                  env.decrypt(key.secret, key.nonce + (i - 1), cs[i][2..]) == Some(clear[i].plain))
  {
    var clear, rest := Clear(env, item, sender, key, cs), cs[1..];
    DecodedAt(env, item.key, sender, key, 1, rest);
    var ds := Decoded(env, item.key, sender, key, 1, rest);
    forall i | 1 <= i < |clear|
      ensures clear[i] == ds[i - 1] && cs[i] == rest[i - 1]
      ensures env.decrypt(key.secret, key.nonce + (i - 1), cs[i][2..]) == Some(clear[i].plain)
      ensures clear[i].counter == i && |clear[i].plain| < 0x1_0000_0000 && clear[i].bytes == cs[i] != []
    {
      assert clear[i] == ds[i - 1] && cs[i] == rest[i - 1];
      assert IsChunk(cs[i]);
    }
    assert IsChunk(cs[0]);
  }

  /** Chunks without a plain text are stored, and bring no message. */
  lemma {:induction false} RawsStoreOnly(env: Env, item: ConnItem, mp: Mp, cs: seq<Chunk>)
    requires forall i :: 0 <= i < |cs| ==> cs[i].plain == [] && cs[i].bytes != []
    ensures var r := MpRun(env, item, mp, cs);
            MessagesIn(r.effects) == [] && ChunksIn(r.effects) == cs && (cs != [] ==> r.mp.error)
    decreases |cs|
  {
    hide MpStep, MessagesIn, ChunksIn;
    InNothing();
    if cs != [] {
      var n := |cs| - 1;
      assert cs == cs[..n] + [cs[n]];
      RawsStoreOnly(env, item, mp, cs[..n]);
      var r := MpRun(env, item, mp, cs[..n]);
      ErrorStep(env, r.item, r.mp, cs[n]);
      InAppend(r.effects, MpStep(env, r.item, r.mp, cs[n]).effects);
    }
  }

  lemma InNothing()
    ensures MessagesIn([]) == [] && ChunksIn([]) == []
  {
  }

  /** Where a direction stopped decrypting, as remarked on the connection. */
  function CannotDecryptAt(item: ConnItem, sender: Sender): Option<nat> {
    if sender.Remote? then item.comments.incomingCannotDecrypt else item.comments.outgoingCannotDecrypt
  }

  lemma {:induction false} RunKeepsMark(env: Env, item: ConnItem, mp: Mp, cs: seq<Chunk>, sender: Sender)
    ensures CannotDecryptAt(MpRun(env, item, mp, cs).item, sender) == CannotDecryptAt(item, sender)
    decreases |cs|
  {
    hide MpStep;
    if cs != [] {
      var n := |cs| - 1;
      RunKeepsMark(env, item, mp, cs[..n], sender);
      var r := MpRun(env, item, mp, cs[..n]);
      StepKeepsMark(env, r.item, r.mp, cs[n], sender);
    }
  }

  lemma StepKeepsMark(env: Env, item: ConnItem, mp: Mp, c: Chunk, sender: Sender)
    ensures CannotDecryptAt(MpStep(env, item, mp, c).item, sender) == CannotDecryptAt(item, sender)
  {
  }

  /** A payload remarks on its own direction only, and only where that stops
      decrypting. */
  lemma FeedMark(env: Env, item: ConnItem, sender: Sender, h: Half, payload: seq<byte>, of: Sender)
    ensures var error := if h.mode.HaveKey? then
                           Drain(env, item.key, sender, h.mode.key, Append(h.buf, payload)).error else None;
            CannotDecryptAt(Feed(env, item, sender, h, payload).item, of) ==
            if of == sender && error.Some? then error else CannotDecryptAt(item, of)
  {
    hide MpStep, MpRun, Drain;
    var buf := Append(h.buf, payload);
    match h.mode
    case HaveKey(key) =>
      var d := Drain(env, item.key, sender, key, buf);
      var r := MpRun(env, item, h.mp, d.chunks);
      RunKeepsMark(env, item, h.mp, d.chunks, of);
      if d.error.Some? {
        var marked := MarkCannotDecrypt(r.item, sender, d.error.value);
        RunKeepsMark(env, marked, r.mp, DrainRaw(marked.key, sender, d.buf).1, of);
      }
    case CannotDecrypt =>
      RunKeepsMark(env, item, h.mp, DrainRaw(item.key, sender, buf).1, of);
    case _ =>
      StepKeepsMark(env, item, h.mp, WholeBuffer(item.key, sender, buf), of);
  }

  /** The remark of a keyed direction. */
  lemma KeyedMark(env: Env, item: ConnItem, sender: Sender, key: Key, cs: seq<seq<byte>>)
    requires AllChunks(cs) && cs != []
    ensures var f := Readable(env, key, cs);
            CannotDecryptAt(Keyed(env, item, sender, key, cs).line.item, sender) ==
            if f < |cs| then Some(f) else CannotDecryptAt(item, sender)
  {
    hide MpStep, MpRun, Keyed;
    KeyedIsRuns(env, item, sender, key, cs);
    var clear, f := Clear(env, item, sender, key, cs), Readable(env, key, cs);
    RunKeepsMark(env, item, FRESH, clear, sender);
    if f < |cs| {
      var r := MpRun(env, item, FRESH, clear);
      RunKeepsMark(env, MarkCannotDecrypt(r.item, sender, f), r.mp, Opaques(env, item, sender, key, cs), sender);
    }
  }

  /** The direction as two runs of the message parser. */
  lemma KeyedIsRuns(env: Env, item: ConnItem, sender: Sender, key: Key, cs: seq<seq<byte>>)
    requires AllChunks(cs) && cs != []
    ensures var f := Readable(env, key, cs);
            var r := MpRun(env, item, FRESH, Clear(env, item, sender, key, cs));
            Keyed(env, item, sender, key, cs) ==
            if f == |cs| then
              LineResult(Line(r.item, HaveKey(key.(nonce := key.nonce + (f - 1))), f, r.mp), r.effects)
            else
              var marked := MarkCannotDecrypt(r.item, sender, f);
              var s := MpRun(env, marked, r.mp, Opaques(env, item, sender, key, cs));
              LineResult(Line(s.item, CannotDecrypt, |cs|, s.mp), r.effects + ([PutConnection(marked)] + s.effects))
  {
    hide MpStep, MpRun;
    var c := ConnectionChunk(item, sender, cs[0]);
    var s := MpStep(env, item, FRESH, c);
    var l := Line(s.item, HaveKey(key), 1, s.mp);
    StepKeepsKey(env, item, FRESH, c);
    ManyKeyed(env, sender, l, cs[1..]);
    var ds := Decoded(env, item.key, sender, key, 1, cs[1..]);
    MpRunHead(env, item, FRESH, c, ds);
    var g := Good(env, key, cs[1..]);
    if g < |cs| - 1 {
      assert cs[1..][g + 1..] == cs[g + 2..];
      var r := MpRun(env, s.item, s.mp, ds);
      RunKeyKept(env, s.item, s.mp, ds);
      var marked := MarkCannotDecrypt(r.item, sender, g + 1);
      var t := MpRun(env, marked, r.mp, Opaques(env, item, sender, key, cs));
      var tail := [PutConnection(marked)] + t.effects;
      assert s.effects + (r.effects + tail) == (s.effects + r.effects) + tail;
    }
  }

  lemma {:induction false} RunKeyKept(env: Env, item: ConnItem, mp: Mp, cs: seq<Chunk>)
    ensures MpRun(env, item, mp, cs).item.key == item.key
  {
    RunSame(env, item, item, mp, cs);
  }

  /** The whole meaning of a keyed direction. Every chunk is stored with its
      number except the one that failed to decrypt, and that number is
      remarked; the messages are those of the longest understood run of
      readable chunks; after the first unreadable or too small chunk there are
      no more messages. */
  lemma KeyedMeaning(env: Env, item: ConnItem, sender: Sender, key: Key, cs: seq<seq<byte>>)
    returns (h: nat, groups: seq<Group>)
    requires SoundCrypto(env) && AllChunks(cs) && cs != []
    ensures var clear := Clear(env, item, sender, key, cs);
            var f := Readable(env, key, cs);
            var r := Keyed(env, item, sender, key, cs);
            && |clear| == f && h <= f
            && Understood(Plains(clear[..h]), groups)
            && (h < f ==> TooSmallNext(Plains(clear[..h]), groups, clear[h].plain))
            && ChunksIn(r.effects) == clear + Opaques(env, item, sender, key, cs)
            && MessagesIn(r.effects) == Expected(env, item, clear[..h], groups)
            && r.line.counter == |cs|
            && (f == |cs| ==> r.line.mode == HaveKey(key.(nonce := key.nonce + (f - 1))))
            && (f < |cs| ==> r.line.mode == CannotDecrypt)
            && (f == |cs| && h == f ==> Tracks(clear[..h], groups, r.line.mp))
  {
    hide MpStep, MpRun, Understood, TooSmallNext, Expected, Tracks, Numbered;
    var clear, f := Clear(env, item, sender, key, cs), Readable(env, key, cs);
    ClearAt(env, item, sender, key, cs);
    KeyedIsRuns(env, item, sender, key, cs);
    h, groups := Parse(env, item, clear);
    var r := MpRun(env, item, FRESH, clear);
    if f < |cs| {
      OpaquesShape(env, item, sender, key, cs);
      var marked, ops := MarkCannotDecrypt(r.item, sender, f), Opaques(env, item, sender, key, cs);
      var s := MpRun(env, marked, r.mp, ops);
      RawsStoreOnly(env, marked, r.mp, ops);
      InTail(r.effects, PutConnection(marked), s.effects);
    } else {
      assert clear + [] == clear;
    }
  }

  lemma OpaquesShape(env: Env, item: ConnItem, sender: Sender, key: Key, cs: seq<seq<byte>>)
    requires AllChunks(cs) && cs != []
    ensures var ops, f := Opaques(env, item, sender, key, cs), Readable(env, key, cs);
            && |ops| == (if f == |cs| then 0 else |cs| - f - 1)
            && forall i :: 0 <= i < |ops| ==> ops[i] == Chunk(item.key, sender, f + 1 + i, cs[f + 1 + i], []) &&
                                              ops[i].bytes != []
  {
    var f := Readable(env, key, cs);
    forall i | 0 <= i < |cs| ensures cs[i] != [] {
      assert IsChunk(cs[i]);
    }
  }

  lemma InTail(a: seq<Effect>, e: Effect, b: seq<Effect>)
    requires e.PutConnection?
    ensures MessagesIn(a + ([e] + b)) == MessagesIn(a) + MessagesIn(b)
    ensures ChunksIn(a + ([e] + b)) == ChunksIn(a) + ChunksIn(b)
  {
    InConnection(e);
    hide MessagesIn, ChunksIn;
    InAppend(a, [e] + b);
    InAppend([e], b);
    assert [] + MessagesIn(b) == MessagesIn(b) && [] + ChunksIn(b) == ChunksIn(b);
  }

  lemma InConnection(e: Effect)
    requires e.PutConnection?
    ensures MessagesIn([e]) == [] && ChunksIn([e]) == []
  {
    assert [e][..0] == [];
    assert MessagesIn([e][..0]) == [] && ChunksIn([e][..0]) == [];
  }

  // ---------------------------------------------------------------- bytes

  function BytesOf(cs: seq<Chunk>): (b: seq<seq<byte>>)
    ensures |b| == |cs|
  {
    seq(|cs|, i requires 0 <= i < |cs| => cs[i].bytes)
  }

  /** Nothing is lost or invented: the stored chunks in order of their number,
      with the one undecryptable chunk in its place, and what is still
      buffered, are all the bytes received. */
  lemma Conservation(env: Env, item: ConnItem, sender: Sender, key: Key, stream: seq<byte>)
    requires SoundCrypto(env) && HasChunk(stream)
    ensures var cs := Chunks(stream);
            AllChunks(cs) && cs != [] &&
            var clear, ops := Clear(env, item, sender, key, cs), Opaques(env, item, sender, key, cs);
            var f := Readable(env, key, cs);
            var dropped := if f == |cs| then [] else cs[f];
            Flatten(BytesOf(clear)) + dropped + Flatten(BytesOf(ops)) + Tail(stream) == stream
  {
    hide Clear, Opaques, Readable, BytesOf;
    CutSound(stream);
    var cs, f := Chunks(stream), Readable(env, key, Chunks(stream));
    StoredBytes(env, item, sender, key, cs);
    var rest := Tail(stream);
    if f == |cs| {
      assert cs[..f] == cs;
      assert Flatten(cs) + [] + Flatten([]) + rest == Flatten(cs) + rest;
    } else {
      FlattenAround(cs, f);
    }
  }

  lemma StoredBytes(env: Env, item: ConnItem, sender: Sender, key: Key, cs: seq<seq<byte>>)
    requires SoundCrypto(env) && AllChunks(cs) && cs != []
    ensures var f := Readable(env, key, cs);
            BytesOf(Clear(env, item, sender, key, cs)) == cs[..f] &&
            BytesOf(Opaques(env, item, sender, key, cs)) == if f == |cs| then [] else cs[f + 1..]
  {
    hide Clear, Opaques, Readable, Numbered;
    ClearAt(env, item, sender, key, cs);
    OpaquesShape(env, item, sender, key, cs);
  }

  lemma FlattenAround(cs: seq<seq<byte>>, f: nat)
    requires f < |cs|
    ensures Flatten(cs) == Flatten(cs[..f]) + cs[f] + Flatten(cs[f + 1..])
  {
    assert cs == cs[..f] + cs[f..] && cs[f..][1..] == cs[f + 1..];
    FlattenAppend(cs[..f], cs[f..]);
    var x, y, z := Flatten(cs[..f]), cs[f], Flatten(cs[f + 1..]);
    assert Flatten(cs[f..]) == y + z;
    assert x + (y + z) == x + y + z;
  }
}
