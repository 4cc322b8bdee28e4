/** Grouping decrypted chunks into messages. */
module MessageParsing {
  import opened Wrappers
  import opened Bytes
  import opened Common
  import opened Store

  /** A message under construction: `length` plain bytes are still missing,
      chunks `first..end` are linked. */
  datatype Builder = Builder(ty: MessageType, length: u32, first: nat, end: nat)

  datatype Linked = Full(builder: Builder) | Partial(builder: Builder) | Overrun

  /** The declared size of a peer message: its 4-byte header plus the header
      itself, in 32-bit arithmetic. */
  function Declared(plain: seq<byte>): u32
    requires |plain| >= 6
  {
    (BeVal(plain[..4]) + 4) % 0x1_0000_0000
  }

  function PeerMessage(plain: seq<byte>, number: nat): Builder
    requires |plain| >= 6
  {
    Builder(P2p(KindFromTag(BeVal(plain[4..6]))), Declared(plain), number, number)
  }

  function LinkChunk(b: Builder, size: nat): Linked {
    var length: u32 := size % 0x1_0000_0000;
    if b.length < length then Overrun
    else
      var b' := b.(length := b.length - length, end := b.end + 1);
      if b'.length == 0 then Full(b') else Partial(b')
  }

  /** The value of a `MessageParser`. */
  datatype Mp = Mp(builder: Option<Builder>, error: bool)

  const FRESH := Mp(None, false)

  predicate TooSmall(mp: Mp, c: Chunk) {
    match c.counter
    case 0 => |c.plain| < 82
    case 1 => |c.plain| < 2
    case 2 => c.plain == []
    case _ => if mp.builder.Some? then c.plain == [] else |c.plain| < 6
  }

  function Build(env: Env, item: ConnItem, c: Chunk, ty: MessageType, first: nat, end: nat): Message {
    Message(item.key, env.clock(c.cn, c.sender, c.counter), item.remoteAddr, item.initiator,
            c.sender, ty, first, end)
  }

  /** The raw bytes of a continuation chunk happen to look like a new message. */
  predicate Suspicious(mp: Mp, c: Chunk) {
    mp.builder.Some? && |c.bytes| >= 6 &&
    KindFromTag(BeVal(c.bytes[4..6])) != Unknown && BeVal(c.bytes[..4]) < 0x100_0000
  }

  function Remark(item: ConnItem, mp: Mp, c: Chunk): ConnItem {
    if Suspicious(mp, c) then item.(comments := item.comments.(incomingSuspicious := Some(c.counter)))
    else item
  }

  function CurrentBuilder(mp: Mp, c: Chunk): Builder
    requires c.counter >= 3 && !TooSmall(mp, c)
  {
    if mp.builder.Some? then mp.builder.value else PeerMessage(c.plain, c.counter)
  }

  datatype MpResult = MpResult(item: ConnItem, mp: Mp, effects: seq<Effect>)

  function MpStep(env: Env, item: ConnItem, mp: Mp, c: Chunk): MpResult {
    if mp.error || TooSmall(mp, c) then
      MpResult(item, mp.(error := true), if c.bytes != [] then [PutChunk(c)] else [])
    else if c.counter == 0 then
      MpResult(item, mp, [PutChunk(c), PutMessage(Build(env, item, c, Connection, 0, 1))])
    else if c.counter == 1 then
      MpResult(item, mp, [PutChunk(c), PutMessage(Build(env, item, c, Meta, 1, 2))])
    else if c.counter == 2 then
      MpResult(item, mp, [PutChunk(c), PutMessage(Build(env, item, c, Ack, 2, 3))])
    else
      var item' := Remark(item, mp, c);
      match LinkChunk(CurrentBuilder(mp, c), |c.plain|)
      case Full(b) =>
        MpResult(item', mp.(builder := None),
                 [PutChunk(c), PutMessage(Build(env, item', c, b.ty, b.first, b.end))])
      case Partial(b) => MpResult(item', mp.(builder := Some(b)), [PutChunk(c)])
      case Overrun => MpResult(item', mp.(builder := None), [PutChunk(c)])
  }

  function MpRun(env: Env, item: ConnItem, mp: Mp, cs: seq<Chunk>): MpResult {
    if cs == [] then MpResult(item, mp, [])
    else
      var before := MpRun(env, item, mp, cs[..|cs| - 1]);
      var last := MpStep(env, before.item, before.mp, cs[|cs| - 1]);
      MpResult(last.item, last.mp, before.effects + last.effects)
  }

  lemma {:induction false} MpRunAppend(env: Env, item: ConnItem, mp: Mp, a: seq<Chunk>, b: seq<Chunk>)
    ensures var x := MpRun(env, item, mp, a);
            var y := MpRun(env, x.item, x.mp, b);
            MpRun(env, item, mp, a + b) == MpResult(y.item, y.mp, x.effects + y.effects)
    decreases |b|
  {
    hide MpStep;
    if b == [] {
      assert a + b == a;
    } else {
      assert (a + b)[..|a + b| - 1] == a + b[..|b| - 1];
      MpRunAppend(env, item, mp, a, b[..|b| - 1]);
    }
  }

  lemma MpRunOne(env: Env, item: ConnItem, mp: Mp, c: Chunk)
    ensures MpRun(env, item, mp, [c]) == MpStep(env, item, mp, c)
  {
    assert [c][..0] == [];
    assert MpRun(env, item, mp, [c][..0]) == MpResult(item, mp, []);
  }

  /** Two states of the same connection record: only remarks may differ. */
  predicate Same(a: ConnItem, b: ConnItem) {
    a.key == b.key && a.remoteAddr == b.remoteAddr && a.initiator == b.initiator
  }

  lemma {:induction false} RunSame(env: Env, a: ConnItem, b: ConnItem, mp: Mp, cs: seq<Chunk>)
    requires Same(a, b)
    ensures var x := MpRun(env, a, mp, cs);
            var y := MpRun(env, b, mp, cs);
            x.mp == y.mp && x.effects == y.effects && Same(x.item, a) && Same(y.item, b)
    decreases |cs|
  {
    hide MpStep;
    if cs != [] {
      var n := |cs| - 1;
      RunSame(env, a, b, mp, cs[..n]);
      var x, y := MpRun(env, a, mp, cs[..n]), MpRun(env, b, mp, cs[..n]);
      StepSame(env, x.item, y.item, x.mp, cs[n]);
    }
  }

  lemma StepSame(env: Env, a: ConnItem, b: ConnItem, mp: Mp, c: Chunk)
    requires Same(a, b)
    ensures var x, y := MpStep(env, a, mp, c), MpStep(env, b, mp, c);
            x.mp == y.mp && x.effects == y.effects && Same(x.item, a) && Same(y.item, b)
  {
  }

  class MessageParser {
    var builder: Option<Builder>
    var error: bool
    const db: Db

    ghost function State(): Mp
      reads this
    {
      Mp(builder, error)
    }

    constructor (db: Db)
      ensures State() == FRESH && this.db == db
    {
      builder := None;
      error := false;
      this.db := db;
    }

    method HandleChunk(env: Env, chunk: Chunk, item: ConnItem) returns (item': ConnItem)
      modifies this, db
      ensures var r := MpStep(env, item, old(State()), chunk);
              State() == r.mp && item' == r.item && db.State() == ApplyAll(old(db.State()), r.effects)
    {
      item' := item;
      var tooSmall;
      if chunk.counter == 0 {
        tooSmall := |chunk.plain| < 82;
      } else if chunk.counter == 1 {
        tooSmall := |chunk.plain| < 2;
      } else if chunk.counter == 2 {
        tooSmall := chunk.plain == [];
      } else if builder.Some? {
        tooSmall := chunk.plain == [];
      } else {
        tooSmall := |chunk.plain| < 6;
      }

      ghost var before := db.State();
      ghost var r := MpStep(env, item, State(), chunk);
      if error || tooSmall {
        error := true;
        if chunk.bytes != [] {
          ApplyOne(before, PutChunk(chunk));
          db.StoreChunk(chunk);
        }
        return;
      }

      var message: Option<Message>;
      if chunk.counter == 0 {
        message := Some(Build(env, item, chunk, Connection, 0, 1));
      } else if chunk.counter == 1 {
        message := Some(Build(env, item, chunk, Meta, 1, 2));
      } else if chunk.counter == 2 {
        message := Some(Build(env, item, chunk, Ack, 2, 3));
      } else {
        item' := Remark(item, Mp(builder, error), chunk);
        var current := if builder.Some? then builder.value else PeerMessage(chunk.plain, chunk.counter);
        builder := None;
        match LinkChunk(current, |chunk.plain|)
        case Full(b) => message := Some(Build(env, item', chunk, b.ty, b.first, b.end));
        case Partial(b) => builder := Some(b); message := None;
        case Overrun => message := None;
      }

      db.StoreChunk(chunk);
      if message.Some? {
        db.StoreMessage(message.value);
        assert r.effects == [PutChunk(chunk), PutMessage(message.value)];
        ApplyTwo(before, PutChunk(chunk), PutMessage(message.value));
      } else {
        assert r.effects == [PutChunk(chunk)];
        ApplyOne(before, PutChunk(chunk));
      }
    }
  }

  lemma ApplyOne(t: Tables, e: Effect)
    ensures ApplyAll(t, [e]) == Apply(t, e)
  {
    assert [e][..0] == [];
    assert ApplyAll(t, [e][..0]) == t;
  }

  lemma ApplyTwo(t: Tables, e: Effect, f: Effect)
    ensures ApplyAll(t, [e, f]) == Apply(Apply(t, e), f)
  {
    ApplyOne(t, e);
    assert [e, f][..1] == [e];
  }
}
