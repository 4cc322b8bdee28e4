/** One captured connection: the two directions, first in handshake, then
    each on its own, all writing to one database. */
module Connections {
  import opened Wrappers
  import opened Bytes
  import opened Common
  import opened StreamBuffer
  import opened Store
  import opened MessageParsing
  import opened ChunkParser

  datatype Phase = Handshake(l: HalfTag, r: HalfTag) | Done(local: Mode, remote: Mode)

  datatype Conn = Conn(item: ConnItem, phase: Phase, lbuf: Buf, rbuf: Buf, lmp: Mp, rmp: Mp)

  /** A connection message must arrive within this many buffered bytes. */
  const EARLY_LIMIT := 0x20000

  function NewConn(key: ConnKey, initiator: Initiator, remoteAddr: SocketAddr): Conn {
    Conn(ConnItem(key, initiator, remoteAddr, seq(32, _ => 0), NO_COMMENTS), Handshake(Initial, Initial),
         Buf(0, []), Buf(0, []), FRESH, FRESH)
  }

  /** During the handshake a direction is marked as having its connection
      message exactly when it does, and never are both so marked. */
  ghost predicate Inv(c: Conn) {
    c.phase.Handshake? ==>
      && c.lbuf.counter == 0 && c.rbuf.counter == 0
      && c.lmp == FRESH && c.rmp == FRESH
      && (c.phase.l.HaveCm? <==> HasChunk(c.lbuf.data))
      && (c.phase.r.HaveCm? <==> HasChunk(c.rbuf.data))
      && !(c.phase.l.HaveCm? && c.phase.r.HaveCm?)
  }

  function LocalHalf(c: Conn): Half
    requires c.phase.Done?
  {
    Half(c.phase.local, c.lbuf, c.lmp)
  }

  function RemoteHalf(c: Conn): Half
    requires c.phase.Done?
  {
    Half(c.phase.remote, c.rbuf, c.rmp)
  }

  function FirstChunkOf(env: Env, item: ConnItem, chunk: Option<Chunk>): MpResult {
    match chunk
    case None => MpResult(item, FRESH, [])
    case Some(c) => MpStep(env, item, FRESH, c)
  }

  /** The handshake is over: the record is stored, then each direction's first chunk. */
  function Complete(env: Env, h: Handed): (Conn, seq<Effect>) {
    var l := FirstChunkOf(env, h.item, h.local.chunk);
    var r := FirstChunkOf(env, l.item, h.remote.chunk);
    (Conn(r.item, Done(h.local.mode, h.remote.mode), h.local.buf, h.remote.buf, l.mp, r.mp),
     [PutConnection(h.item)] + l.effects + r.effects)
  }

  function HandshakeStep(env: Env, c: Conn, payload: seq<byte>, incoming: bool): (Conn, seq<Effect>)
    requires Inv(c) && c.phase.Handshake?
  {
    if !incoming then
      var buf := Append(c.lbuf, payload);
      if c.phase.l.HaveCm? then
        if |c.lbuf.data| > EARLY_LIMIT then Complete(env, GiveUp(c.item, c.lbuf, c.rbuf))
        else (c.(lbuf := buf), [])
      else if !HasChunk(buf.data) then (c.(lbuf := buf), [])
      else if c.phase.r.HaveCm? then Complete(env, MakeKey(env, c.item, buf, c.rbuf))
      else (c.(lbuf := buf, phase := Handshake(HaveCm, Initial)), [])
    else
      var buf := Append(c.rbuf, payload);
      if c.phase.r.HaveCm? then
        if |c.rbuf.data| > EARLY_LIMIT then Complete(env, GiveUp(c.item, c.lbuf, c.rbuf))
        else (c.(rbuf := buf), [])
      else if !HasChunk(buf.data) then (c.(rbuf := buf), [])
      else if c.phase.l.HaveCm? then Complete(env, MakeKey(env, c.item, c.lbuf, buf))
      else (c.(rbuf := buf, phase := Handshake(Initial, HaveCm)), [])
  }

  function DoneStep(env: Env, c: Conn, payload: seq<byte>, incoming: bool): (Conn, seq<Effect>)
    requires c.phase.Done?
  {
    if !incoming then
      var r := Feed(env, c.item, Local, LocalHalf(c), payload);
      (c.(item := r.item, phase := Done(r.half.mode, c.phase.remote), lbuf := r.half.buf, lmp := r.half.mp),
       r.effects)
    else
      var r := Feed(env, c.item, Remote, RemoteHalf(c), payload);
      (c.(item := r.item, phase := Done(c.phase.local, r.half.mode), rbuf := r.half.buf, rmp := r.half.mp),
       r.effects)
  }

  /** One captured payload. */
  function Step(env: Env, c: Conn, payload: seq<byte>, incoming: bool): (Conn, seq<Effect>)
    requires Inv(c)
  {
    if c.phase.Handshake? then HandshakeStep(env, c, payload, incoming) else DoneStep(env, c, payload, incoming)
  }

  /** Every payload keeps the handshake invariant, so no direction is ever
      taken for one that has, or lacks, its connection message, and the
      impossible pair of two finished directions in handshake never arises. */
  lemma StepKeepsInv(env: Env, c: Conn, payload: seq<byte>, incoming: bool)
    requires Inv(c)
    ensures Inv(Step(env, c, payload, incoming).0)
    ensures Step(env, c, payload, incoming).0.item.key == c.item.key
  {
    hide Feed, MpStep, Complete, HasChunk;
    if c.phase.Done? {
      FeedKeepsKey(env, c.item, Local, LocalHalf(c), payload);
      FeedKeepsKey(env, c.item, Remote, RemoteHalf(c), payload);
    } else {
      var side := if incoming then c.rbuf.data else c.lbuf.data;
      if HasChunk(side) {
        StillHasChunk(side, payload);
      }
      forall h ensures Complete(env, h).0.phase.Done? && Complete(env, h).0.item.key == h.item.key {
        CompleteDone(env, h);
      }
    }
  }

  lemma StillHasChunk(data: seq<byte>, payload: seq<byte>)
    requires HasChunk(data)
    ensures HasChunk(data + payload)
  {
    assert (data + payload)[..|data|] == data;
  }

  lemma CompleteDone(env: Env, h: Handed)
    ensures var c := Complete(env, h).0; c.phase.Done? && c.item.key == h.item.key
  {
    hide MpStep;
    if h.local.chunk.Some? {
      StepKeepsKey(env, h.item, FRESH, h.local.chunk.value);
    }
    var l := FirstChunkOf(env, h.item, h.local.chunk);
    if h.remote.chunk.Some? {
      StepKeepsKey(env, l.item, FRESH, h.remote.chunk.value);
    }
  }

  lemma {:induction false} RunKeepsKey(env: Env, item: ConnItem, mp: Mp, cs: seq<Chunk>)
    ensures MpRun(env, item, mp, cs).item.key == item.key
    decreases |cs|
  {
    hide MpStep;
    if cs != [] {
      var n := |cs| - 1;
      RunKeepsKey(env, item, mp, cs[..n]);
      var r := MpRun(env, item, mp, cs[..n]);
      StepKeepsKey(env, r.item, r.mp, cs[n]);
    }
  }

  lemma FeedKeepsKey(env: Env, item: ConnItem, sender: Sender, h: Half, payload: seq<byte>)
    ensures Feed(env, item, sender, h, payload).item.key == item.key
  {
    var buf := Append(h.buf, payload);
    if h.mode.HaveKey? {
      var d := Drain(env, item.key, sender, h.mode.key, buf);
      RunKeepsKey(env, item, h.mp, d.chunks);
      if d.error.Some? {
        var r := MpRun(env, item, h.mp, d.chunks);
        var item' := MarkCannotDecrypt(r.item, sender, d.error.value);
        RunKeepsKey(env, item', r.mp, DrainRaw(item.key, sender, d.buf).1);
      }
    } else if h.mode.CannotDecrypt? {
      RunKeepsKey(env, item, h.mp, DrainRaw(item.key, sender, buf).1);
    }
  }

  class Connection {
    var phase: Phase
    var item: ConnItem
    const local: Buffer
    const remote: Buffer
    const localMp: MessageParser
    const remoteMp: MessageParser
    const db: Db

    ghost predicate Separate() {
      && localMp.db == db && remoteMp.db == db
      && local != remote && localMp != remoteMp
      && (local as object) !in {localMp as object, remoteMp, db, this}
      && (remote as object) !in {localMp as object, remoteMp, db, this}
      && (localMp as object) !in {db as object, this}
      && (remoteMp as object) !in {db as object, this}
      && (db as object) != this
    }

    ghost function State(): Conn
      reads this, local, remote, localMp, remoteMp
    {
      Conn(item, phase, local.State(), remote.State(), localMp.State(), remoteMp.State())
    }

    ghost predicate Valid()
      reads this, local, remote, localMp, remoteMp
    {
      Separate() && Inv(State())
    }

    constructor (key: ConnKey, remoteAddr: SocketAddr, incoming: bool, db: Db)
      ensures Valid() && this.db == db
      ensures State() == NewConn(key, if incoming then InitiatorRemote else InitiatorLocal, remoteAddr)
      ensures fresh(local) && fresh(remote) && fresh(localMp) && fresh(remoteMp)
    {
      item := ConnItem(key, if incoming then InitiatorRemote else InitiatorLocal, remoteAddr,
                       seq(32, _ => 0), NO_COMMENTS);
      phase := Handshake(Initial, Initial);
      local := new Buffer();
      remote := new Buffer();
      localMp := new MessageParser(db);
      remoteMp := new MessageParser(db);
      this.db := db;
    }

    /** `self.cleanup()` of a direction whose handshake failed. */
    method Flush(buffer: Buffer, sender: Sender) returns (chunk: Option<Chunk>)
      modifies buffer
      ensures forall mode :: Flushed(item, sender, old(buffer.State()), mode) == Opened(mode, buffer.State(), chunk)
    {
      var whole := buffer.Cleanup();
      match whole
      case None => chunk := None;
      case Some((counter, bytes)) => chunk := Some(Chunk(item.key, sender, counter, bytes, []));
    }

    /** `HaveCm::have_key`: the buffer is known to hold a chunk. */
    method TakeConnectionMessage(buffer: Buffer, sender: Sender) returns (chunk: Chunk)
      requires HasChunk(buffer.State().data)
      modifies buffer
      ensures forall key ::
                WithKey(item, sender, old(buffer.State()), key) == Opened(HaveKey(key), buffer.State(), Some(chunk))
    {
      var next := buffer.Next();
      var (counter, bytes) := next.value;
      chunk := Chunk(item.key, sender, counter, bytes, bytes[2..]);
    }

    /** `HaveCm::make_key`. */
    method DeriveKeys(env: Env) returns (l: Mode, lchunk: Option<Chunk>, r: Mode, rchunk: Option<Chunk>)
      requires Separate() && HasChunk(local.State().data) && HasChunk(remote.State().data)
      modifies `item, local, remote
      ensures MakeKey(env, old(item), old(local.State()), old(remote.State())) ==
              Handed(item, Opened(l, local.State(), lchunk), Opened(r, remote.State(), rchunk))
    {
      var lcm := local.HaveChunk();
      var rcm := remote.HaveChunk();
      match MakeKeys(env, lcm.value, rcm.value, item.initiator)
      case Some((lkey, rkey)) =>
        var lc := TakeConnectionMessage(local, Local);
        var rc := TakeConnectionMessage(remote, Remote);
        item := RemarkRemote(env, RemarkLocal(env, item, lc.bytes), rc.bytes);
        l, lchunk, r, rchunk := HaveKey(lkey), Some(lc), HaveKey(rkey), Some(rc);
      case None =>
        lchunk := Flush(local, Local);
        rchunk := Flush(remote, Remote);
        item := item.(comments := item.comments.(outgoingWrongPk := true));
        l, r := HaveNotKey, HaveNotKey;
    }

    /** Neither direction can be understood: flush both. */
    method BecomeUncertain() returns (lchunk: Option<Chunk>, rchunk: Option<Chunk>)
      requires Separate()
      modifies `item, local, remote
      ensures GiveUp(old(item), old(local.State()), old(remote.State())) ==
              Handed(item, Opened(Uncertain, local.State(), lchunk), Opened(Uncertain, remote.State(), rchunk))
    {
      lchunk := Flush(local, Local);
      rchunk := Flush(remote, Remote);
      item := MarkUncertain(item);
    }

    method HandleFirst(env: Env, handler: MessageParser, chunk: Option<Chunk>)
      requires handler in {localMp, remoteMp} && Separate() && handler.State() == FRESH
      modifies `item, handler, db
      ensures var r := FirstChunkOf(env, old(item), chunk);
              item == r.item && handler.State() == r.mp && db.State() == ApplyAll(old(db.State()), r.effects)
    {
      if chunk.Some? {
        item := handler.HandleChunk(env, chunk.value, item);
      }
    }

    method Finish(env: Env, l: Mode, lchunk: Option<Chunk>, r: Mode, rchunk: Option<Chunk>)
      requires Separate() && localMp.State() == FRESH && remoteMp.State() == FRESH
      modifies `item, `phase, localMp, remoteMp, db
      ensures Separate()
      ensures var h := Handed(old(item), Opened(l, local.State(), lchunk), Opened(r, remote.State(), rchunk));
              State() == Complete(env, h).0 &&
              db.State() == ApplyAll(old(db.State()), Complete(env, h).1)
    {
      ghost var t := db.State();
      ghost var put := [PutConnection(item)];
      ghost var le := FirstChunkOf(env, item, lchunk);
      ghost var re := FirstChunkOf(env, le.item, rchunk);
      ApplyOne(t, PutConnection(item));
      ApplyAllAppend(t, put, le.effects);
      ApplyAllAppend(t, put + le.effects, re.effects);
      db.StoreConnection(item);
      HandleFirst(env, localMp, lchunk);
      HandleFirst(env, remoteMp, rchunk);
      phase := Done(l, r);
    }

    method HandleHandshake(env: Env, payload: seq<byte>, incoming: bool)
      requires Valid() && phase.Handshake?
      modifies this, local, remote, localMp, remoteMp, db
      ensures Separate()
      ensures State() == HandshakeStep(env, old(State()), payload, incoming).0
      ensures db.State() == ApplyAll(old(db.State()), HandshakeStep(env, old(State()), payload, incoming).1)
    {
      var mine, buffer := if incoming then phase.r else phase.l, if incoming then remote else local;
      var other := if incoming then phase.l else phase.r;
      match (mine, other)
      case (Initial, _) =>
        buffer.HandleData(payload);
        var chunk := buffer.HaveChunk();
        if chunk.Some? {
          match other
          case Initial => phase := if incoming then Handshake(Initial, HaveCm) else Handshake(HaveCm, Initial);
          case HaveCm =>
            var l, lchunk, r, rchunk := DeriveKeys(env);
            Finish(env, l, lchunk, r, rchunk);
        }
      case (HaveCm, Initial) =>
        var remaining := buffer.Remaining();
        if remaining > EARLY_LIMIT {
          var lchunk, rchunk := BecomeUncertain();
          Finish(env, Uncertain, lchunk, Uncertain, rchunk);
        } else {
          buffer.HandleData(payload);
        }
      case (HaveCm, HaveCm) =>
        // the panicking arm
        assert false;
    }

    method HandleData(env: Env, payload: seq<byte>, incoming: bool)
      requires Valid() && payload != []
      modifies this, local, remote, localMp, remoteMp, db
      ensures Valid()
      ensures State() == Step(env, old(State()), payload, incoming).0
      ensures db.State() == ApplyAll(old(db.State()), Step(env, old(State()), payload, incoming).1)
    {
      StepKeepsInv(env, State(), payload, incoming);
      match phase
      case Handshake(_, _) => HandleHandshake(env, payload, incoming);
      case Done(l, r) =>
        if !incoming {
          var mode;
          item, mode := HandleDone(env, item, Local, l, local, localMp, payload);
          phase := Done(mode, r);
        } else {
          var mode;
          item, mode := HandleDone(env, item, Remote, r, remote, remoteMp, payload);
          phase := Done(l, mode);
        }
    }
  }
}
