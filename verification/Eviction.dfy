/** Eviction never damages a message that is still stored, in any run of any
    number of connections against one database. */
module Eviction {
  import opened Bytes
  import opened Common
  import opened StreamBuffer
  import opened Store
  import opened MessageParsing
  import opened ChunkParser
  import opened Segmentation
  import opened Connections

  /** Every stored message has all its chunks, and no two of one direction overlap. */
  ghost predicate Sound(t: Tables) {
    && (forall i :: i in t.messages ==> i < t.counter && t.messages[i].first < t.messages[i].end)
    && (forall i, k :: i in t.messages && Owns(t.messages[i], k) ==> k in t.chunks)
    && (forall i, j :: i in t.messages && j in t.messages && i != j ==> Apart(t.messages[i], t.messages[j]))
  }

  predicate Apart(a: Message, b: Message) {
    a.cn != b.cn || a.sender != b.sender || a.end <= b.first || b.end <= a.first
  }

  /** Of one direction, no stored message reaches beyond chunk `base`, and the
      chunks from there up to `next` are stored. */
  ghost predicate Front(t: Tables, cn: ConnKey, s: Sender, base: nat, next: nat) {
    && base <= next
    && (forall i :: i in t.messages && t.messages[i].cn == cn && t.messages[i].sender == s ==>
          t.messages[i].end <= base)
    && (forall n :: base <= n < next ==> ChunkKey(cn, n, s) in t.chunks)
  }

  /** Nothing changes for the other directions. */
  ghost predicate Undisturbed(t: Tables, t': Tables, cn: ConnKey, s: Sender) {
    forall cn', s', base, next ::
      (cn' != cn || s' != s) && Front(t, cn', s', base, next) ==> Front(t', cn', s', base, next)
  }

  // ---------------------------------------------------------------- single effects

  lemma PutChunkKeeps(t: Tables, c: Chunk, base: nat)
    requires Sound(t) && Front(t, c.cn, c.sender, base, c.counter)
    ensures var t' := Apply(t, PutChunk(c));
            Sound(t') && Front(t', c.cn, c.sender, base, c.counter + 1) && Undisturbed(t, t', c.cn, c.sender)
  {
    var t' := Apply(t, PutChunk(c));
    assert KeyOf(c) in t'.chunks;
    assert forall k :: k in t.chunks ==> k in t'.chunks;
  }

  lemma PutConnectionKeeps(t: Tables, item: ConnItem)
    requires Sound(t)
    ensures var t' := Apply(t, PutConnection(item));
            Sound(t') &&
            forall cn, s, base, next :: Front(t, cn, s, base, next) ==> Front(t', cn, s, base, next)
  {
  }

  /** A front may be moved up: what was pending is no longer needed. */
  lemma FrontMoves(t: Tables, cn: ConnKey, s: Sender, base: nat, next: nat, base': nat, next': nat)
    requires Front(t, cn, s, base, next) && base <= base' <= next'
    requires forall n :: base' <= n < next' ==> ChunkKey(cn, n, s) in t.chunks
    ensures Front(t, cn, s, base', next')
  {
  }

  /** Removing one message takes away only its own chunks. */
  lemma RemoveKeeps(t: Tables, index: nat)
    requires Sound(t)
    ensures var t' := Removed(t, index);
            Sound(t') && t'.counter == t.counter &&
            forall cn, s, base, next :: Front(t, cn, s, base, next) ==> Front(t', cn, s, base, next)
  {
    var t' := Removed(t, index);
    if index in t.messages {
      var m := t.messages[index];
      forall i, k | i in t'.messages && Owns(t'.messages[i], k) ensures k in t'.chunks {
        assert Apart(t.messages[i], m);
        assert !Owns(m, k);
      }
      forall cn: ConnKey, s: Sender, base: nat, next: nat | Front(t, cn, s, base, next)
        ensures Front(t', cn, s, base, next)
      {
        forall n | base <= n < next ensures ChunkKey(cn, n, s) in t'.chunks {
          assert ChunkKey(cn, n, s) in t.chunks && !Owns(m, ChunkKey(cn, n, s));
        }
      }
    }
  }

  /** A message all of whose chunks are beyond the front and stored. */
  lemma AddKeeps(t: Tables, index: nat, m: Message, base: nat, next: nat)
    requires Sound(t) && index < t.counter && index !in t.messages
    requires Front(t, m.cn, m.sender, base, next) && base <= m.first < m.end <= next
    ensures var t' := AddMessage(t, index, m);
            Sound(t') && Front(t', m.cn, m.sender, m.end, next) && Undisturbed(t, t', m.cn, m.sender)
  {
    var t' := AddMessage(t, index, m);
    hide AddMessage;
    AddShape(t, index, m);
    forall i, k | i in t'.messages && Owns(t'.messages[i], k) ensures k in t'.chunks {
      if i == index {
        assert k == ChunkKey(m.cn, k.counter, m.sender);
      }
    }
    forall i, j | i in t'.messages && j in t'.messages && i != j ensures Apart(t'.messages[i], t'.messages[j]) {
      if i != index && j != index {
        assert Apart(t.messages[i], t.messages[j]);
      }
    }
  }

  lemma AddShape(t: Tables, index: nat, m: Message)
    ensures var t' := AddMessage(t, index, m);
            t'.messages == t.messages[index := m] && t'.chunks == t.chunks && t'.counter == t.counter
  {
  }

  /** Storing a message, with the eviction it may cause. */
  lemma PutMessageKeeps(t: Tables, m: Message, base: nat, next: nat)
    requires Sound(t) && Front(t, m.cn, m.sender, base, next) && base <= m.first < m.end <= next
    ensures var t' := Apply(t, PutMessage(m));
            Sound(t') && Front(t', m.cn, m.sender, m.end, next) && Undisturbed(t, t', m.cn, m.sender)
  {
    hide AddMessage, Removed, Sound, Front;
    var t1 := t.(counter := t.counter + 1);
    CounterKeeps(t);
    if t.limit.Some? && t.counter >= t.limit.value {
      RemoveKeeps(t1, t.counter - t.limit.value);
      NotThere(t1, t.counter - t.limit.value, t.counter);
    }
    AddKeeps(Evict(t1, t.counter), t.counter, m, base, next);
  }

  lemma CounterKeeps(t: Tables)
    requires Sound(t)
    ensures var t' := t.(counter := t.counter + 1);
            Sound(t') && t.counter !in t'.messages &&
            forall cn, s, base, next :: Front(t, cn, s, base, next) ==> Front(t', cn, s, base, next)
  {
  }

  lemma NotThere(t: Tables, index: nat, other: nat)
    requires other !in t.messages
    ensures other !in Removed(t, index).messages
  {
  }

  // ---------------------------------------------------------------- chunks

  /** Where the chunks not yet part of a stored message begin. */
  function Base(mp: Mp, counter: nat): nat {
    if !mp.error && mp.builder.Some? && mp.builder.value.end == counter && mp.builder.value.first <= counter
    then mp.builder.value.first else counter
  }

  /** The message being built ends at the next chunk. */
  predicate Fits(mp: Mp, counter: nat) {
    !mp.error && mp.builder.Some? ==> mp.builder.value.end == counter && 3 <= mp.builder.value.first <= counter
  }

  ghost predicate Stands(t: Tables, cn: ConnKey, s: Sender, mp: Mp, counter: nat) {
    Front(t, cn, s, Base(mp, counter), counter)
  }

  lemma UndisturbedTrans(a: Tables, b: Tables, c: Tables, cn: ConnKey, s: Sender)
    requires Undisturbed(a, b, cn, s) && Undisturbed(b, c, cn, s)
    ensures Undisturbed(a, c, cn, s)
  {
  }

  lemma StoreOnly(t: Tables, c: Chunk, base: nat, mp: Mp)
    requires Sound(t) && Front(t, c.cn, c.sender, base, c.counter)
    requires Base(mp, c.counter + 1) == base || Base(mp, c.counter + 1) == c.counter + 1
    ensures var t' := ApplyAll(t, [PutChunk(c)]);
            Sound(t') && Stands(t', c.cn, c.sender, mp, c.counter + 1) && Undisturbed(t, t', c.cn, c.sender)
  {
    hide Sound, Undisturbed, Apply;
    ApplyOne(t, PutChunk(c));
    PutChunkKeeps(t, c, base);
    var n := c.counter + 1;
    FrontMoves(Apply(t, PutChunk(c)), c.cn, c.sender, base, n, Base(mp, n), n);
  }

  lemma StoreBoth(t: Tables, c: Chunk, m: Message, base: nat, mp: Mp)
    requires Sound(t) && Front(t, c.cn, c.sender, base, c.counter)
    requires m.cn == c.cn && m.sender == c.sender && base <= m.first <= c.counter && m.end == c.counter + 1
    requires Base(mp, c.counter + 1) == c.counter + 1
    ensures var t' := ApplyAll(t, [PutChunk(c), PutMessage(m)]);
            Sound(t') && Stands(t', c.cn, c.sender, mp, c.counter + 1) && Undisturbed(t, t', c.cn, c.sender)
  {
    hide Sound, Undisturbed, Front, Apply;
    ApplyTwo(t, PutChunk(c), PutMessage(m));
    PutChunkKeeps(t, c, base);
    var t1 := Apply(t, PutChunk(c));
    PutMessageKeeps(t1, m, base, c.counter + 1);
    UndisturbedTrans(t, t1, Apply(t1, PutMessage(m)), c.cn, c.sender);
  }

  /** One chunk through the parser and into the database. */
  lemma ChunkKeeps(env: Env, item: ConnItem, mp: Mp, c: Chunk, t: Tables)
    requires Sound(t) && Stands(t, c.cn, c.sender, mp, c.counter) && item.key == c.cn && c.bytes != []
    requires c.plain != [] ==> Fits(mp, c.counter)
    ensures var r := MpStep(env, item, mp, c);
            var t' := ApplyAll(t, r.effects);
            Sound(t') && Stands(t', c.cn, c.sender, r.mp, c.counter + 1) && Undisturbed(t, t', c.cn, c.sender) &&
            (c.plain != [] ==> Fits(r.mp, c.counter + 1))
  {
    hide Sound, Undisturbed, Front, ApplyAll, KindFromTag, BeVal, Declared, Suspicious;
    var base := Base(mp, c.counter);
    var r := MpStep(env, item, mp, c);
    if mp.error || TooSmall(mp, c) {
      StoreOnly(t, c, base, r.mp);
    } else if c.counter < 3 {
      StoreBoth(t, c, r.effects[1].message, base, r.mp);
      assert r.effects == [PutChunk(c), PutMessage(r.effects[1].message)];
    } else {
      match LinkChunk(CurrentBuilder(mp, c), |c.plain|)
      case Full(b) =>
        StoreBoth(t, c, r.effects[1].message, base, r.mp);
        assert r.effects == [PutChunk(c), PutMessage(r.effects[1].message)];
      case _ => StoreOnly(t, c, base, r.mp);
    }
  }

  ghost predicate LineFits(l: Line) {
    l.mode.HaveKey? ==> Fits(l.mp, l.counter)
  }

  lemma OneChunkKeeps(env: Env, sender: Sender, l: Line, bytes: seq<byte>, t: Tables)
    requires |bytes| >= 2 && Sound(t) && LineFits(l) && Stands(t, l.item.key, sender, l.mp, l.counter)
    ensures var r := OneChunk(env, sender, l, bytes);
            var t' := ApplyAll(t, r.effects);
            Sound(t') && LineFits(r.line) && Stands(t', l.item.key, sender, r.line.mp, r.line.counter) &&
            Undisturbed(t, t', l.item.key, sender) && r.line.item.key == l.item.key
  {
    hide Sound, Front, ApplyAll, MpStep, Apply;
    if l.mode.HaveKey? && env.decrypt(l.mode.key.secret, l.mode.key.nonce, bytes[2..]).None? {
      var item := MarkCannotDecrypt(l.item, sender, l.counter);
      ApplyOne(t, PutConnection(item));
      PutConnectionKeeps(t, item);
      var n := l.counter + 1;
      StandsBase(l.mp, l.counter);
      FrontMoves(Apply(t, PutConnection(item)), l.item.key, sender, Base(l.mp, l.counter), l.counter, n, n);
    } else {
      var plain := if l.mode.HaveKey? then env.decrypt(l.mode.key.secret, l.mode.key.nonce, bytes[2..]).value else [];
      var c := Chunk(l.item.key, sender, l.counter, bytes, plain);
      StepKeepsKey(env, l.item, l.mp, c);
      ChunkKeeps(env, l.item, l.mp, c, t);
      if l.mode.HaveKey? && plain == [] {
        EmptyPlain(env, l.item, l.mp, c);
      }
    }
  }

  lemma StandsBase(mp: Mp, counter: nat)
    ensures Base(mp, counter) <= counter
    ensures Fits(mp, counter) ==> Base(mp, counter + 1) == counter + 1
  {
  }

  lemma EmptyPlain(env: Env, item: ConnItem, mp: Mp, c: Chunk)
    requires c.plain == []
    ensures MpStep(env, item, mp, c).mp.error
  {
  }

  lemma {:induction false} ManyKeep(env: Env, sender: Sender, l: Line, cs: seq<seq<byte>>, t: Tables)
    requires AllChunks(cs) && Sound(t) && LineFits(l) && Stands(t, l.item.key, sender, l.mp, l.counter)
    ensures var r := ManyChunks(env, sender, l, cs);
            var t' := ApplyAll(t, r.effects);
            Sound(t') && LineFits(r.line) && Stands(t', l.item.key, sender, r.line.mp, r.line.counter) &&
            Undisturbed(t, t', l.item.key, sender) && r.line.item.key == l.item.key
    decreases |cs|
  {
    hide Sound, Stands, LineFits, OneChunk, ApplyAll, Front;
    if cs == [] {
      NoEffects(t);
    } else {
      var first := OneChunk(env, sender, l, cs[0]);
      var t1 := ApplyAll(t, first.effects);
      OneChunkKeeps(env, sender, l, cs[0], t);
      ManyKeep(env, sender, first.line, cs[1..], t1);
      var rest := ManyChunks(env, sender, first.line, cs[1..]);
      ApplyAllAppend(t, first.effects, rest.effects);
      UndisturbedTrans(t, t1, ApplyAll(t1, rest.effects), l.item.key, sender);
    }
  }

  lemma NoEffects(t: Tables)
    ensures ApplyAll(t, []) == t
  {
  }

  // ---------------------------------------------------------------- connections

  ghost predicate HalfFits(h: Half) {
    h.mode.HaveKey? ==> Fits(h.mp, h.buf.counter)
  }

  lemma FeedKeeps(env: Env, item: ConnItem, sender: Sender, h: Half, payload: seq<byte>, t: Tables)
    requires payload != [] && Sound(t) && HalfFits(h) && Stands(t, item.key, sender, h.mp, h.buf.counter)
    ensures var r := Feed(env, item, sender, h, payload);
            var t' := ApplyAll(t, r.effects);
            Sound(t') && HalfFits(r.half) && Stands(t', item.key, sender, r.half.mp, r.half.buf.counter) &&
            Undisturbed(t, t', item.key, sender) && r.item.key == item.key
  {
    hide Sound, Stands, Undisturbed, ApplyAll, MpStep, ManyChunks;
    if Cuts(h) {
      hide Feed;
      FeedIsMany(env, item, sender, h, payload);
      ManyKeep(env, sender, Line(item, h.mode, h.buf.counter, h.mp), Chunks(h.buf.data + payload), t);
    } else {
      var c := WholeBuffer(item.key, sender, Append(h.buf, payload));
      ChunkKeeps(env, item, h.mp, c, t);
      StepKeepsKey(env, item, h.mp, c);
    }
  }

  /** Both directions of a connection are where the database says. */
  ghost predicate Live(t: Tables, c: Conn) {
    && (c.phase.Done? ==> HalfFits(LocalHalf(c)) && HalfFits(RemoteHalf(c)))
    && Stands(t, c.item.key, Local, c.lmp, c.lbuf.counter)
    && Stands(t, c.item.key, Remote, c.rmp, c.rbuf.counter)
  }

  /** Nothing changes for other connections. */
  ghost predicate OthersUndisturbed(t: Tables, t': Tables, cn: ConnKey) {
    forall cn', s, base, next :: cn' != cn && Front(t, cn', s, base, next) ==> Front(t', cn', s, base, next)
  }

  lemma OtherStands(t: Tables, t': Tables, cn: ConnKey, s: Sender, cn': ConnKey, s': Sender, mp: Mp, counter: nat)
    requires Undisturbed(t, t', cn, s) && (cn' != cn || s' != s) && Stands(t, cn', s', mp, counter)
    ensures Stands(t', cn', s', mp, counter)
  {
  }

  lemma OneSided(t: Tables, t': Tables, cn: ConnKey, s: Sender)
    requires Undisturbed(t, t', cn, s)
    ensures OthersUndisturbed(t, t', cn)
  {
  }

  lemma OthersTrans(a: Tables, b: Tables, c: Tables, cn: ConnKey)
    requires OthersUndisturbed(a, b, cn) && OthersUndisturbed(b, c, cn)
    ensures OthersUndisturbed(a, c, cn)
  {
  }

  lemma DoneKeeps(env: Env, c: Conn, payload: seq<byte>, incoming: bool, t: Tables)
    requires c.phase.Done? && payload != [] && Sound(t) && Live(t, c)
    ensures var (c', effects) := DoneStep(env, c, payload, incoming);
            var t' := ApplyAll(t, effects);
            Sound(t') && Live(t', c') && OthersUndisturbed(t, t', c.item.key) && c'.item.key == c.item.key
  {
    hide Sound, Stands, Undisturbed, ApplyAll, Feed, OthersUndisturbed, HalfFits;
    var cn := c.item.key;
    if !incoming {
      var t' := ApplyAll(t, Feed(env, c.item, Local, LocalHalf(c), payload).effects);
      FeedKeeps(env, c.item, Local, LocalHalf(c), payload, t);
      OtherStands(t, t', cn, Local, cn, Remote, c.rmp, c.rbuf.counter);
      OneSided(t, t', cn, Local);
    } else {
      var t' := ApplyAll(t, Feed(env, c.item, Remote, RemoteHalf(c), payload).effects);
      FeedKeeps(env, c.item, Remote, RemoteHalf(c), payload, t);
      OtherStands(t, t', cn, Remote, cn, Local, c.lmp, c.lbuf.counter);
      OneSided(t, t', cn, Remote);
    }
  }

  /** A first chunk that may or may not be there. */
  ghost predicate FirstOk(o: Opened, cn: ConnKey, sender: Sender) {
    match o.chunk
    case None => o.buf.counter == 0
    case Some(c) => c.cn == cn && c.sender == sender && c.counter == 0 && c.bytes != [] && o.buf.counter == 1
  }

  lemma FirstKeeps(env: Env, item: ConnItem, o: Opened, sender: Sender, t: Tables)
    requires FirstOk(o, item.key, sender) && Sound(t) && Stands(t, item.key, sender, FRESH, 0)
    ensures var r := FirstChunkOf(env, item, o.chunk);
            var t' := ApplyAll(t, r.effects);
            Sound(t') && Stands(t', item.key, sender, r.mp, o.buf.counter) && Undisturbed(t, t', item.key, sender) &&
            HalfFits(Half(o.mode, o.buf, r.mp)) && r.item.key == item.key
  {
    hide Sound, Stands, ApplyAll, MpStep, Front;
    match o.chunk
    case None => NoEffects(t);
    case Some(c) =>
      ChunkKeeps(env, item, FRESH, c, t);
      StepKeepsKey(env, item, FRESH, c);
      if c.plain == [] {
        EmptyPlain(env, item, FRESH, c);
      }
  }

  lemma CompleteKeeps(env: Env, h: Handed, t: Tables)
    requires Sound(t) && FirstOk(h.local, h.item.key, Local) && FirstOk(h.remote, h.item.key, Remote)
    requires Stands(t, h.item.key, Local, FRESH, 0) && Stands(t, h.item.key, Remote, FRESH, 0)
    ensures var (c, effects) := Complete(env, h);
            var t' := ApplyAll(t, effects);
            Sound(t') && Live(t', c) && OthersUndisturbed(t, t', h.item.key) && c.item.key == h.item.key
  {
    hide Sound, ApplyAll, FirstOk, FirstChunkOf, HalfFits, Apply, Undisturbed, OthersUndisturbed, Base;
    var cn := h.item.key;
    var t1 := Apply(t, PutConnection(h.item));
    var l := FirstChunkOf(env, h.item, h.local.chunk);
    ConnectionFirst(t, h.item);
    FirstKeeps(env, h.item, h.local, Local, t1);
    var t2 := ApplyAll(t1, l.effects);
    hide Stands;
    OtherStands(t1, t2, cn, Local, cn, Remote, FRESH, 0);
    OneSided(t1, t2, cn, Local);
    var r := FirstChunkOf(env, l.item, h.remote.chunk);
    FirstKeeps(env, l.item, h.remote, Remote, t2);
    var t3 := ApplyAll(t2, r.effects);
    OtherStands(t2, t3, cn, Remote, cn, Local, l.mp, h.local.buf.counter);
    OneSided(t2, t3, cn, Remote);
    OthersTrans(t, t1, t2, cn);
    OthersTrans(t, t2, t3, cn);
    ApplyAllAppend(t, [PutConnection(h.item)], l.effects);
    ApplyAllAppend(t, [PutConnection(h.item)] + l.effects, r.effects);
  }

  lemma ConnectionFirst(t: Tables, item: ConnItem)
    requires Sound(t) && Stands(t, item.key, Local, FRESH, 0) && Stands(t, item.key, Remote, FRESH, 0)
    ensures var t' := Apply(t, PutConnection(item));
            ApplyAll(t, [PutConnection(item)]) == t' && Sound(t') && OthersUndisturbed(t, t', item.key) &&
            Stands(t', item.key, Local, FRESH, 0) && Stands(t', item.key, Remote, FRESH, 0)
  {
    hide Apply, Sound;
    ApplyOne(t, PutConnection(item));
    PutConnectionKeeps(t, item);
  }

  /** One payload of one connection: every stored message stays whole. */
  lemma StepKeeps(env: Env, c: Conn, payload: seq<byte>, incoming: bool, t: Tables)
    requires Inv(c) && payload != [] && Sound(t) && Live(t, c)
    ensures var (c', effects) := Step(env, c, payload, incoming);
            var t' := ApplyAll(t, effects);
            Sound(t') && Live(t', c') && OthersUndisturbed(t, t', c.item.key) && c'.item.key == c.item.key
  {
    if c.phase.Done? {
      hide Sound, Live, ApplyAll, DoneStep, OthersUndisturbed;
      DoneKeeps(env, c, payload, incoming, t);
    } else {
      HandshakeKeeps(env, c, payload, incoming, t);
    }
  }

  lemma HandshakeKeeps(env: Env, c: Conn, payload: seq<byte>, incoming: bool, t: Tables)
    requires Inv(c) && c.phase.Handshake? && payload != [] && Sound(t) && Live(t, c)
    ensures var (c', effects) := HandshakeStep(env, c, payload, incoming);
            var t' := ApplyAll(t, effects);
            Sound(t') && Live(t', c') && OthersUndisturbed(t, t', c.item.key) && c'.item.key == c.item.key
  {
    hide Sound, Stands, ApplyAll, Complete, MakeKey, GiveUp, HasChunk;
    NoEffects(t);
    var lbuf := if incoming then c.lbuf else Append(c.lbuf, payload);
    var rbuf := if incoming then Append(c.rbuf, payload) else c.rbuf;
    GiveUpFirst(c.item, c.lbuf, c.rbuf);
    CompleteKeeps(env, GiveUp(c.item, c.lbuf, c.rbuf), t);
    if HasChunk(lbuf.data) && HasChunk(rbuf.data) {
      MakeKeyFirst(env, c.item, lbuf, rbuf);
      CompleteKeeps(env, MakeKey(env, c.item, lbuf, rbuf), t);
    }
  }

  lemma GiveUpFirst(item: ConnItem, l: Buf, r: Buf)
    requires l.counter == 0 && r.counter == 0
    ensures var h := GiveUp(item, l, r);
            FirstOk(h.local, item.key, Local) && FirstOk(h.remote, item.key, Remote) && h.item.key == item.key
  {
  }

  lemma MakeKeyFirst(env: Env, item: ConnItem, l: Buf, r: Buf)
    requires l.counter == 0 && r.counter == 0 && HasChunk(l.data) && HasChunk(r.data)
    ensures var h := MakeKey(env, item, l, r);
            FirstOk(h.local, item.key, Local) && FirstOk(h.remote, item.key, Remote) && h.item.key == item.key
  {
  }
}
