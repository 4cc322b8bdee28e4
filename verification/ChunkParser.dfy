/** From captured bytes to numbered chunks: the handshake of the two
    directions, key derivation and decryption with a counting nonce. */
module ChunkParser {
  import opened Wrappers
  import opened Bytes
  import opened Common
  import opened StreamBuffer
  import opened Store
  import opened MessageParsing

  datatype Key = Key(secret: Secret, nonce: nat)

  /** A direction once the handshake is over. */
  datatype Mode = Uncertain | HaveKey(key: Key) | HaveNotKey | CannotDecrypt

  /** A direction during the handshake. */
  datatype HalfTag = Initial | HaveCm

  datatype Drained = Drained(key: Key, buf: Buf, error: Option<nat>, chunks: seq<Chunk>)

  /** Decrypt the complete chunks of the buffer until one fails. A failing
      chunk is taken out of the buffer but not produced. */
  function Drain(env: Env, cn: ConnKey, sender: Sender, key: Key, buf: Buf): Drained
    decreases |buf.data|
  {
    if !HasChunk(buf.data) then Drained(key, buf, None, [])
    else
      var bytes := FirstChunk(buf.data);
      var buf' := Buf(buf.counter + 1, AfterFirst(buf.data));
      match env.decrypt(key.secret, key.nonce, bytes[2..])
      case None => Drained(key, buf', Some(buf.counter), [])
      case Some(plain) =>
        var d := Drain(env, cn, sender, key.(nonce := key.nonce + 1), buf');
        d.(chunks := [Chunk(cn, sender, buf.counter, bytes, plain)] + d.chunks)
  }

  /** The complete chunks of the buffer, not decrypted. */
  function DrainRaw(cn: ConnKey, sender: Sender, buf: Buf): (Buf, seq<Chunk>)
    decreases |buf.data|
  {
    if !HasChunk(buf.data) then (buf, [])
    else
      var c := Chunk(cn, sender, buf.counter, FirstChunk(buf.data), []);
      var (b, cs) := DrainRaw(cn, sender, Buf(buf.counter + 1, AfterFirst(buf.data)));
      (b, [c] + cs)
  }

  function MarkCannotDecrypt(item: ConnItem, sender: Sender, position: nat): ConnItem {
    if sender.Remote? then item.(comments := item.comments.(incomingCannotDecrypt := Some(position)))
    else item.(comments := item.comments.(outgoingCannotDecrypt := Some(position)))
  }

  function MarkUncertain(item: ConnItem): ConnItem {
    item.(comments := item.comments.(incomingUncertain := true, outgoingUncertain := true))
  }

  /** A direction after the handshake, with its buffer and message parser. */
  datatype Half = Half(mode: Mode, buf: Buf, mp: Mp)

  datatype DoneResult = DoneResult(item: ConnItem, half: Half, effects: seq<Effect>)

  /** Everything buffered is one chunk, undecrypted. */
  function WholeBuffer(cn: ConnKey, sender: Sender, buf: Buf): Chunk {
    Chunk(cn, sender, buf.counter, buf.data, [])
  }

  function FeedKeyed(env: Env, item: ConnItem, sender: Sender, key: Key, buf: Buf, mp: Mp): DoneResult {
    var d := Drain(env, item.key, sender, key, buf);
    var r := MpRun(env, item, mp, d.chunks);
    match d.error
    case None => DoneResult(r.item, Half(HaveKey(d.key), d.buf, r.mp), r.effects)
    case Some(position) =>
      var item' := MarkCannotDecrypt(r.item, sender, position);
      var raw := FeedRaw(env, item', sender, d.buf, r.mp);
      raw.(effects := r.effects + [PutConnection(item')] + raw.effects)
  }

  function FeedRaw(env: Env, item: ConnItem, sender: Sender, buf: Buf, mp: Mp): DoneResult {
    var (b, cs) := DrainRaw(item.key, sender, buf);
    var r := MpRun(env, item, mp, cs);
    DoneResult(r.item, Half(CannotDecrypt, b, r.mp), r.effects)
  }

  /** One payload of a direction after the handshake. */
  function Feed(env: Env, item: ConnItem, sender: Sender, h: Half, payload: seq<byte>): DoneResult {
    var buf := Append(h.buf, payload);
    match h.mode
    case HaveKey(key) => FeedKeyed(env, item, sender, key, buf, h.mp)
    case CannotDecrypt => FeedRaw(env, item, sender, buf, h.mp)
    case _ =>
      var r := MpStep(env, item, h.mp, WholeBuffer(item.key, sender, buf));
      DoneResult(r.item, Half(h.mode, Buf(buf.counter + 1, []), r.mp), r.effects)
  }

  // ---------------------------------------------------------------- keys

  /** The two directions' keys, when both connection messages are long enough
      to hold a public key and the local one is the node's own. */
  function MakeKeys(env: Env, local: seq<byte>, remote: seq<byte>, initiator: Initiator): Option<(Key, Key)> {
    if |local| < 36 || |remote| < 36 || env.publicKey != local[4..36] then None
    else
      var (l, r) := env.nonces(local, remote, initiator.InitiatorRemote?);
      var secret := env.precompute(remote[4..36], env.secretKey);
      Some((Key(secret, l), Key(secret, r)))
  }

  datatype Check = Fine(pk: seq<byte>) | TooShort(size: nat) | PowInvalid

  function CheckConnectionMessage(env: Env, bytes: seq<byte>): Check {
    if |bytes| <= 88 then TooShort(|bytes|)
    else if !env.powOk(bytes[4..60]) then PowInvalid
    else Fine(bytes[4..36])
  }

  function RemarkLocal(env: Env, item: ConnItem, bytes: seq<byte>): ConnItem {
    match CheckConnectionMessage(env, bytes)
    case Fine(_) => item
    case TooShort(size) => item.(comments := item.comments.(outgoingTooShort := Some(size)))
    case PowInvalid => item.(comments := item.comments.(outgoingWrongPow := true))
  }

  function RemarkRemote(env: Env, item: ConnItem, bytes: seq<byte>): ConnItem {
    match CheckConnectionMessage(env, bytes)
    case Fine(pk) => item.(peerPk := pk)
    case TooShort(size) => item.(comments := item.comments.(incomingTooShort := Some(size)))
    case PowInvalid => item.(comments := item.comments.(incomingWrongPow := true))
  }

  /** What the handshake leaves of one direction: its mode, its buffer and
      possibly a first chunk. */
  datatype Opened = Opened(mode: Mode, buf: Buf, chunk: Option<Chunk>)

  /** The connection message becomes chunk 0; what follows stays buffered. */
  function WithKey(item: ConnItem, sender: Sender, buf: Buf, key: Key): Opened
    requires HasChunk(buf.data)
  {
    var bytes := FirstChunk(buf.data);
    Opened(HaveKey(key), Buf(buf.counter + 1, AfterFirst(buf.data)),
           Some(Chunk(item.key, sender, buf.counter, bytes, bytes[2..])))
  }

  /** Without a key the whole buffer is flushed as one chunk. */
  function Flushed(item: ConnItem, sender: Sender, buf: Buf, mode: Mode): Opened {
    if buf.data == [] then Opened(mode, buf, None)
    else Opened(mode, Buf(buf.counter + 1, []), Some(WholeBuffer(item.key, sender, buf)))
  }

  datatype Handed = Handed(item: ConnItem, local: Opened, remote: Opened)

  function MakeKey(env: Env, item: ConnItem, lbuf: Buf, rbuf: Buf): Handed
    requires HasChunk(lbuf.data) && HasChunk(rbuf.data)
  {
    var l, r := FirstChunk(lbuf.data), FirstChunk(rbuf.data);
    match MakeKeys(env, l, r, item.initiator)
    case Some((lkey, rkey)) =>
      Handed(RemarkRemote(env, RemarkLocal(env, item, l), r),
             WithKey(item, Local, lbuf, lkey), WithKey(item, Remote, rbuf, rkey))
    case None =>
      Handed(item.(comments := item.comments.(outgoingWrongPk := true)),
             Flushed(item, Local, lbuf, HaveNotKey), Flushed(item, Remote, rbuf, HaveNotKey))
  }

  function GiveUp(item: ConnItem, lbuf: Buf, rbuf: Buf): Handed {
    Handed(MarkUncertain(item), Flushed(item, Local, lbuf, Uncertain), Flushed(item, Remote, rbuf, Uncertain))
  }

  // ---------------------------------------------------------------- imperative form

  /** `Iterator::next` of the decrypting state. */
  method NextDecrypted(env: Env, cn: ConnKey, sender: Sender, buffer: Buffer, key: Key)
    returns (chunk: Option<Chunk>, key': Key, error: Option<nat>)
    modifies buffer
    ensures !HasChunk(old(buffer.State()).data) ==>
              chunk.None? && error.None? && key' == key && buffer.State() == old(buffer.State())
    ensures HasChunk(old(buffer.State()).data) ==>
              var b := old(buffer.State());
              var bytes := FirstChunk(b.data);
              buffer.State() == Buf(b.counter + 1, AfterFirst(b.data)) &&
              match env.decrypt(key.secret, key.nonce, bytes[2..])
              case None => chunk.None? && error == Some(b.counter) && key' == key
              case Some(plain) =>
                chunk == Some(Chunk(cn, sender, b.counter, bytes, plain)) && error.None? &&
                key' == key.(nonce := key.nonce + 1)
  {
    chunk, key', error := None, key, None;
    var next := buffer.Next();
    if next.Some? {
      var (counter, bytes) := next.value;
      match env.decrypt(key.secret, key.nonce, bytes[2..])
      case None => error := Some(counter);
      case Some(plain) =>
        key' := key.(nonce := key.nonce + 1);
        chunk := Some(Chunk(cn, sender, counter, bytes, plain));
    }
  }

  lemma StepKeepsKey(env: Env, item: ConnItem, mp: Mp, c: Chunk)
    ensures MpStep(env, item, mp, c).item.key == item.key
  {
  }

  lemma MpRunHead(env: Env, item: ConnItem, mp: Mp, c: Chunk, cs: seq<Chunk>)
    ensures var s := MpStep(env, item, mp, c);
            var r := MpRun(env, s.item, s.mp, cs);
            MpRun(env, item, mp, [c] + cs) == r.(effects := s.effects + r.effects)
  {
    MpRunOne(env, item, mp, c);
    MpRunAppend(env, item, mp, [c], cs);
  }

  /** Taking one raw chunk off the buffer first changes nothing. */
  lemma FeedRawStep(env: Env, item: ConnItem, sender: Sender, buf: Buf, mp: Mp)
    requires HasChunk(buf.data)
    ensures var c := Chunk(item.key, sender, buf.counter, FirstChunk(buf.data), []);
            var s := MpStep(env, item, mp, c);
            var r := FeedRaw(env, s.item, sender, Buf(buf.counter + 1, AfterFirst(buf.data)), s.mp);
            FeedRaw(env, item, sender, buf, mp) == r.(effects := s.effects + r.effects)
  {
    var c := Chunk(item.key, sender, buf.counter, FirstChunk(buf.data), []);
    var cs := DrainRaw(item.key, sender, Buf(buf.counter + 1, AfterFirst(buf.data))).1;
    StepKeepsKey(env, item, mp, c);
    MpRunHead(env, item, mp, c, cs);
  }

  /** Decrypting one chunk first changes nothing. */
  lemma FeedKeyedStep(env: Env, item: ConnItem, sender: Sender, key: Key, buf: Buf, mp: Mp)
    requires HasChunk(buf.data)
    requires env.decrypt(key.secret, key.nonce, FirstChunk(buf.data)[2..]).Some?
    ensures var bytes := FirstChunk(buf.data);
            var plain := env.decrypt(key.secret, key.nonce, bytes[2..]).value;
            var s := MpStep(env, item, mp, Chunk(item.key, sender, buf.counter, bytes, plain));
            var r := FeedKeyed(env, s.item, sender, key.(nonce := key.nonce + 1),
                               Buf(buf.counter + 1, AfterFirst(buf.data)), s.mp);
            FeedKeyed(env, item, sender, key, buf, mp) == r.(effects := s.effects + r.effects)
  {
    DrainStep(env, item.key, sender, key, buf);
    hide MpStep, MpRun, FeedRaw, MarkCannotDecrypt, HasChunk, FirstChunk, AfterFirst, Drain, StreamBuffer.ChunkLen;
    var bytes := FirstChunk(buf.data);
    var plain := env.decrypt(key.secret, key.nonce, bytes[2..]).value;
    var c := Chunk(item.key, sender, buf.counter, bytes, plain);
    var d := Drain(env, item.key, sender, key.(nonce := key.nonce + 1), Buf(buf.counter + 1, AfterFirst(buf.data)));
    var s := MpStep(env, item, mp, c);
    StepKeepsKey(env, item, mp, c);
    MpRunHead(env, item, mp, c, d.chunks);
    if d.error.Some? {
      var r := MpRun(env, s.item, s.mp, d.chunks);
      var item' := MarkCannotDecrypt(r.item, sender, d.error.value);
      var raw := FeedRaw(env, item', sender, d.buf, r.mp);
      assert (s.effects + r.effects) + [PutConnection(item')] + raw.effects ==
             s.effects + (r.effects + [PutConnection(item')] + raw.effects);
    }
  }

  lemma DrainStep(env: Env, cn: ConnKey, sender: Sender, key: Key, buf: Buf)
    requires HasChunk(buf.data)
    requires env.decrypt(key.secret, key.nonce, FirstChunk(buf.data)[2..]).Some?
    ensures var bytes := FirstChunk(buf.data);
            var plain := env.decrypt(key.secret, key.nonce, bytes[2..]).value;
            var d := Drain(env, cn, sender, key.(nonce := key.nonce + 1), Buf(buf.counter + 1, AfterFirst(buf.data)));
            Drain(env, cn, sender, key, buf) ==
            d.(chunks := [Chunk(cn, sender, buf.counter, bytes, plain)] + d.chunks)
  {
  }

  lemma FailsAtOnce(env: Env, item: ConnItem, sender: Sender, key: Key, buf: Buf, mp: Mp)
    requires HasChunk(buf.data) && env.decrypt(key.secret, key.nonce, FirstChunk(buf.data)[2..]).None?
    ensures var item' := MarkCannotDecrypt(item, sender, buf.counter);
            var raw := FeedRaw(env, item', sender, Buf(buf.counter + 1, AfterFirst(buf.data)), mp);
            FeedKeyed(env, item, sender, key, buf, mp) == raw.(effects := [PutConnection(item')] + raw.effects)
  {
    var item' := MarkCannotDecrypt(item, sender, buf.counter);
    assert [] + [PutConnection(item')] == [PutConnection(item')];
  }

  lemma NothingKeyed(env: Env, item: ConnItem, sender: Sender, key: Key, buf: Buf, mp: Mp)
    requires !HasChunk(buf.data)
    ensures FeedKeyed(env, item, sender, key, buf, mp) == DoneResult(item, Half(HaveKey(key), buf, mp), [])
  {
  }

  /** What a payload comes to: connection record, direction and database. */
  ghost function Outcome(r: DoneResult, t: Tables): (ConnItem, Half, Tables) {
    (r.item, r.half, ApplyAll(t, r.effects))
  }

  lemma OutcomeStep(r: DoneResult, first: seq<Effect>, t: Tables)
    ensures Outcome(r.(effects := first + r.effects), t) == Outcome(r, ApplyAll(t, first))
  {
    ApplyAllAppend(t, first, r.effects);
  }

  /** Hand over the next undecrypted chunk, if there is one. */
  method HandleNextRaw(env: Env, item: ConnItem, sender: Sender, buffer: Buffer, handler: MessageParser)
    returns (item': ConnItem, more: bool)
    requires buffer as object != handler && buffer as object != handler.db
    modifies buffer, handler, handler.db
    ensures Outcome(FeedRaw(env, item', sender, buffer.State(), handler.State()), handler.db.State()) ==
            Outcome(FeedRaw(env, item, sender, old(buffer.State()), old(handler.State())), old(handler.db.State()))
    ensures more ==> |buffer.buffer| < |old(buffer.buffer)|
    ensures !more ==> !HasChunk(buffer.buffer)
  {
    item', more := item, false;
    ghost var buf, mp, t := buffer.State(), handler.State(), handler.db.State();
    var next := buffer.Next();
    if next.Some? {
      var (counter, bytes) := next.value;
      var chunk := Chunk(item.key, sender, counter, bytes, []);
      FeedRawStep(env, item, sender, buf, mp);
      ghost var s := MpStep(env, item, mp, chunk);
      OutcomeStep(FeedRaw(env, s.item, sender, buffer.State(), s.mp), s.effects, t);
      item' := handler.HandleChunk(env, chunk, item);
      more := true;
    }
  }

  /** The chunks still undecrypted are handed over one by one. */
  method HandleRaw(env: Env, item: ConnItem, sender: Sender, buffer: Buffer, handler: MessageParser)
    returns (item': ConnItem)
    requires buffer as object != handler && buffer as object != handler.db
    modifies buffer, handler, handler.db
    ensures (item', Half(CannotDecrypt, buffer.State(), handler.State()), handler.db.State()) ==
            Outcome(FeedRaw(env, item, sender, old(buffer.State()), old(handler.State())), old(handler.db.State()))
  {
    item' := item;
    ghost var total := Outcome(FeedRaw(env, item, sender, buffer.State(), handler.State()), handler.db.State());
    var more := true;
    while more
      invariant Outcome(FeedRaw(env, item', sender, buffer.State(), handler.State()), handler.db.State()) == total
      invariant !more ==> !HasChunk(buffer.buffer)
      decreases more, |buffer.buffer|
    {
      item', more := HandleNextRaw(env, item', sender, buffer, handler);
    }
  }

  /** A chunk did not decrypt: note where, and hand over the rest as it is. */
  method HandleFailure(env: Env, item: ConnItem, sender: Sender, position: nat, buffer: Buffer,
                       handler: MessageParser)
    returns (item': ConnItem)
    requires buffer as object != handler && buffer as object != handler.db
    modifies buffer, handler, handler.db
    ensures var marked := MarkCannotDecrypt(item, sender, position);
            var raw := FeedRaw(env, marked, sender, old(buffer.State()), old(handler.State()));
            (item', Half(CannotDecrypt, buffer.State(), handler.State()), handler.db.State()) ==
            Outcome(raw.(effects := [] + [PutConnection(marked)] + raw.effects), old(handler.db.State()))
  {
    item' := MarkCannotDecrypt(item, sender, position);
    ghost var t := handler.db.State();
    ghost var raw := FeedRaw(env, item', sender, buffer.State(), handler.State());
    ApplyOne(t, PutConnection(item'));
    assert [] + [PutConnection(item')] + raw.effects == [PutConnection(item')] + raw.effects;
    OutcomeStep(raw, [PutConnection(item')], t);
    handler.db.UpdateConnection(item');
    item' := HandleRaw(env, item', sender, buffer, handler);
  }

  /** Hand over the next chunk if it decrypts. */
  method HandleNextDecrypted(env: Env, item: ConnItem, sender: Sender, key: Key, buffer: Buffer,
                             handler: MessageParser)
    returns (item': ConnItem, key': Key, error: Option<nat>, more: bool)
    requires buffer as object != handler && buffer as object != handler.db
    modifies buffer, handler, handler.db
    ensures var total := Outcome(FeedKeyed(env, item, sender, key, old(buffer.State()), old(handler.State())),
                                 old(handler.db.State()));
            if error.None? then
              Outcome(FeedKeyed(env, item', sender, key', buffer.State(), handler.State()),
                      handler.db.State()) == total
            else
              var marked := MarkCannotDecrypt(item', sender, error.value);
              var raw := FeedRaw(env, marked, sender, buffer.State(), handler.State());
              Outcome(raw.(effects := [] + [PutConnection(marked)] + raw.effects), handler.db.State()) == total
    ensures more ==> error.None? && |buffer.buffer| < |old(buffer.buffer)|
    ensures !more && error.None? ==> !HasChunk(buffer.buffer)
  {
    hide FeedKeyed, FeedRaw, MpStep, MarkCannotDecrypt, ApplyAll;
    item', more := item, false;
    ghost var buf, mp, t := buffer.State(), handler.State(), handler.db.State();
    var chunk;
    chunk, key', error := NextDecrypted(env, item.key, sender, buffer, key);
    if chunk.Some? {
      FeedKeyedStep(env, item, sender, key, buf, mp);
      ghost var s := MpStep(env, item, mp, chunk.value);
      OutcomeStep(FeedKeyed(env, s.item, sender, key', buffer.State(), s.mp), s.effects, t);
      item' := handler.HandleChunk(env, chunk.value, item);
      more := true;
    } else if error.Some? {
      FailsAtOnce(env, item, sender, key, buf, mp);
      ghost var marked := MarkCannotDecrypt(item, sender, error.value);
      assert [] + [PutConnection(marked)] == [PutConnection(marked)];
    }
  }

  /** `HandshakeDone::handle_data` for a direction with its key. */
  method HandleKeyed(env: Env, item: ConnItem, sender: Sender, key: Key, buffer: Buffer, handler: MessageParser)
    returns (item': ConnItem, mode: Mode)
    requires buffer as object != handler && buffer as object != handler.db
    modifies buffer, handler, handler.db
    ensures (item', Half(mode, buffer.State(), handler.State()), handler.db.State()) ==
            Outcome(FeedKeyed(env, item, sender, key, old(buffer.State()), old(handler.State())),
                    old(handler.db.State()))
  {
    item' := item;
    var key', error, more := key, None, true;
    ghost var total :=
      Outcome(FeedKeyed(env, item, sender, key, buffer.State(), handler.State()), handler.db.State());
    while more
      invariant error.None? ==>
                  Outcome(FeedKeyed(env, item', sender, key', buffer.State(), handler.State()),
                          handler.db.State()) == total
      invariant error.Some? ==>
                  !more &&
                  var marked := MarkCannotDecrypt(item', sender, error.value);
                  var raw := FeedRaw(env, marked, sender, buffer.State(), handler.State());
                  Outcome(raw.(effects := [] + [PutConnection(marked)] + raw.effects), handler.db.State()) == total
      invariant !more && error.None? ==> !HasChunk(buffer.buffer)
      decreases more, |buffer.buffer|
    {
      item', key', error, more := HandleNextDecrypted(env, item', sender, key', buffer, handler);
    }
    if error.None? {
      mode := HaveKey(key');
    } else {
      item' := HandleFailure(env, item', sender, error.value, buffer, handler);
      mode := CannotDecrypt;
    }
  }

  /** `HandshakeDone::handle_data`. */
  method HandleDone(env: Env, item: ConnItem, sender: Sender, mode: Mode, buffer: Buffer,
                    handler: MessageParser, payload: seq<byte>)
    returns (item': ConnItem, mode': Mode)
    requires payload != []
    requires buffer as object != handler && buffer as object != handler.db
    modifies buffer, handler, handler.db
    ensures var r := Feed(env, item, sender, Half(mode, old(buffer.State()), old(handler.State())), payload);
            item' == r.item && Half(mode', buffer.State(), handler.State()) == r.half &&
            handler.db.State() == ApplyAll(old(handler.db.State()), r.effects)
  {
    buffer.HandleData(payload);
    match mode
    case HaveKey(key) => item', mode' := HandleKeyed(env, item, sender, key, buffer, handler);
    case CannotDecrypt =>
      item' := HandleRaw(env, item, sender, buffer, handler);
      mode' := CannotDecrypt;
    case _ =>
      var whole := buffer.Cleanup();
      // the payload is not empty, so there is something to clean up
      var (counter, bytes) := whole.value;
      item' := handler.HandleChunk(env, Chunk(item.key, sender, counter, bytes, []), item);
      mode' := mode;
  }
}
