/** The record of a connection: when it is stored, and what it says, in terms of
    the captured bytes. */
module ConnectionRecords {
  import opened Wrappers
  import opened Bytes
  import opened Common
  import opened StreamBuffer
  import opened MessageParsing
  import opened ChunkParser
  import opened Segmentation
  import opened Directions
  import opened Connections
  import opened ConnectionRuns
  import opened RunLaws

  /** The record as it was stored last. */
  function RecordIn(es: seq<Effect>): Option<ConnItem> {
    if es == [] then None
    else
      match es[|es| - 1]
      case PutConnection(item) => Some(item)
      case _ => RecordIn(es[..|es| - 1])
  }

  lemma {:induction false} RecordAppend(a: seq<Effect>, b: seq<Effect>)
    ensures RecordIn(a + b) == if RecordIn(b).Some? then RecordIn(b) else RecordIn(a)
    decreases |b|
  {
    if b == [] {
      assert a + b == a;
    } else {
      RecordAppend(a, b[..|b| - 1]);
      assert (a + b)[..|a + b| - 1] == a + b[..|b| - 1];
    }
  }

  predicate StoresRowsOnly(es: seq<Effect>) {
    forall e :: e in es ==> !e.PutConnection?
  }

  lemma {:induction false} NoRecordIn(es: seq<Effect>)
    requires StoresRowsOnly(es)
    ensures RecordIn(es) == None
  {
    if es != [] {
      assert es[|es| - 1] in es;
      NoRecordIn(es[..|es| - 1]);
    }
  }

  // ---------------------------------------------------------------- remarks of the message parser

  /** Read as it was captured, a chunk could be the beginning of a peer message of
      less than 16 MiB. */
  ghost predicate LooksNew(bytes: seq<byte>) {
    |bytes| >= 6 && BeVal(bytes[..4]) < 0x100_0000 && exists kind :: TagOf(kind) == Some(BeVal(bytes[4..6]))
  }

  /** Everything but the remark on suspicious chunks. */
  function Sober(item: ConnItem): ConnItem {
    item.(comments := item.comments.(incomingSuspicious := None))
  }

  ghost predicate Suspected(n: nat, es: seq<Effect>) {
    exists c :: PutChunk(c) in es && c.counter == n >= 3 && LooksNew(c.bytes)
  }

  /** From `a` to `b` at most the remark on a suspicious chunk of `es` is new. */
  ghost predicate OnlySuspects(a: ConnItem, b: ConnItem, es: seq<Effect>) {
    && Sober(a) == Sober(b)
    && (b.comments.incomingSuspicious == a.comments.incomingSuspicious ||
        (b.comments.incomingSuspicious.Some? && Suspected(b.comments.incomingSuspicious.value, es)))
  }

  lemma SuspectsMore(n: nat, a: seq<Effect>, b: seq<Effect>)
    requires Suspected(n, a) || Suspected(n, b)
    ensures Suspected(n, a + b)
  {
    var c :| (PutChunk(c) in a || PutChunk(c) in b) && c.counter == n >= 3 && LooksNew(c.bytes);
    assert PutChunk(c) in a + b;
  }

  lemma SuspectsThen(x: ConnItem, y: ConnItem, z: ConnItem, a: seq<Effect>, b: seq<Effect>)
    requires OnlySuspects(x, y, a) && OnlySuspects(y, z, b)
    ensures OnlySuspects(x, z, a + b)
  {
    hide Suspected;
    if z.comments.incomingSuspicious.Some? {
      var n := z.comments.incomingSuspicious.value;
      if Suspected(n, a) || Suspected(n, b) {
        SuspectsMore(n, a, b);
      }
    }
  }

  lemma StepSuspects(env: Env, item: ConnItem, mp: Mp, c: Chunk)
    ensures var r := MpStep(env, item, mp, c); OnlySuspects(item, r.item, r.effects) && StoresRowsOnly(r.effects)
  {
    hide BeVal;
    var r := MpStep(env, item, mp, c);
    if !mp.error && !TooSmall(mp, c) && c.counter >= 3 && Suspicious(mp, c) {
      KindsAndTags(KindFromTag(BeVal(c.bytes[4..6])), BeVal(c.bytes[4..6]));
      assert PutChunk(c) in r.effects;
    }
  }

  lemma {:induction false} RunSuspects(env: Env, item: ConnItem, mp: Mp, cs: seq<Chunk>)
    ensures var r := MpRun(env, item, mp, cs); OnlySuspects(item, r.item, r.effects) && StoresRowsOnly(r.effects)
    decreases |cs|
  {
    hide MpStep, OnlySuspects;
    if cs == [] {
      SuspectsNothing(item);
    } else {
      var n := |cs| - 1;
      RunSuspects(env, item, mp, cs[..n]);
      var r := MpRun(env, item, mp, cs[..n]);
      StepSuspects(env, r.item, r.mp, cs[n]);
      SuspectsThen(item, r.item, MpStep(env, r.item, r.mp, cs[n]).item, r.effects, MpStep(env, r.item, r.mp, cs[n]).effects);
    }
  }

  lemma SuspectsNothing(item: ConnItem)
    ensures OnlySuspects(item, item, [])
  {
  }

  // ---------------------------------------------------------------- one payload

  /** What the handshake settled: neither suspicions nor failures to decrypt. */
  function Settled(item: ConnItem): ConnItem {
    item.(comments := item.comments.(incomingSuspicious := None, incomingCannotDecrypt := None,
                                     outgoingCannotDecrypt := None))
  }

  /** `now` is what is known, `row` what is stored: they differ at most in a
      suspicion. */
  ghost predicate Kept(now: ConnItem, row: ConnItem, es: seq<Effect>) {
    && Sober(now) == Sober(row)
    && (row.comments.incomingSuspicious.Some? ==> Suspected(row.comments.incomingSuspicious.value, es))
    && (now.comments.incomingSuspicious.Some? ==> Suspected(now.comments.incomingSuspicious.value, es))
  }

  /** A payload after the handshake keeps what is stored up to date. */
  lemma FeedKept(env: Env, item: ConnItem, row: ConnItem, es: seq<Effect>, sender: Sender, h: Half, payload: seq<byte>)
    requires Kept(item, row, es)
    ensures var f := Feed(env, item, sender, h, payload);
            && Settled(f.item) == Settled(item)
            && Kept(f.item, if RecordIn(f.effects).Some? then RecordIn(f.effects).value else row, es + f.effects)
  {
    hide MpStep, MpRun, Drain, DrainRaw, RecordIn, Suspected, OnlySuspects;
    var buf := Append(h.buf, payload);
    match h.mode
    case HaveKey(key) =>
      var d := Drain(env, item.key, sender, key, buf);
      var r := MpRun(env, item, h.mp, d.chunks);
      RunSuspects(env, item, h.mp, d.chunks);
      NoRecordIn(r.effects);
      KeptOn(item, row, es, r.item, r.effects);
      if d.error.Some? {
        var marked := MarkCannotDecrypt(r.item, sender, d.error.value);
        var raw := DrainRaw(marked.key, sender, d.buf).1;
        var s := MpRun(env, marked, r.mp, raw);
        RunSuspects(env, marked, r.mp, raw);
        NoRecordIn(s.effects);
        FailureKept(item, row, es, r.item, r.effects, marked, s.item, s.effects);
      }
    case CannotDecrypt =>
      var raw := DrainRaw(item.key, sender, buf).1;
      RunSuspects(env, item, h.mp, raw);
      NoRecordIn(MpRun(env, item, h.mp, raw).effects);
      KeptOn(item, row, es, MpRun(env, item, h.mp, raw).item, MpRun(env, item, h.mp, raw).effects);
    case _ =>
      var c := WholeBuffer(item.key, sender, buf);
      StepSuspects(env, item, h.mp, c);
      NoRecordIn(MpStep(env, item, h.mp, c).effects);
      KeptOn(item, row, es, MpStep(env, item, h.mp, c).item, MpStep(env, item, h.mp, c).effects);
  }

  lemma KeptOn(item: ConnItem, row: ConnItem, es: seq<Effect>, item': ConnItem, more: seq<Effect>)
    requires Kept(item, row, es) && OnlySuspects(item, item', more)
    ensures Kept(item', row, es + more) && Settled(item') == Settled(item)
  {
    hide Suspected;
    forall n | Suspected(n, es) || Suspected(n, more) ensures Suspected(n, es + more) {
      SuspectsMore(n, es, more);
    }
    SettledBySober(item, item');
  }

  lemma SettledBySober(a: ConnItem, b: ConnItem)
    requires Sober(a) == Sober(b)
    ensures Settled(a) == Settled(b)
  {
    assert Settled(a) == Settled(Sober(a)) && Settled(b) == Settled(Sober(b));
  }

  /** A failure to decrypt stores the record again. */
  lemma FailureKept(item: ConnItem, row: ConnItem, es: seq<Effect>, before: ConnItem, a: seq<Effect>, marked: ConnItem,
                    after: ConnItem, b: seq<Effect>)
    requires Kept(item, row, es) && OnlySuspects(item, before, a) && OnlySuspects(marked, after, b)
    requires Settled(marked) == Settled(before)
    requires marked.comments.incomingSuspicious == before.comments.incomingSuspicious
    requires RecordIn(a) == None && RecordIn(b) == None
    ensures var more := a + [PutConnection(marked)] + b;
            && Settled(after) == Settled(item)
            && RecordIn(more) == Some(marked) && Kept(after, marked, es + more)
  {
    hide Suspected, RecordIn, Settled;
    KeptOn(item, row, es, before, a);
    var put := [PutConnection(marked)];
    OneRecord(marked);
    RecordAppend(a, put);
    RecordAppend(a + put, b);
    forall n | Suspected(n, es + a) ensures Suspected(n, es + a + put) {
      SuspectsMore(n, es + a, put);
    }
    assert Kept(marked, marked, es + a + put);
    KeptOn(marked, marked, es + a + put, after, b);
    assert es + a + put + b == es + (a + put + b);
  }

  lemma OneRecord(item: ConnItem)
    ensures RecordIn([PutConnection(item)]) == Some(item)
  {
  }

  /** The end of the handshake stores it first. */
  lemma CompleteKept(env: Env, h: Handed)
    requires h.item.comments.incomingSuspicious == None
    ensures var (c, es) := Complete(env, h);
            && Settled(c.item) == Settled(h.item) && RecordIn(es) == Some(h.item) && Kept(c.item, h.item, es)
            && forall of :: CannotDecryptAt(c.item, of) == CannotDecryptAt(h.item, of)
  {
    hide MpStep, RecordIn, Suspected, OnlySuspects;
    var l := FirstChunkOf(env, h.item, h.local.chunk);
    var r := FirstChunkOf(env, l.item, h.remote.chunk);
    FirstSuspects(env, h.item, h.local.chunk);
    FirstSuspects(env, l.item, h.remote.chunk);
    NoRecordIn(l.effects);
    NoRecordIn(r.effects);
    var put := [PutConnection(h.item)];
    OneRecord(h.item);
    RecordAppend(put, l.effects);
    RecordAppend(put + l.effects, r.effects);
    assert Kept(h.item, h.item, put);
    KeptOn(h.item, h.item, put, l.item, l.effects);
    KeptOn(l.item, h.item, put + l.effects, r.item, r.effects);
  }

  lemma FirstSuspects(env: Env, item: ConnItem, chunk: Option<Chunk>)
    ensures var r := FirstChunkOf(env, item, chunk);
            && OnlySuspects(item, r.item, r.effects) && StoresRowsOnly(r.effects)
            && forall of :: CannotDecryptAt(r.item, of) == CannotDecryptAt(item, of)
  {
    hide MpStep;
    if chunk.Some? {
      StepSuspects(env, item, FRESH, chunk.value);
      forall of ensures CannotDecryptAt(MpStep(env, item, FRESH, chunk.value).item, of) == CannotDecryptAt(item, of) {
        StepKeepsMark(env, item, FRESH, chunk.value, of);
      }
    }
  }

  // ---------------------------------------------------------------- what the handshake settles

  /** The handshake is over: given up, or both connection messages are there. */
  predicate Over(es: seq<Event>) {
    !EarlyOk(es) || Completed(es)
  }

  /** The connection belongs to the node: its own public key is in the local
      connection message, and there is room for one in the remote one. */
  predicate Own(env: Env, local: seq<byte>, remote: seq<byte>) {
    |local| >= 36 && |remote| >= 36 && local[4..36] == env.publicKey
  }

  predicate Proved(env: Env, bytes: seq<byte>) {
    |bytes| > 88 && env.powOk(bytes[4..60])
  }

  /** The record of a connection that was given up: uncertain, and nothing else. */
  predicate UncertainRecord(start: ConnItem, item: ConnItem) {
    var c := item.comments;
    && c.incomingUncertain && c.outgoingUncertain && !c.outgoingWrongPk && !c.incomingWrongPow && !c.outgoingWrongPow
    && c.incomingTooShort == None && c.outgoingTooShort == None && item.peerPk == start.peerPk
  }

  /** The record after the connection messages `local` and `remote`. */
  predicate HandshakeRecord(env: Env, start: ConnItem, local: seq<byte>, remote: seq<byte>, item: ConnItem) {
    var c, own := item.comments, Own(env, local, remote);
    && !c.incomingUncertain && !c.outgoingUncertain
    && (c.outgoingWrongPk <==> !own)
    && c.outgoingTooShort == (if own && |local| <= 88 then Some(|local|) else None)
    && c.incomingTooShort == (if own && |remote| <= 88 then Some(|remote|) else None)
    && (c.outgoingWrongPow <==> own && |local| > 88 && !Proved(env, local))
    && (c.incomingWrongPow <==> own && |remote| > 88 && !Proved(env, remote))
    && item.peerPk == (if own && Proved(env, remote) then remote[4..36] else start.peerPk)
  }

  predicate SettledRecord(env: Env, start: ConnItem, es: seq<Event>, item: ConnItem)
    requires Over(es)
  {
    && item.key == start.key && item.initiator == start.initiator && item.remoteAddr == start.remoteAddr
    && if !EarlyOk(es) then UncertainRecord(start, item)
       else HandshakeRecord(env, start, FirstChunk(Of(es, Local)), FirstChunk(Of(es, Remote)), item)
  }

  lemma SettledOnly(env: Env, start: ConnItem, es: seq<Event>, a: ConnItem, b: ConnItem)
    requires Over(es) && SettledRecord(env, start, es, a) && Settled(a) == Settled(b)
    ensures SettledRecord(env, start, es, b)
  {
    hide Proved, Own, Over, EarlyOk, Of;
    var x, y := Settled(a), Settled(b);
    assert x.key == a.key && x.initiator == a.initiator && x.remoteAddr == a.remoteAddr && x.peerPk == a.peerPk;
    assert y.key == b.key && y.initiator == b.initiator && y.remoteAddr == b.remoteAddr && y.peerPk == b.peerPk;
    var c, d := x.comments, y.comments;
    assert c.incomingTooShort == a.comments.incomingTooShort && c.outgoingTooShort == a.comments.outgoingTooShort;
    assert d.incomingTooShort == b.comments.incomingTooShort && d.outgoingTooShort == b.comments.outgoingTooShort;
  }

  /** Later payloads do not change what the handshake was about. */
  lemma StaysOver(env: Env, start: ConnItem, es: seq<Event>, e: Event, item: ConnItem)
    requires Over(es) && SettledRecord(env, start, es, item)
    ensures Over(es + [e]) && SettledRecord(env, start, es + [e], item)
  {
    hide UncertainRecord, HandshakeRecord, HasChunk, FirstChunk;
    OfAdd(es, e, Local);
    OfAdd(es, e, Remote);
    if EarlyOk(es) {
      assert Of(es, Local) + [] == Of(es, Local) && Of(es, Remote) + [] == Of(es, Remote);
      FirstOfMore(Of(es, Local), e.payload);
      FirstOfMore(Of(es, Remote), e.payload);
    }
  }

  lemma MadeRecord(env: Env, start: ConnItem, l: Buf, r: Buf)
    requires HasChunk(l.data) && HasChunk(r.data) && start.comments == NO_COMMENTS
    ensures var h := MakeKey(env, start, l, r);
            && h.item.key == start.key && h.item.initiator == start.initiator && h.item.remoteAddr == start.remoteAddr
            && HandshakeRecord(env, start, FirstChunk(l.data), FirstChunk(r.data), h.item)
            && h.item.comments.incomingSuspicious == None && forall of :: CannotDecryptAt(h.item, of) == None
  {
    hide FirstChunk, AfterFirst;
    var x, y := FirstChunk(l.data), FirstChunk(r.data);
    if Own(env, x, y) {
      RemarkedBoth(env, start, x, y);
    }
  }

  lemma RemarkedBoth(env: Env, start: ConnItem, x: seq<byte>, y: seq<byte>)
    requires Own(env, x, y) && start.comments == NO_COMMENTS
    ensures var item := RemarkRemote(env, RemarkLocal(env, start, x), y);
            && item.key == start.key && item.initiator == start.initiator && item.remoteAddr == start.remoteAddr
            && HandshakeRecord(env, start, x, y, item)
            && item.comments.incomingSuspicious == None && forall of :: CannotDecryptAt(item, of) == None
  {
  }

  // ---------------------------------------------------------------- every run

  /** The record of a connection after a run. */
  ghost predicate RunsRecord(env: Env, c0: Conn, es: seq<Event>, c: Conn, effects: seq<Effect>) {
    if !Over(es) then c.item == c0.item && RecordIn(effects) == None
    else
      && c.phase.Done? && RecordIn(effects).Some? && Kept(c.item, RecordIn(effects).value, effects)
      && SettledRecord(env, c0.item, es, c.item)
      && (!EarlyOk(es) || RunKeys(env, c0, es).None? ==> forall of :: CannotDecryptAt(c.item, of) == None)
  }

  /** The payload that ends the handshake. */
  lemma EndsRecord(env: Env, c0: Conn, es: seq<Event>, e: Event, c: Conn)
    requires Fresh(c0) && Inv(c) && Shape(env, c0, es, c, []) && !Over(es) && Over(es + [e])
    ensures var (c', more) := Step(env, c, e.payload, e.sender.Remote?);
            RunsRecord(env, c0, es + [e], c', more)
  {
    hide Complete, MakeKey, GiveUp, RecordIn, Kept, Of, EarlyOk, Inv, HandshakeRecord, UncertainRecord, MakeKeys,
         FirstChunk, AfterFirst, CannotDecryptAt;
    var item := c0.item;
    OfAdd(es, e, Local);
    OfAdd(es, e, Remote);
    var l, r := Of(es, Local), Of(es, Remote);
    assert l + [] == l && r + [] == r;
    if HasChunk(l) {
      FirstOfMore(l, e.payload);
    }
    if HasChunk(r) {
      FirstOfMore(r, e.payload);
    }
    var l', r' := Of(es + [e], Local), Of(es + [e], Remote);
    if Overflows(es, e) {
      GivenUpRecord(item, c.lbuf, c.rbuf);
      CompleteKept(env, GiveUp(item, c.lbuf, c.rbuf));
      var h := GiveUp(item, c.lbuf, c.rbuf);
      SettledOnly(env, item, es + [e], h.item, Complete(env, h).0.item);
    } else {
      MadeRecord(env, item, Buf(0, l'), Buf(0, r'));
      var h := MakeKey(env, item, Buf(0, l'), Buf(0, r'));
      CompleteKept(env, h);
      SettledOnly(env, item, es + [e], h.item, Complete(env, h).0.item);
    }
    StepKeepsInv(env, c, e.payload, e.sender.Remote?);
    CompleteIsDone(env);
  }

  lemma CompleteIsDone(env: Env)
    ensures forall h :: Complete(env, h).0.phase.Done?
  {
    hide MpStep;
  }

  lemma GivenUpRecord(start: ConnItem, l: Buf, r: Buf)
    requires start.comments == NO_COMMENTS
    ensures var h := GiveUp(start, l, r);
            && h.item.key == start.key && h.item.initiator == start.initiator && h.item.remoteAddr == start.remoteAddr
            && UncertainRecord(start, h.item)
            && h.item.comments.incomingSuspicious == None && forall of :: CannotDecryptAt(h.item, of) == None
  {
  }

  /** A payload after the handshake. */
  lemma GoesOnRecord(env: Env, c0: Conn, es: seq<Event>, e: Event, c: Conn, effects: seq<Effect>)
    requires Inv(c) && Shape(env, c0, es, c, effects) && Over(es) && RunsRecord(env, c0, es, c, effects)
    ensures var (c', more) := Step(env, c, e.payload, e.sender.Remote?);
            RunsRecord(env, c0, es + [e], c', effects + more)
  {
    hide Feed, RecordIn, Kept, Over, SettledRecord, CannotDecryptAt, EarlyOk, Settled, Of, BothKeyed, BothUnread, Taken,
         FirstChunk;
    var h := if e.sender == Local then LocalHalf(c) else RemoteHalf(c);
    var f := Feed(env, c.item, e.sender, h, e.payload);
    var row := RecordIn(effects).value;
    FeedKept(env, c.item, row, effects, e.sender, h, e.payload);
    RecordAppend(effects, f.effects);
    SettledOnly(env, c0.item, es, c.item, f.item);
    StaysOver(env, c0.item, es, e, f.item);
    KeyStays(env, c0, es, e);
    if !EarlyOk(es) || RunKeys(env, c0, es).None? {
      UnreadModes(env, c0, es, c, effects);
      forall of ensures CannotDecryptAt(f.item, of) == None {
        FeedMark(env, c.item, e.sender, h, e.payload, of);
      }
    }
  }

  lemma UnreadModes(env: Env, c0: Conn, es: seq<Event>, c: Conn, effects: seq<Effect>)
    requires Shape(env, c0, es, c, effects) && Over(es) && (!EarlyOk(es) || RunKeys(env, c0, es).None?)
    ensures c.phase.Done? && !c.phase.local.HaveKey? && !c.phase.remote.HaveKey?
  {
    hide IsUnread, Of, Taken, EarlyOk;
  }

  lemma KeyStays(env: Env, c0: Conn, es: seq<Event>, e: Event)
    requires Over(es)
    ensures !EarlyOk(es) ==> !EarlyOk(es + [e])
    ensures EarlyOk(es) ==> EarlyOk(es + [e]) && Completed(es + [e]) && RunKeys(env, c0, es + [e]) == RunKeys(env, c0, es)
  {
    hide MakeKeys, FirstChunk;
    OfAdd(es, e, Local);
    OfAdd(es, e, Remote);
    if EarlyOk(es) {
      assert Of(es, Local) + [] == Of(es, Local) && Of(es, Remote) + [] == Of(es, Remote);
      FirstOfMore(Of(es, Local), e.payload);
      FirstOfMore(Of(es, Remote), e.payload);
    }
  }

  lemma {:induction false} RunKeepsRecord(env: Env, c0: Conn, es: seq<Event>)
    requires Inv(c0) && Fresh(c0) && Captured(es)
    ensures RunsRecord(env, c0, es, Run(env, c0, es).0, Run(env, c0, es).1)
    decreases |es|
  {
    hide Shape, Step, Over, Inv, Fresh, RunsRecord;
    RunShape(env, c0, es);
    if !Over(es) {
      NotYetRecord(env, c0, es, Run(env, c0, es).0, Run(env, c0, es).1);
    } else {
      NothingIsNotOver();
      var n := |es| - 1;
      var init, e := es[..n], es[n];
      assert es == init + [e];
      var (c, effects) := Run(env, c0, init);
      RunShape(env, c0, init);
      RunKeepsRecord(env, c0, init);
      if Over(init) {
        GoesOnRecord(env, c0, init, e, c, effects);
      } else {
        StillWaiting(env, c0, init, c, effects);
        EndsRecord(env, c0, init, e, c);
        assert [] + Step(env, c, e.payload, e.sender.Remote?).1 == Step(env, c, e.payload, e.sender.Remote?).1;
      }
    }
  }

  lemma NothingIsNotOver()
    ensures !Over([])
  {
  }

  lemma StillWaiting(env: Env, c0: Conn, es: seq<Event>, c: Conn, effects: seq<Effect>)
    requires Shape(env, c0, es, c, effects) && !Over(es)
    ensures effects == []
  {
  }

  lemma NotYetRecord(env: Env, c0: Conn, es: seq<Event>, c: Conn, effects: seq<Effect>)
    requires Shape(env, c0, es, c, effects) && !Over(es)
    ensures RunsRecord(env, c0, es, c, effects)
  {
  }

  /** Where a direction stopped decrypting: at the first complete chunk that does
      not decrypt, once it was fed with its key. */
  ghost function FailedAt(env: Env, c0: Conn, es: seq<Event>, sender: Sender): Option<nat>
    requires Over(es)
  {
    var cs := Chunks(Of(es, sender));
    if !EarlyOk(es) || !FedAfter(es, sender) || !AllChunks(cs) || cs == [] then None
    else
      match RunKeys(env, c0, es)
      case None => None
      case Some(keys) =>
        var f := Readable(env, KeyFor(keys, sender), cs);
        if f < |cs| then Some(f) else None
  }

  /** The stored record after any run: it is there exactly when the handshake is
      over. It names the connection, says how the handshake went and where each
      direction stopped decrypting; a suspicion is about a stored chunk that
      looks like the beginning of a message. */
  ghost predicate IsRecord(env: Env, c0: Conn, es: seq<Event>, effects: seq<Effect>, row: ConnItem)
    requires Over(es)
  {
    && SettledRecord(env, c0.item, es, row)
    && (forall sender :: CannotDecryptAt(row, sender) == FailedAt(env, c0, es, sender))
    && (row.comments.incomingSuspicious.Some? ==> Suspected(row.comments.incomingSuspicious.value, effects))
  }

  lemma RunRecord(env: Env, c0: Conn, es: seq<Event>)
    requires Inv(c0) && Fresh(c0) && Captured(es)
    ensures var effects := Run(env, c0, es).1;
            && (RecordIn(effects).Some? <==> Over(es))
            && (Over(es) ==> IsRecord(env, c0, es, effects, RecordIn(effects).value))
  {
    hide Run, Shape, RecordIn, SettledRecord, Over, FailedAt, CannotDecryptAt, Suspected, Inv, Fresh, EarlyOk, Completed;
    RunKeepsRecord(env, c0, es);
    if Over(es) {
      var (c, effects) := Run(env, c0, es);
      var row := RecordIn(effects).value;
      SettledBySober(c.item, row);
      SettledOnly(env, c0.item, es, c.item, row);
      forall sender ensures CannotDecryptAt(row, sender) == FailedAt(env, c0, es, sender) {
        MarkBySober(c.item, row, sender);
        RunFailedAt(env, c0, es, sender);
      }
    }
  }

  lemma MarkBySober(a: ConnItem, b: ConnItem, sender: Sender)
    requires Sober(a) == Sober(b)
    ensures CannotDecryptAt(a, sender) == CannotDecryptAt(b, sender)
  {
    assert CannotDecryptAt(a, sender) == CannotDecryptAt(Sober(a), sender);
    assert CannotDecryptAt(b, sender) == CannotDecryptAt(Sober(b), sender);
  }

  lemma RunFailedAt(env: Env, c0: Conn, es: seq<Event>, sender: Sender)
    requires Inv(c0) && Fresh(c0) && Captured(es) && Over(es)
    ensures CannotDecryptAt(Run(env, c0, es).0.item, sender) == FailedAt(env, c0, es, sender)
  {
    hide Run, By, MakeKeys, Keyed, Readable, EarlyOk, FedAfter, Of, RecordIn, Kept, SettledRecord, BothUnread, Taken;
    RunKeepsRecord(env, c0, es);
    RunShape(env, c0, es);
    if EarlyOk(es) && RunKeys(env, c0, es).Some? && FedAfter(es, sender) {
      KeyedMark(env, c0.item, sender, KeyFor(RunKeys(env, c0, es).value, sender), Chunks(Of(es, sender)));
    }
  }

  // ---------------------------------------------------------------- the order of what is stored

  lemma FirstOrder(env: Env, item: ConnItem, chunk: Option<Chunk>, sender: Sender)
    requires chunk.Some? ==> chunk.value.sender == sender
    ensures var e := FirstChunkOf(env, item, chunk).effects;
            By(e, sender) == e && forall other :: other != sender ==> By(e, other) == []
  {
    hide MpStep, By;
    if chunk.Some? {
      StepBy(env, item, FRESH, chunk.value);
    } else {
      NothingOf();
    }
  }

  lemma NothingOf()
    ensures forall sender :: By([], sender) == []
  {
  }

  /** At the end of the handshake: the record, then the local side, then the
      remote one. */
  lemma CompleteOrder(env: Env, h: Handed)
    requires h.local.chunk.Some? ==> h.local.chunk.value.sender == Local
    requires h.remote.chunk.Some? ==> h.remote.chunk.value.sender == Remote
    ensures var es := Complete(env, h).1; es == [PutConnection(h.item)] + By(es, Local) + By(es, Remote)
  {
    hide MpStep, FirstChunkOf, By;
    var l := FirstChunkOf(env, h.item, h.local.chunk);
    FirstOrder(env, h.item, h.local.chunk, Local);
    FirstOrder(env, l.item, h.remote.chunk, Remote);
    CompleteBy(env, h, l.effects, FirstChunkOf(env, l.item, h.remote.chunk).effects);
  }

  /** Rows are stored in the order the payloads arrive: a payload adds rows of its
      own side only, and the one that ends the handshake the record, then the
      rows of the local and of the remote side. */
  lemma RunOrder(env: Env, c0: Conn, es: seq<Event>, e: Event)
    requires Inv(c0) && Fresh(c0) && Captured(es + [e])
    ensures var before, after := Run(env, c0, es).1, Run(env, c0, es + [e]).1;
            && before <= after
            && var more := after[|before|..];
               if Over(es) then AllOf(more, e.sender)
               else if !Over(es + [e]) then more == []
               else more != [] && more[0].PutConnection? && more[1..] == By(more, Local) + By(more, Remote)
  {
    hide By, Feed, Complete, MakeKey, GiveUp, Inv, Fresh, Shape, AllOf;
    assert (es + [e])[..|es|] == es && forall i :: 0 <= i < |es| ==> es[i] == (es + [e])[i];
    var (c, before) := Run(env, c0, es);
    UncertainIff(env, c0, es);
    UncertainIff(env, c0, es + [e]);
    var more := Step(env, c, e.payload, e.sender.Remote?).1;
    assert (before + more)[|before|..] == more;
    if c.phase.Done? {
      FeedAllOf(env, c.item, e.sender, if e.sender == Local then LocalHalf(c) else RemoteHalf(c), e.payload);
    } else {
      EndOrder(env, c, e.payload, e.sender.Remote?);
    }
  }

  lemma EndOrder(env: Env, c: Conn, payload: seq<byte>, incoming: bool)
    requires Inv(c) && c.phase.Handshake?
    ensures var (c', more) := Step(env, c, payload, incoming);
            if c'.phase.Handshake? then more == []
            else more != [] && more[0].PutConnection? && more[1..] == By(more, Local) + By(more, Remote)
  {
    hide By, Complete, MpStep;
    var l := if incoming then c.lbuf else Append(c.lbuf, payload);
    var r := if incoming then Append(c.rbuf, payload) else c.rbuf;
    CompleteOrder(env, GiveUp(c.item, c.lbuf, c.rbuf));
    if HasChunk(l.data) && HasChunk(r.data) {
      CompleteOrder(env, MakeKey(env, c.item, l, r));
    }
    CompleteIsDone(env);
  }
}
