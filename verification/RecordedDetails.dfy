/** From the bytes a peer sends to what the recorder returns for a message, in
    any run of the whole recorder. */
module RecordedDetails {
  import opened Wrappers
  import opened Bytes
  import opened Common
  import opened StreamBuffer
  import opened Store
  import opened MessageParsing
  import opened ChunkParser
  import opened Segmentation
  import opened MessageRanges
  import opened MessageLaws
  import opened Directions
  import opened Connections
  import opened ConnectionRuns
  import opened EndToEnd
  import opened RunLaws
  import Eviction
  import Recorder

  type Key = ChunkParser.Key

  // ---------------------------------------------------------------- what a connection stores is its own

  predicate About(e: Effect, cn: ConnKey) {
    match e
    case PutConnection(item) => item.key == cn
    case PutChunk(c) => c.cn == cn
    case PutMessage(m) => m.cn == cn
  }

  ghost predicate AllAbout(es: seq<Effect>, cn: ConnKey) {
    forall e :: e in es ==> About(e, cn)
  }

  lemma StepAbout(env: Env, item: ConnItem, mp: Mp, c: Chunk)
    requires c.cn == item.key
    ensures AllAbout(MpStep(env, item, mp, c).effects, item.key) && MpStep(env, item, mp, c).item.key == item.key
  {
  }

  lemma {:induction false} RunAbout(env: Env, item: ConnItem, mp: Mp, cs: seq<Chunk>)
    requires forall c :: c in cs ==> c.cn == item.key
    ensures AllAbout(MpRun(env, item, mp, cs).effects, item.key) && MpRun(env, item, mp, cs).item.key == item.key
    decreases |cs|
  {
    hide MpStep;
    if cs != [] {
      var n := |cs| - 1;
      RunAbout(env, item, mp, cs[..n]);
      var r := MpRun(env, item, mp, cs[..n]);
      StepAbout(env, r.item, r.mp, cs[n]);
    }
  }

  lemma {:induction false} DrainAbout(env: Env, cn: ConnKey, sender: Sender, key: Key, buf: Buf)
    ensures forall c :: c in Drain(env, cn, sender, key, buf).chunks ==> c.cn == cn
    decreases |buf.data|
  {
    if HasChunk(buf.data) {
      DrainAbout(env, cn, sender, key.(nonce := key.nonce + 1), Buf(buf.counter + 1, AfterFirst(buf.data)));
    }
  }

  lemma {:induction false} DrainRawAbout(cn: ConnKey, sender: Sender, buf: Buf)
    ensures forall c :: c in DrainRaw(cn, sender, buf).1 ==> c.cn == cn
    decreases |buf.data|
  {
    if HasChunk(buf.data) {
      DrainRawAbout(cn, sender, Buf(buf.counter + 1, AfterFirst(buf.data)));
    }
  }

  lemma FeedAbout(env: Env, item: ConnItem, sender: Sender, h: Half, payload: seq<byte>)
    ensures AllAbout(Feed(env, item, sender, h, payload).effects, item.key)
  {
    hide MpStep, MpRun, Drain, DrainRaw;
    var buf := Append(h.buf, payload);
    match h.mode
    case HaveKey(key) =>
      var d := Drain(env, item.key, sender, key, buf);
      DrainAbout(env, item.key, sender, key, buf);
      RunAbout(env, item, h.mp, d.chunks);
      if d.error.Some? {
        var r := MpRun(env, item, h.mp, d.chunks);
        var marked := MarkCannotDecrypt(r.item, sender, d.error.value);
        DrainRawAbout(item.key, sender, d.buf);
        RunAbout(env, marked, r.mp, DrainRaw(item.key, sender, d.buf).1);
      }
    case CannotDecrypt =>
      DrainRawAbout(item.key, sender, buf);
      RunAbout(env, item, h.mp, DrainRaw(item.key, sender, buf).1);
    case _ =>
      StepAbout(env, item, h.mp, WholeBuffer(item.key, sender, buf));
  }

  predicate FirstAbout(o: Opened, cn: ConnKey) {
    o.chunk.Some? ==> o.chunk.value.cn == cn
  }

  lemma CompleteAbout(env: Env, h: Handed)
    requires FirstAbout(h.local, h.item.key) && FirstAbout(h.remote, h.item.key)
    ensures AllAbout(Complete(env, h).1, h.item.key)
  {
    hide MpStep;
    if h.local.chunk.Some? {
      StepAbout(env, h.item, FRESH, h.local.chunk.value);
    }
    var l := FirstChunkOf(env, h.item, h.local.chunk);
    if h.remote.chunk.Some? {
      StepAbout(env, l.item, FRESH, h.remote.chunk.value);
    }
  }

  /** A payload stores rows of its own connection only. */
  lemma PayloadAbout(env: Env, c: Conn, payload: seq<byte>, incoming: bool)
    requires Inv(c)
    ensures AllAbout(Step(env, c, payload, incoming).1, c.item.key)
  {
    hide MpStep, Feed, Complete;
    if c.phase.Done? {
      if incoming {
        FeedAbout(env, c.item, Remote, RemoteHalf(c), payload);
      } else {
        FeedAbout(env, c.item, Local, LocalHalf(c), payload);
      }
    } else {
      CompleteAbout(env, GiveUp(c.item, c.lbuf, c.rbuf));
      var l := if incoming then c.lbuf else Append(c.lbuf, payload);
      var r := if incoming then Append(c.rbuf, payload) else c.rbuf;
      if HasChunk(l.data) && HasChunk(r.data) {
        MadeAbout(env, c.item, l, r);
        CompleteAbout(env, MakeKey(env, c.item, l, r));
      }
    }
  }

  lemma MadeAbout(env: Env, item: ConnItem, l: Buf, r: Buf)
    requires HasChunk(l.data) && HasChunk(r.data)
    ensures var h := MakeKey(env, item, l, r);
            h.item.key == item.key && FirstAbout(h.local, item.key) && FirstAbout(h.remote, item.key)
  {
  }

  // ---------------------------------------------------------------- where the rows come from

  ghost predicate ChunkStored(pool: seq<Effect>, k: ChunkKey, v: ChunkValue) {
    exists c :: PutChunk(c) in pool && KeyOf(c) == k && ValueOf(c) == v
  }

  /** The rows of connection `cn` are all in `pool`. */
  ghost predicate StemsFrom(t: Tables, cn: ConnKey, pool: seq<Effect>) {
    && (forall id :: id in t.messages && t.messages[id].cn == cn ==> PutMessage(t.messages[id]) in pool)
    && (forall k :: k in t.chunks && k.cn == cn ==> ChunkStored(pool, k, t.chunks[k]))
  }

  ghost predicate Listed(t: Tables, m: Message) {
    exists id :: id in t.messages && t.messages[id] == m
  }

  /** Without a limit the messages in `pool` are all there. */
  ghost predicate Keeps(t: Tables, pool: seq<Effect>) {
    (forall id :: id in t.messages ==> id < t.counter) &&
    (t.limit.None? ==> forall m :: PutMessage(m) in pool ==> Listed(t, m))
  }

  lemma MoreStems(t: Tables, cn: ConnKey, a: seq<Effect>, b: seq<Effect>)
    requires StemsFrom(t, cn, a)
    ensures StemsFrom(t, cn, a + b)
  {
    forall k | k in t.chunks && k.cn == cn ensures ChunkStored(a + b, k, t.chunks[k]) {
      assert ChunkStored(a, k, t.chunks[k]);
      var c :| PutChunk(c) in a && KeyOf(c) == k && ValueOf(c) == t.chunks[k];
      assert PutChunk(c) in a + b;
    }
  }

  lemma OneStems(t: Tables, cn: ConnKey, pool: seq<Effect>, e: Effect)
    requires StemsFrom(t, cn, pool) && (e in pool || !About(e, cn))
    ensures StemsFrom(Apply(t, e), cn, pool)
  {
    var t' := Apply(t, e);
    forall k | k in t'.chunks && k.cn == cn ensures ChunkStored(pool, k, t'.chunks[k]) {
      if k in t.chunks && t.chunks[k] == t'.chunks[k] {
        assert ChunkStored(pool, k, t.chunks[k]);
      } else {
        assert PutChunk(e.chunk) in pool;
      }
    }
  }

  lemma {:induction false} AllStem(t: Tables, cn: ConnKey, pool: seq<Effect>, es: seq<Effect>)
    requires StemsFrom(t, cn, pool) && forall e :: e in es ==> e in pool || !About(e, cn)
    ensures StemsFrom(ApplyAll(t, es), cn, pool)
    decreases |es|
  {
    hide StemsFrom, About, Apply;
    if es != [] {
      var n := |es| - 1;
      AllStem(t, cn, pool, es[..n]);
      OneStems(ApplyAll(t, es[..n]), cn, pool, es[n]);
    }
  }

  lemma OneKeeps(t: Tables, pool: seq<Effect>, e: Effect)
    requires Keeps(t, pool)
    ensures Keeps(Apply(t, e), pool + [e]) && Apply(t, e).limit == t.limit
  {
    var t' := Apply(t, e);
    if t.limit.None? {
      forall m | PutMessage(m) in pool + [e] ensures Listed(t', m) {
        if PutMessage(m) in pool {
          var id :| id in t.messages && t.messages[id] == m;
          assert t'.messages[id] == m;
        } else {
          assert t'.messages[t.counter] == m;
        }
      }
    }
  }

  lemma {:induction false} AllKeep(t: Tables, pool: seq<Effect>, es: seq<Effect>)
    requires Keeps(t, pool)
    ensures Keeps(ApplyAll(t, es), pool + es) && ApplyAll(t, es).limit == t.limit
    decreases |es|
  {
    hide Keeps, Apply;
    if es == [] {
      assert pool + es == pool;
    } else {
      var n := |es| - 1;
      AllKeep(t, pool, es[..n]);
      OneKeeps(ApplyAll(t, es[..n]), pool + es[..n], es[n]);
      assert pool + es[..n] + [es[n]] == pool + es;
    }
  }

  // ---------------------------------------------------------------- one connection of many

  /** The connection as it was opened. */
  function Opening(events: seq<Recorder.Event>, cn: ConnKey): Option<Conn>
    decreases |events|
  {
    if events == [] then None
    else
      var n := |events| - 1;
      match events[n]
      case Opened(key, initiator, addr) =>
        if key == cn then Some(NewConn(cn, initiator, addr)) else Opening(events[..n], cn)
      case _ => Opening(events[..n], cn)
  }

  predicate Alive(events: seq<Recorder.Event>, cn: ConnKey)
    decreases |events|
  {
    events != [] &&
    var n := |events| - 1;
    match events[n]
    case Opened(key, _, _) => key == cn || Alive(events[..n], cn)
    case Closed(key) => key != cn && Alive(events[..n], cn)
    case Restarted => false
    case Data(_, _, _) => Alive(events[..n], cn)
  }

  /** The payloads it was handed while it was alive. */
  function Traffic(events: seq<Recorder.Event>, cn: ConnKey): seq<Event>
    decreases |events|
  {
    if events == [] then []
    else
      var n := |events| - 1;
      var before := Traffic(events[..n], cn);
      match events[n]
      case Data(key, payload, incoming) =>
        if key == cn && Alive(events[..n], cn) then before + [Event(payload, SenderOf(incoming))] else before
      case _ => before
  }

  /** All it stored, as if it had been alone. */
  ghost function Origin(env: Env, events: seq<Recorder.Event>, cn: ConnKey): seq<Effect> {
    match Opening(events, cn)
    case None => []
    case Some(c0) => if Inv(c0) then Run(env, c0, Traffic(events, cn)).1 else []
  }

  /** In a system state, connection `cn` is where it would be had it been alone,
      and the database holds of it only what it stored. */
  ghost predicate Follows(env: Env, s: Recorder.System, events: seq<Recorder.Event>, cn: ConnKey) {
    && (cn in s.used <==> Opening(events, cn).Some?)
    && (cn in s.conns <==> Alive(events, cn))
    && (cn in s.conns ==> cn in s.used)
    && (cn !in s.used ==> Traffic(events, cn) == [])
    && (cn in s.conns ==>
          var c0 := Opening(events, cn).value; Inv(c0) && s.conns[cn] == Run(env, c0, Traffic(events, cn)).0)
    && StemsFrom(s.tables, cn, Origin(env, events, cn))
    && Keeps(s.tables, Origin(env, events, cn))
    && Captured(Traffic(events, cn))
  }

  lemma NewIsFresh(cn: ConnKey, initiator: Initiator, addr: SocketAddr)
    ensures var c0 := NewConn(cn, initiator, addr); Inv(c0) && Fresh(c0) && c0.item.key == cn
  {
  }

  lemma {:induction false} OpeningFresh(events: seq<Recorder.Event>, cn: ConnKey)
    ensures Opening(events, cn).Some? ==>
              var c0 := Opening(events, cn).value; Inv(c0) && Fresh(c0) && c0.item.key == cn
    decreases |events|
  {
    hide Inv, Fresh, NewConn;
    if events != [] {
      var n := |events| - 1;
      OpeningFresh(events[..n], cn);
      if events[n].Opened? {
        NewIsFresh(cn, events[n].initiator, events[n].remoteAddr);
      }
    }
  }

  lemma RunAdd(env: Env, c0: Conn, es: seq<Event>, e: Event)
    requires Inv(c0)
    ensures var (c, effects) := Run(env, c0, es);
            var (c', more) := Step(env, c, e.payload, e.sender.Remote?);
            Run(env, c0, es + [e]) == (c', effects + more)
  {
    hide Step;
    assert (es + [e])[..|es|] == es;
  }

  lemma OpenedFollows(env: Env, s: Recorder.System, events: seq<Recorder.Event>, cn: ConnKey)
    requires events != [] && events[|events| - 1].Opened?
    requires Recorder.Good(s) && Recorder.Possible(s, events[|events| - 1]) && Follows(env, s, events[..|events| - 1], cn)
    ensures Follows(env, Recorder.Next(env, s, events[|events| - 1]), events, cn)
  {
    hide Recorder.Good, StemsFrom, Keeps, Inv, NewConn;
    var e := events[|events| - 1];
    NewIsFresh(cn, e.initiator, e.remoteAddr);
    OpeningFresh(events, cn);
  }

  lemma ClosedFollows(env: Env, s: Recorder.System, events: seq<Recorder.Event>, cn: ConnKey)
    requires events != [] && (events[|events| - 1].Closed? || events[|events| - 1].Restarted?)
    requires Recorder.Good(s) && Follows(env, s, events[..|events| - 1], cn)
    ensures Follows(env, Recorder.Next(env, s, events[|events| - 1]), events, cn)
  {
    hide Recorder.Good, StemsFrom, Keeps, Inv, NewConn, Run;
    ReopenedKeeps(s.tables, cn, Origin(env, events[..|events| - 1], cn));
  }

  lemma ReopenedKeeps(t: Tables, cn: ConnKey, pool: seq<Effect>)
    requires StemsFrom(t, cn, pool) && Keeps(t, pool)
    ensures StemsFrom(Reopened(t), cn, pool) && Keeps(Reopened(t), pool)
  {
    hide NextId;
    forall m | t.limit.None? && PutMessage(m) in pool ensures Listed(Reopened(t), m) {
      assert Listed(t, m);
    }
  }

  lemma ConnOf(s: Recorder.System, key: ConnKey)
    requires Recorder.Good(s) && key in s.conns
    ensures Inv(s.conns[key]) && s.conns[key].item.key == key
  {
  }

  lemma DataFollows(env: Env, s: Recorder.System, events: seq<Recorder.Event>, cn: ConnKey)
    requires events != [] && events[|events| - 1].Data?
    requires Recorder.Good(s) && Recorder.Possible(s, events[|events| - 1]) && Follows(env, s, events[..|events| - 1], cn)
    ensures Follows(env, Recorder.Next(env, s, events[|events| - 1]), events, cn)
  {
    hide Recorder.Good, StemsFrom, Keeps, Inv, NewConn, Run, Step, ApplyAll, About;
    var n := |events| - 1;
    var e := events[n];
    var pool := Origin(env, events[..n], cn);
    if e.key in s.conns {
      ConnOf(s, e.key);
      PayloadAbout(env, s.conns[e.key], e.payload, e.incoming);
      var (c', more) := Step(env, s.conns[e.key], e.payload, e.incoming);
      if e.key == cn {
        var c0 := Opening(events, cn).value;
        RunAdd(env, c0, Traffic(events[..n], cn), Event(e.payload, SenderOf(e.incoming)));
        assert SenderOf(e.incoming).Remote? == e.incoming;
        MoreStems(s.tables, cn, pool, more);
        AllStem(s.tables, cn, pool + more, more);
        AllKeep(s.tables, pool, more);
      } else {
        assert forall x :: x in more ==> !About(x, cn) by {
          OtherAbout(more, e.key, cn);
        }
        AllStem(s.tables, cn, pool, more);
        AllKeep(s.tables, pool, more);
        FewerKept(ApplyAll(s.tables, more), pool, more);
      }
    }
  }

  lemma OtherAbout(es: seq<Effect>, key: ConnKey, cn: ConnKey)
    requires AllAbout(es, key) && key != cn
    ensures forall e :: e in es ==> !About(e, cn)
  {
    forall e | e in es ensures !About(e, cn) {
      assert About(e, key);
    }
  }

  lemma FewerKept(t: Tables, a: seq<Effect>, b: seq<Effect>)
    requires Keeps(t, a + b)
    ensures Keeps(t, a)
  {
    forall m | t.limit.None? && PutMessage(m) in a ensures Listed(t, m) {
      assert PutMessage(m) in a + b;
    }
  }

  /** Every connection of every run of the recorder is where it would be had it
      been alone, and the rows of the database that carry its key are rows it
      stored. */
  lemma {:induction false} EachFollows(env: Env, limit: Option<nat>, events: seq<Recorder.Event>, cn: ConnKey)
    requires Recorder.After(env, limit, events).Some?
    ensures Follows(env, Recorder.After(env, limit, events).value, events, cn)
    ensures Recorder.After(env, limit, events).value.tables.limit == limit
    decreases |events|
  {
    if events != [] {
      hide Follows, Recorder.Possible, Recorder.Next;
      var n := |events| - 1;
      EachFollows(env, limit, events[..n], cn);
      var s := Recorder.After(env, limit, events[..n]).value;
      LimitKept(env, s, events[n]);
      match events[n]
      case Opened(_, _, _) => OpenedFollows(env, s, events, cn);
      case Data(_, _, _) => DataFollows(env, s, events, cn);
      case Closed(_) => ClosedFollows(env, s, events, cn);
      case Restarted => ClosedFollows(env, s, events, cn);
    }
  }

  lemma LimitKept(env: Env, s: Recorder.System, e: Recorder.Event)
    requires Recorder.Good(s)
    ensures Recorder.Next(env, s, e).tables.limit == s.tables.limit
  {
    hide Step, ApplyAll, Inv, Eviction.Live;
    if e.Data? && e.key in s.conns {
      assert Keeps(s.tables, []);
      AllKeep(s.tables, [], Step(env, s.conns[e.key], e.payload, e.incoming).1);
    }
  }

  // ---------------------------------------------------------------- what is found of it

  lemma {:induction false} InEffects(es: seq<Effect>, c: Chunk)
    ensures c in ChunksIn(es) <==> PutChunk(c) in es
    decreases |es|
  {
    if es != [] {
      var n := |es| - 1;
      InEffects(es[..n], c);
      assert PutChunk(c) in es <==> PutChunk(c) in es[..n] || es[n] == PutChunk(c);
    }
  }

  lemma {:induction false} InMessages(es: seq<Effect>, m: Message)
    ensures m in MessagesIn(es) <==> PutMessage(m) in es
    decreases |es|
  {
    if es != [] {
      var n := |es| - 1;
      InMessages(es[..n], m);
      assert PutMessage(m) in es <==> PutMessage(m) in es[..n] || es[n] == PutMessage(m);
    }
  }

  lemma {:induction false} InBy(es: seq<Effect>, sender: Sender, e: Effect)
    ensures e in By(es, sender) <==> e in es && Concerns(e, sender)
  {
    if es != [] {
      InBy(es[1..], sender, e);
      assert e in es <==> e == es[0] || e in es[1..];
    }
  }

  /** A chunk row of a direction is the chunk of that number. */
  lemma RowIsChunk(t: Tables, cn: ConnKey, pool: seq<Effect>, sender: Sender, i: nat)
    requires StemsFrom(t, cn, pool) && ChunkKey(cn, i, sender) in t.chunks
    requires OfDirection(ChunksIn(By(pool, sender)), cn, sender)
    ensures var cs := ChunksIn(By(pool, sender)); i < |cs| && t.chunks[ChunkKey(cn, i, sender)] == ValueOf(cs[i])
  {
    hide By, ChunksIn;
    var k, cs := ChunkKey(cn, i, sender), ChunksIn(By(pool, sender));
    assert ChunkStored(pool, k, t.chunks[k]);
    var c :| PutChunk(c) in pool && KeyOf(c) == k && ValueOf(c) == t.chunks[k];
    InBy(pool, sender, PutChunk(c));
    InEffects(By(pool, sender), c);
    var j :| 0 <= j < |cs| && cs[j] == c;
    assert cs[j].counter == i;
  }

  function PlainsOf(vs: seq<ChunkValue>): seq<seq<byte>> {
    seq(|vs|, i requires 0 <= i < |vs| => vs[i].plain)
  }

  function RawsOf(vs: seq<ChunkValue>): seq<seq<byte>> {
    seq(|vs|, i requires 0 <= i < |vs| => vs[i].bytes)
  }

  /** One side of connection `cn` sent the script, and the recorder could follow it. */
  ghost predicate Carries(env: Env, events: seq<Recorder.Event>, cn: ConnKey, sender: Sender, peerSecret: seq<byte>,
                          s: Script)
  {
    var es := Traffic(events, cn);
    && SoundCrypto(env) && SoundHandshake(env) && Opening(events, cn).Some?
    && EarlyOk(es) && FedAfter(es, sender) && Greeted(env, es, peerSecret)
    && Proper(s) && Of(es, sender) == Flatten(SentChunks(env, SentWith(env, events, cn, sender, peerSecret), s))
  }

  /** The key it was encrypted with, as that side derived it. */
  function SentWith(env: Env, events: seq<Recorder.Event>, cn: ConnKey, sender: Sender, peerSecret: seq<byte>): Key
    requires Opening(events, cn).Some? && Completed(Traffic(events, cn))
    requires |FirstChunk(Of(Traffic(events, cn), Local))| >= 36 && |FirstChunk(Of(Traffic(events, cn), Remote))| >= 36
  {
    OwnKey(env, Opening(events, cn).value, Traffic(events, cn), peerSecret, sender)
  }

  lemma {:induction false} OpeningIs(events: seq<Recorder.Event>, cn: ConnKey)
    requires Opening(events, cn).Some?
    ensures var item := Opening(events, cn).value.item;
            item.key == cn && Recorder.Opened(cn, item.initiator, item.remoteAddr) in events
    decreases |events|
  {
    var n := |events| - 1;
    if !(events[n].Opened? && events[n].key == cn) {
      OpeningIs(events[..n], cn);
    }
  }

  /** Whatever other connections were open, whatever was evicted and however
      often the recorder was restarted: the details of a message that is still
      listed are exactly the bytes of a message that was sent, of its type, in
      clear and as captured, and its row names the opener and the address of
      the connection and the time of its last chunk. */
  lemma SentIsFound(env: Env, limit: Option<nat>, events: seq<Recorder.Event>, id: nat, peerSecret: seq<byte>, s: Script,
                    found: seq<ChunkValue>)
    returns (k: nat)
    requires Recorder.After(env, limit, events).Some?
    requires var t := Recorder.After(env, limit, events).value.tables;
             id in t.messages && IsDetails(t, t.messages[id], found) &&
             Carries(env, events, t.messages[id].cn, t.messages[id].sender, peerSecret, s)
    ensures var m := Recorder.After(env, limit, events).value.tables.messages[id];
            var ms := MessagesIn(By(Origin(env, events, m.cn), m.sender));
            var raw := SentChunks(env, SentWith(env, events, m.cn, m.sender, peerSecret), s);
            && k < 3 + |s.peers| == |ms| && m == ms[k] && HasScriptType(s, k, m.ty)
            && Flatten(PlainsOf(found)) == ScriptMessage(s, k)
            && m.first < m.end <= |raw| && RawsOf(found) == raw[m.first..m.end]
            && Recorder.Opened(m.cn, m.initiator, m.remoteAddr) in events
            && m.timestamp == env.clock(m.cn, m.sender, m.end - 1)
  {
    hide Recorder.After, Run, By, MessagesIn, ChunksIn, SentChunks, SentPlains, Flatten, Of, EarlyOk, Completed, FedAfter,
         Proper, SoundCrypto, SoundHandshake, Inv, Fresh, StemsFrom, HasScriptType, ScriptMessage, Traffic, Opening, Alive,
         OwnKey, Greeted, BytesOf;
    var t := Recorder.After(env, limit, events).value.tables;
    var m := t.messages[id];
    var cn, sender, pool := m.cn, m.sender, Origin(env, events, m.cn);
    EachFollows(env, limit, events, cn);
    OpeningFresh(events, cn);
    OpeningIs(events, cn);
    var c0, es := Opening(events, cn).value, Traffic(events, cn);
    var cs, ms := ChunksIn(By(pool, sender)), MessagesIn(By(pool, sender));
    MessageStems(t, cn, pool, id);
    InBy(pool, sender, PutMessage(m));
    InMessages(By(pool, sender), m);
    k :| 0 <= k < |ms| && ms[k] == m;
    RoundTrip(env, c0, es, sender, peerSecret, s, 0);
    RoundTrip(env, c0, es, sender, peerSecret, s, k);
    Recorder.DetailsComplete(env, limit, events, id, found);
    DetailsAre(t, cn, pool, m, found);
  }

  /** The details of a message are the chunks of its range. */
  lemma DetailsAre(t: Tables, cn: ConnKey, pool: seq<Effect>, m: Message, found: seq<ChunkValue>)
    requires StemsFrom(t, cn, pool) && m.cn == cn && m.first < m.end && |found| == m.end - m.first
    requires forall c :: m.first <= c < m.end ==>
               ChunkKey(m.cn, c, m.sender) in t.chunks && found[c - m.first] == t.chunks[ChunkKey(m.cn, c, m.sender)]
    requires OfDirection(ChunksIn(By(pool, m.sender)), cn, m.sender)
    ensures var cs := ChunksIn(By(pool, m.sender));
            && m.end <= |cs| && PlainsOf(found) == Plains(cs)[m.first..m.end]
            && RawsOf(found) == BytesOf(cs)[m.first..m.end]
  {
    hide By, ChunksIn, StemsFrom;
    var cs := ChunksIn(By(pool, m.sender));
    forall i | m.first <= i < m.end ensures i < |cs| && found[i - m.first] == ValueOf(cs[i]) {
      RowIsChunk(t, cn, pool, m.sender, i);
    }
    RowIsChunk(t, cn, pool, m.sender, m.end - 1);
  }

  lemma MessageStems(t: Tables, cn: ConnKey, pool: seq<Effect>, id: nat)
    requires StemsFrom(t, cn, pool) && id in t.messages && t.messages[id].cn == cn
    ensures PutMessage(t.messages[id]) in pool
  {
  }

  /** Without a limit every message that was sent is listed. */
  lemma SentIsListed(env: Env, events: seq<Recorder.Event>, cn: ConnKey, sender: Sender, peerSecret: seq<byte>, s: Script,
                     k: nat)
    requires Recorder.After(env, None, events).Some?
    requires Carries(env, events, cn, sender, peerSecret, s) && k < 3 + |s.peers|
    ensures var ms := MessagesIn(By(Origin(env, events, cn), sender));
            && |ms| == 3 + |s.peers| && HasScriptType(s, k, ms[k].ty)
            && Listed(Recorder.After(env, None, events).value.tables, ms[k])
  {
    hide Recorder.After, Run, By, MessagesIn, ChunksIn, SentChunks, SentPlains, Flatten, Of, EarlyOk, Completed, FedAfter,
         Proper, SoundCrypto, SoundHandshake, Inv, Fresh, StemsFrom, HasScriptType, ScriptMessage, Traffic, Opening, Alive,
         Listed, OwnKey, Greeted, BytesOf;
    EachFollows(env, None, events, cn);
    OpeningFresh(events, cn);
    RoundTrip(env, Opening(events, cn).value, Traffic(events, cn), sender, peerSecret, s, k);
    var pool := Origin(env, events, cn);
    var m := MessagesIn(By(pool, sender))[k];
    InMessages(By(pool, sender), m);
    InBy(pool, sender, PutMessage(m));
  }
}
