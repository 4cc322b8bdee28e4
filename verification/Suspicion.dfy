/** The remark on suspicious chunks: which chunk it names, and which state of it
    is stored. */
module Suspicions {
  import opened Wrappers
  import opened Bytes
  import opened Common
  import opened StreamBuffer
  import opened MessageParsing
  import opened ChunkParser
  import opened Segmentation
  import opened MessageRanges
  import opened MessageLaws
  import opened Directions
  import opened Connections
  import opened ConnectionRuns
  import opened RunLaws
  import opened ConnectionRecords

  function SuspicionOf(item: ConnItem): Option<nat> {
    item.comments.incomingSuspicious
  }

  /** Chunk `i` goes on with a message, but could begin one. */
  ghost predicate Suspect(cs: seq<Chunk>, groups: seq<Group>, i: nat) {
    3 < i < |cs| && LooksNew(cs[i].bytes) && forall g :: g in groups ==> g.end != i
  }

  /** `x` is the last suspect. */
  ghost predicate LastOf(cs: seq<Chunk>, groups: seq<Group>, x: Option<nat>) {
    match x
    case None => forall i :: !Suspect(cs, groups, i)
    case Some(n) => Suspect(cs, groups, n) && forall i :: i > n ==> !Suspect(cs, groups, i)
  }

  // ---------------------------------------------------------------- one direction

  lemma {:induction false} EndsBelow(plains: seq<seq<byte>>, groups: seq<Group>)
    requires Tiled(plains, groups)
    ensures forall g :: g in groups ==> 3 < g.end <= EndOf(groups)
    decreases |groups|
  {
    if groups != [] {
      var n := |groups| - 1;
      EndsBelow(plains, groups[..n]);
      assert IsGroup(plains, groups[n]);
    }
  }

  /** What the parser remarks on a chunk it understands. */
  lemma StepRemarks(env: Env, item: ConnItem, cs: seq<Chunk>, groups: seq<Group>, mp: Mp, c: Chunk)
    requires Understood(Plains(cs), groups) && Tracks(cs, groups, mp) && c.counter == |cs|
    requires !TooSmallNext(Plains(cs), groups, c.plain)
    ensures SuspicionOf(MpStep(env, item, mp, c).item) ==
            if |cs| >= 3 && |cs| > EndOf(groups) && LooksNew(c.bytes) then Some(|cs|) else SuspicionOf(item)
  {
    hide BeVal, KindFromTag, Declared, Size, Tiled, Unfinished;
    TooSmallAgrees(cs, groups, mp, c);
    if |c.bytes| >= 6 {
      KindsAndTags(KindFromTag(BeVal(c.bytes[4..6])), BeVal(c.bytes[4..6]));
    }
  }

  /** One more chunk is a suspect exactly when it is not where a message begins. */
  lemma NextSuspect(cs: seq<Chunk>, groups: seq<Group>, c: Chunk, groups': seq<Group>, i: nat)
    requires Understood(Plains(cs), groups) && Understood(Plains(cs + [c]), groups')
    requires !TooSmallNext(Plains(cs), groups, c.plain)
    ensures Suspect(cs + [c], groups', i) <==>
            Suspect(cs, groups, i) || (i == |cs| && |cs| >= 3 && |cs| > EndOf(groups) && LooksNew(c.bytes))
  {
    hide Understood, TooSmallNext, Size, Declared, LooksNew;
    var plains, n := Plains(cs), |cs|;
    PlainsAppend(cs, c);
    UnderstoodTiles(plains, groups);
    UnderstoodTiles(plains + [c.plain], groups');
    if n < 3 {
      NoGroupsYet(plains + [c.plain], groups');
    } else {
      Extend(plains, groups, c.plain);
      UnderstoodUnique(plains + [c.plain], groups', NextGroups(plains, groups, c.plain));
      EndsBelow(plains, groups);
      EndInRange(plains, groups);
      if groups != [] {
        assert groups[|groups| - 1] in groups;
      }
    }
  }

  lemma NextLast(cs: seq<Chunk>, groups: seq<Group>, c: Chunk, groups': seq<Group>, x: Option<nat>)
    requires Understood(Plains(cs), groups) && Understood(Plains(cs + [c]), groups')
    requires !TooSmallNext(Plains(cs), groups, c.plain) && LastOf(cs, groups, x)
    ensures LastOf(cs + [c], groups', if |cs| >= 3 && |cs| > EndOf(groups) && LooksNew(c.bytes) then Some(|cs|) else x)
  {
    hide Understood, TooSmallNext, LooksNew, EndOf;
    forall i: nat
      ensures Suspect(cs + [c], groups', i) <==>
              Suspect(cs, groups, i) || (i == |cs| && |cs| >= 3 && |cs| > EndOf(groups) && LooksNew(c.bytes))
    {
      NextSuspect(cs, groups, c, groups', i);
    }
    assert forall i: nat :: Suspect(cs, groups, i) ==> i < |cs|;
  }

  /** After any chunks the parser's remark names the last suspect among those it
      understood. */
  lemma {:induction false} ParseSuspects(env: Env, item: ConnItem, cs: seq<Chunk>) returns (h: nat, groups: seq<Group>)
    requires Numbered(cs) && SuspicionOf(item) == None
    ensures var r := MpRun(env, item, FRESH, cs);
            h <= |cs| && Parsed(env, item, cs, r, h, groups) && LastOf(cs[..h], groups, SuspicionOf(r.item))
    decreases |cs|
  {
    hide MpStep, TooSmallNext, Parsed, Plains, LastOf, SuspicionOf, Numbered;
    if cs == [] {
      ParsedNothing(env, item);
      NothingSuspect();
      return 0, [];
    }
    var n := |cs| - 1;
    var init, c := cs[..n], cs[n];
    NumberedInit(cs);
    h, groups := ParseSuspects(env, item, init);
    var r := MpRun(env, item, FRESH, init);
    RunSame(env, item, item, FRESH, init);
    assert cs == init + [c];
    assert MpRun(env, item, FRESH, cs) == After(r, MpStep(env, r.item, r.mp, c));
    ParsedIs(env, item, init, r, h, groups);
    if h < n {
      ParsedAfterError(env, item, init, r, h, groups, c);
      NoRemark(env, r.item, r.mp, c);
      assert cs[..h] == init[..h];
    } else if TooSmallNext(Plains(init), groups, c.plain) {
      ParsedAtError(env, item, init, r, groups, c);
      assert init[..n] == init && cs[..n] == init;
      TooSmallAgrees(init, groups, r.mp, c);
      NoRemark(env, r.item, r.mp, c);
    } else {
      assert init[..n] == init && cs[..n + 1] == cs;
      var groups' := ParsedOn(env, item, init, r, groups, c);
      ParsedIs(env, item, cs, After(r, MpStep(env, r.item, r.mp, c)), n + 1, groups');
      StepRemarks(env, r.item, init, groups, r.mp, c);
      NextLast(init, groups, c, groups', SuspicionOf(r.item));
      h, groups := n + 1, groups';
    }
  }

  lemma NumberedInit(cs: seq<Chunk>)
    requires Numbered(cs) && cs != []
    ensures Numbered(cs[..|cs| - 1]) && cs[|cs| - 1].counter == |cs| - 1 && cs[|cs| - 1].bytes != []
  {
  }

  lemma NothingSuspect()
    ensures LastOf([], [], None)
  {
  }

  lemma ParsedIs(env: Env, item: ConnItem, cs: seq<Chunk>, r: MpResult, h: nat, groups: seq<Group>)
    requires Parsed(env, item, cs, r, h, groups)
    ensures h <= |cs| && Understood(Plains(cs[..h]), groups) && (r.mp.error <==> h < |cs|)
    ensures h == |cs| ==> Tracks(cs[..h], groups, r.mp)
  {
  }

  lemma NoRemark(env: Env, item: ConnItem, mp: Mp, c: Chunk)
    requires mp.error || TooSmall(mp, c)
    ensures MpStep(env, item, mp, c).item == item
  {
  }

  /** Chunks without a plain text are never remarked on. */
  lemma {:induction false} RawsKeepItem(env: Env, item: ConnItem, mp: Mp, cs: seq<Chunk>)
    requires forall c :: c in cs ==> c.plain == []
    ensures MpRun(env, item, mp, cs).item == item
    decreases |cs|
  {
    hide MpStep;
    if cs != [] {
      var n := |cs| - 1;
      RawsKeepItem(env, item, mp, cs[..n]);
      assert cs[n] in cs;
      NoRemark(env, item, MpRun(env, item, mp, cs[..n]).mp, cs[n]);
    }
  }

  lemma {:induction false} DrainedRaws(cn: ConnKey, sender: Sender, buf: Buf)
    ensures forall c :: c in DrainRaw(cn, sender, buf).1 ==> c.plain == []
    decreases |buf.data|
  {
    if HasChunk(buf.data) {
      DrainedRaws(cn, sender, Buf(buf.counter + 1, AfterFirst(buf.data)));
    }
  }

  /** The remark of a keyed direction, had it been alone. */
  lemma KeyedSuspects(env: Env, item: ConnItem, sender: Sender, key: Key, cs: seq<seq<byte>>)
    returns (h: nat, groups: seq<Group>)
    requires SoundCrypto(env) && AllChunks(cs) && cs != [] && SuspicionOf(item) == None
    ensures var clear, x := Clear(env, item, sender, key, cs), SuspicionOf(Keyed(env, item, sender, key, cs).line.item);
            && h <= |clear| == Readable(env, key, cs) && Understood(Plains(clear[..h]), groups)
            && (h < |clear| ==> TooSmallNext(Plains(clear[..h]), groups, clear[h].plain))
            && LastOf(clear[..h], groups, x) && (x.Some? ==> x.value < |cs|)
  {
    hide MpStep, MpRun, Understood, TooSmallNext, Keyed, Clear, Opaques, Numbered, Expected, MessagesIn, ChunksIn, Tracks;
    var clear, f := Clear(env, item, sender, key, cs), Readable(env, key, cs);
    ClearAt(env, item, sender, key, cs);
    KeyedIsRuns(env, item, sender, key, cs);
    h, groups := ParseSuspects(env, item, clear);
    if f < |cs| {
      var r := MpRun(env, item, FRESH, clear);
      OpaquesShape(env, item, sender, key, cs);
      RawsKeepItem(env, MarkCannotDecrypt(r.item, sender, f), r.mp, Opaques(env, item, sender, key, cs));
    }
  }

  // ---------------------------------------------------------------- one payload

  function Newer(new': Option<nat>, old': Option<nat>): Option<nat> {
    if new'.Some? then new' else old'
  }

  /** What is new in a run of the parser does not depend on what was known. */
  lemma {:induction false} RunNews(env: Env, a: ConnItem, b: ConnItem, mp: Mp, cs: seq<Chunk>) returns (news: Option<nat>)
    requires Same(a, b)
    ensures SuspicionOf(MpRun(env, a, mp, cs).item) == Newer(news, SuspicionOf(a))
    ensures SuspicionOf(MpRun(env, b, mp, cs).item) == Newer(news, SuspicionOf(b))
    ensures news.Some? ==> exists i :: 0 <= i < |cs| && cs[i].counter == news.value
    decreases |cs|
  {
    hide MpStep;
    news := None;
    if cs != [] {
      var n := |cs| - 1;
      news := RunNews(env, a, b, mp, cs[..n]);
      RunSame(env, a, b, mp, cs[..n]);
      var x, y := MpRun(env, a, mp, cs[..n]), MpRun(env, b, mp, cs[..n]);
      if news.Some? {
        var i :| 0 <= i < n && cs[..n][i].counter == news.value;
        assert cs[i].counter == news.value;
      }
      if Remarked(x.mp, cs[n]) {
        news := Some(cs[n].counter);
      }
      StepNews(env, x.item, x.mp, cs[n]);
      StepNews(env, y.item, y.mp, cs[n]);
    }
  }

  predicate Remarked(mp: Mp, c: Chunk) {
    !mp.error && !TooSmall(mp, c) && c.counter >= 3 && Suspicious(mp, c)
  }

  lemma StepNews(env: Env, item: ConnItem, mp: Mp, c: Chunk)
    ensures SuspicionOf(MpStep(env, item, mp, c).item) ==
            if Remarked(mp, c) then Some(c.counter) else SuspicionOf(item)
  {
  }

  lemma {:induction false} DrainCounts(env: Env, cn: ConnKey, sender: Sender, key: Key, buf: Buf)
    ensures forall c :: c in Drain(env, cn, sender, key, buf).chunks ==> c.counter >= buf.counter
    decreases |buf.data|
  {
    if HasChunk(buf.data) {
      DrainCounts(env, cn, sender, key.(nonce := key.nonce + 1), Buf(buf.counter + 1, AfterFirst(buf.data)));
    }
  }

  /** A payload: what is new in it, and that a record it stores is the one it
      leaves. */
  lemma FeedNews(env: Env, a: ConnItem, b: ConnItem, sender: Sender, h: Half, payload: seq<byte>) returns (news: Option<nat>)
    requires Same(a, b) && Cuts(h)
    ensures SuspicionOf(Feed(env, a, sender, h, payload).item) == Newer(news, SuspicionOf(a))
    ensures SuspicionOf(Feed(env, b, sender, h, payload).item) == Newer(news, SuspicionOf(b))
    ensures news.Some? ==> news.value >= h.buf.counter
  {
    hide MpStep, MpRun, Drain, DrainRaw;
    var buf := Append(h.buf, payload);
    if h.mode.HaveKey? {
      var d := Drain(env, a.key, sender, h.mode.key, buf);
      DrainCounts(env, a.key, sender, h.mode.key, buf);
      news := RunNews(env, a, b, h.mp, d.chunks);
      RunSame(env, a, b, h.mp, d.chunks);
      if d.error.Some? {
        var x, y := MpRun(env, a, h.mp, d.chunks), MpRun(env, b, h.mp, d.chunks);
        DrainedRaws(a.key, sender, d.buf);
        RawsKeepItem(env, MarkCannotDecrypt(x.item, sender, d.error.value), x.mp, DrainRaw(a.key, sender, d.buf).1);
        RawsKeepItem(env, MarkCannotDecrypt(y.item, sender, d.error.value), y.mp, DrainRaw(a.key, sender, d.buf).1);
      }
    } else {
      news := None;
      DrainedRaws(a.key, sender, buf);
      RawsKeepItem(env, a, h.mp, DrainRaw(a.key, sender, buf).1);
      RawsKeepItem(env, b, h.mp, DrainRaw(a.key, sender, buf).1);
    }
  }

  // ---------------------------------------------------------------- every run

  /** The last suspect of one side, as its bytes tell. */
  ghost function LatestOf(env: Env, c0: Conn, es: seq<Event>, sender: Sender): Option<nat> {
    var cs := Chunks(Of(es, sender));
    if !EarlyOk(es) || !Completed(es) || !FedAfter(es, sender) || !AllChunks(cs) || cs == [] then None
    else
      match RunKeys(env, c0, es)
      case None => None
      case Some(keys) => SuspicionOf(Keyed(env, c0.item, sender, KeyFor(keys, sender), cs).line.item)
  }

  /** The last suspect of the connection: that of the side that had a new one
      last. */
  ghost function LastSuspect(env: Env, c0: Conn, es: seq<Event>): Option<nat>
    decreases |es|
  {
    if es == [] then None
    else
      var init, sender := es[..|es| - 1], es[|es| - 1].sender;
      var now := LatestOf(env, c0, es, sender);
      if now != LatestOf(env, c0, init, sender) then now else LastSuspect(env, c0, init)
  }

  lemma KeyedFeedNews(env: Env, item: ConnItem, now: ConnItem, sender: Sender, key: Key, stream: seq<byte>, fed: bool,
                      h: Half, stored: seq<Effect>, payload: seq<byte>)
    requires SoundCrypto(env) && IsKeyed(env, item, sender, key, stream, fed, h, stored) && Same(now, item)
    requires SuspicionOf(item) == None
    ensures AllChunks(Chunks(stream + payload)) && Chunks(stream + payload) != []
    ensures var before := if fed then SuspicionOf(Keyed(env, item, sender, key, Chunks(stream)).line.item) else None;
            var after := SuspicionOf(Keyed(env, item, sender, key, Chunks(stream + payload)).line.item);
            SuspicionOf(Feed(env, now, sender, h, payload).item) == if after != before then after else SuspicionOf(now)
  {
    hide MpStep, Feed, Keyed, ManyChunks, Understood, TooSmallNext, LastOf, SoundCrypto, Clear, SuspicionOf, Expected,
         MessagesIn, ChunksIn, Tracks;
    KeyedIsCut(env, item, sender, key, stream, fed, h, stored);
    if fed {
      var q := Keyed(env, item, sender, key, Chunks(stream));
      KeyedItemSame(env, item, sender, key, Chunks(stream));
      NextFeed(env, item, sender, key, stream, payload);
      var g, gs := KeyedSuspects(env, item, sender, key, Chunks(stream));
      var g', gs' := KeyedMeaning(env, item, sender, key, Chunks(stream));
      var news := FeedNews(env, now, q.line.item, sender, h, payload);
    } else {
      var c := ConnectionChunk(item, sender, FirstChunk(stream));
      var s := MpStep(env, item, FRESH, c);
      FirstFeed(env, item, sender, key, stream, payload);
      StepItemSame(env, item, FRESH, c);
      StepNews(env, item, FRESH, c);
      var news := FeedNews(env, now, s.item, sender, h, payload);
    }
  }

  lemma CompleteItem(env: Env, h: Handed)
    requires h.local.chunk.Some? ==> h.local.chunk.value.counter == 0
    requires h.remote.chunk.Some? ==> h.remote.chunk.value.counter == 0
    ensures Complete(env, h).0.item == h.item
  {
    hide MpStep;
    if h.local.chunk.Some? {
      FirstUnremarked(env, h.item, h.local.chunk.value);
    }
    if h.remote.chunk.Some? {
      FirstUnremarked(env, h.item, h.remote.chunk.value);
    }
  }

  lemma FirstUnremarked(env: Env, item: ConnItem, c: Chunk)
    requires c.counter == 0
    ensures MpStep(env, item, FRESH, c).item == item
  {
  }

  /** The end of the handshake stores the record it leaves, without a suspicion. */
  lemma EndStores(env: Env, c: Conn, payload: seq<byte>, incoming: bool)
    requires Inv(c) && c.phase.Handshake? && SuspicionOf(c.item) == None
    ensures var (c', more) := Step(env, c, payload, incoming);
            && SuspicionOf(c'.item) == None
            && (c'.phase.Done? ==> RecordIn(more) == Some(c'.item))
  {
    hide Complete, RecordIn, MakeKey, GiveUp, SuspicionOf;
    var l := if incoming then c.lbuf else Append(c.lbuf, payload);
    var r := if incoming then Append(c.rbuf, payload) else c.rbuf;
    GivenUpStores(env, c.item, c.lbuf, c.rbuf);
    if HasChunk(l.data) && HasChunk(r.data) {
      MadeStores(env, c.item, l, r);
    }
  }

  lemma GivenUpStores(env: Env, item: ConnItem, l: Buf, r: Buf)
    requires l.counter == 0 == r.counter && SuspicionOf(item) == None
    ensures var (c, es) := Complete(env, GiveUp(item, l, r)); SuspicionOf(c.item) == None && RecordIn(es) == Some(c.item)
  {
    hide Complete, RecordIn;
    CompleteItem(env, GiveUp(item, l, r));
    CompleteKept(env, GiveUp(item, l, r));
  }

  lemma MadeStores(env: Env, item: ConnItem, l: Buf, r: Buf)
    requires HasChunk(l.data) && HasChunk(r.data) && l.counter == 0 == r.counter && SuspicionOf(item) == None
    ensures var (c, es) := Complete(env, MakeKey(env, item, l, r));
            SuspicionOf(c.item) == None && RecordIn(es) == Some(c.item)
  {
    hide Complete, RecordIn, MakeKey;
    MadeFirst(env, item, l, r);
    CompleteItem(env, MakeKey(env, item, l, r));
    CompleteKept(env, MakeKey(env, item, l, r));
  }

  lemma MadeFirst(env: Env, item: ConnItem, l: Buf, r: Buf)
    requires HasChunk(l.data) && HasChunk(r.data) && l.counter == 0 == r.counter
    ensures var h := MakeKey(env, item, l, r);
            && SuspicionOf(h.item) == SuspicionOf(item)
            && (h.local.chunk.Some? ==> h.local.chunk.value.counter == 0)
            && (h.remote.chunk.Some? ==> h.remote.chunk.value.counter == 0)
  {
    hide MakeKeys, FirstChunk, AfterFirst, RemarkLocal, RemarkRemote;
    var x, y := FirstChunk(l.data), FirstChunk(r.data);
    RemarksUnsuspicious(env, item, x);
    RemarksUnsuspicious(env, RemarkLocal(env, item, x), y);
  }

  lemma RemarksUnsuspicious(env: Env, item: ConnItem, bytes: seq<byte>)
    ensures SuspicionOf(RemarkLocal(env, item, bytes)) == SuspicionOf(item) == SuspicionOf(RemarkRemote(env, item, bytes))
  {
  }

  lemma UnreadKeepsItem(env: Env, item: ConnItem, sender: Sender, h: Half, payload: seq<byte>)
    requires !h.mode.HaveKey?
    ensures Feed(env, item, sender, h, payload).item == item
  {
    hide MpStep, MpRun, DrainRaw;
    var buf := Append(h.buf, payload);
    if h.mode.CannotDecrypt? {
      DrainedRaws(item.key, sender, buf);
      RawsKeepItem(env, item, h.mp, DrainRaw(item.key, sender, buf).1);
    } else {
      NoRemark(env, item, h.mp, WholeBuffer(item.key, sender, buf));
    }
  }

  /** Only the handshake, or a failure to decrypt, stores the record, and it is the
      record as the payload leaves it. */
  lemma FeedStores(env: Env, item: ConnItem, sender: Sender, h: Half, payload: seq<byte>)
    ensures var f := Feed(env, item, sender, h, payload);
            RecordIn(f.effects) ==
            if h.mode.HaveKey? && Drain(env, item.key, sender, h.mode.key, Append(h.buf, payload)).error.Some?
            then Some(f.item) else None
  {
    hide MpStep, MpRun, Drain, DrainRaw, RecordIn;
    var buf := Append(h.buf, payload);
    match h.mode
    case HaveKey(key) =>
      var d := Drain(env, item.key, sender, key, buf);
      var r := MpRun(env, item, h.mp, d.chunks);
      RunSuspects(env, item, h.mp, d.chunks);
      NoRecordIn(r.effects);
      if d.error.Some? {
        var marked := MarkCannotDecrypt(r.item, sender, d.error.value);
        var raw := DrainRaw(marked.key, sender, d.buf).1;
        DrainedRaws(marked.key, sender, d.buf);
        RawsKeepItem(env, marked, r.mp, raw);
        RunSuspects(env, marked, r.mp, raw);
        NoRecordIn(MpRun(env, marked, r.mp, raw).effects);
        OneRecord(marked);
        RecordAppend(r.effects, [PutConnection(marked)]);
        RecordAppend(r.effects + [PutConnection(marked)], MpRun(env, marked, r.mp, raw).effects);
      }
    case CannotDecrypt =>
      var raw := DrainRaw(item.key, sender, buf).1;
      RunSuspects(env, item, h.mp, raw);
      NoRecordIn(MpRun(env, item, h.mp, raw).effects);
    case _ =>
      StepSuspects(env, item, h.mp, WholeBuffer(item.key, sender, buf));
      NoRecordIn(MpStep(env, item, h.mp, WholeBuffer(item.key, sender, buf)).effects);
  }

  /** In a run the remark names the last suspect. */
  lemma {:induction false} RunSuspicion(env: Env, c0: Conn, es: seq<Event>)
    requires SoundCrypto(env) && Inv(c0) && Fresh(c0) && Captured(es)
    ensures SuspicionOf(Run(env, c0, es).0.item) == LastSuspect(env, c0, es)
    decreases |es|
  {
    hide Shape, Step, Over, Inv, Fresh, LatestOf, SuspicionOf, SoundCrypto, RunsRecord;
    if es == [] {
      FreshUnsuspected(c0);
    } else {
      var n := |es| - 1;
      var init, e := es[..n], es[n];
      assert es == init + [e];
      RunSuspicion(env, c0, init);
      RunShape(env, c0, init);
      var c := Run(env, c0, init).0;
      if Over(init) {
        AfterwardsSuspicion(env, c0, init, e, c, Run(env, c0, init).1);
      } else {
        WaitingSuspicion(env, c0, init, e, c, Run(env, c0, init).1);
      }
    }
  }

  lemma FreshUnsuspected(c: Conn)
    requires Fresh(c)
    ensures SuspicionOf(c.item) == None
  {
  }

  lemma WaitingSuspicion(env: Env, c0: Conn, es: seq<Event>, e: Event, c: Conn, effects: seq<Effect>)
    requires Fresh(c0) && Inv(c) && Shape(env, c0, es, c, effects) && !Over(es)
    ensures c.phase.Handshake? && c.item == c0.item
    ensures SuspicionOf(c.item) == None == SuspicionOf(Step(env, c, e.payload, e.sender.Remote?).0.item)
    ensures LatestOf(env, c0, es, e.sender) == None == LatestOf(env, c0, es + [e], e.sender)
  {
    hide Step, Of, EarlyOk, Inv;
    FreshUnsuspected(c0);
    NotFedYet(es);
    OfAdd(es, e, e.sender);
    EndStores(env, c, e.payload, e.sender.Remote?);
  }

  lemma AfterwardsSuspicion(env: Env, c0: Conn, es: seq<Event>, e: Event, c: Conn, effects: seq<Effect>)
    requires SoundCrypto(env) && Fresh(c0) && Inv(c) && Shape(env, c0, es, c, effects) && Over(es)
    ensures var now, before := LatestOf(env, c0, es + [e], e.sender), LatestOf(env, c0, es, e.sender);
            SuspicionOf(Step(env, c, e.payload, e.sender.Remote?).0.item) ==
            if now != before then now else SuspicionOf(c.item)
  {
    hide Feed, Of, EarlyOk, Inv, Keyed, By, SuspicionOf, SoundCrypto, MakeKeys, BothUnread, Taken, IsKeyed;
    KeyStays(env, c0, es, e);
    OfAdd(es, e, e.sender);
    ShapeDone(env, c0, es, c, effects);
    var h := if e.sender == Local then LocalHalf(c) else RemoteHalf(c);
    if !EarlyOk(es) || RunKeys(env, c0, es).None? {
      UnreadModes(env, c0, es, c, effects);
      UnreadKeepsItem(env, c.item, e.sender, h, e.payload);
    } else {
      FreshUnsuspected(c0);
      var key, stream := KeyFor(RunKeys(env, c0, es).value, e.sender), Of(es, e.sender);
      var stored := By(effects, e.sender);
      KeyedCut(env, c0.item, e.sender, key, stream, FedAfter(es, e.sender), h, stored);
      KeyedFeedNews(env, c0.item, c.item, e.sender, key, stream, FedAfter(es, e.sender), h, stored, e.payload);
    }
  }

  lemma ShapeDone(env: Env, c0: Conn, es: seq<Event>, c: Conn, effects: seq<Effect>)
    requires Shape(env, c0, es, c, effects) && Over(es)
    ensures c.phase.Done?
  {
    hide IsKeyed, IsUnread, Of, EarlyOk, Taken;
  }

  lemma KeyedCut(env: Env, item: ConnItem, sender: Sender, key: Key, stream: seq<byte>, fed: bool, h: Half,
                 stored: seq<Effect>)
    requires IsKeyed(env, item, sender, key, stream, fed, h, stored)
    ensures AllChunks(Chunks(stream)) && Chunks(stream) != []
  {
  }

  // ---------------------------------------------------------------- which state is stored

  /** How many payloads there were when the record was stored last: at the end of
      the handshake, or when a side failed to decrypt. */
  ghost function LastStored(env: Env, c0: Conn, es: seq<Event>): (n: nat)
    ensures n <= |es|
    decreases |es|
  {
    if es == [] then 0
    else
      var init, sender := es[..|es| - 1], es[|es| - 1].sender;
      if Over(es) && (!Over(init) || FailedAt(env, c0, es, sender) != FailedAt(env, c0, init, sender)) then |es|
      else LastStored(env, c0, init)
  }

  /** The row is the record as it was known then. */
  lemma {:induction false} RowIsState(env: Env, c0: Conn, es: seq<Event>)
    requires Inv(c0) && Fresh(c0) && Captured(es) && Over(es)
    ensures RecordIn(Run(env, c0, es).1) == Some(Run(env, c0, es[..LastStored(env, c0, es)]).0.item)
    decreases |es|
  {
    hide Shape, Step, Over, Inv, Fresh, FailedAt, RecordIn;
    NothingIsNotOver();
    var n := |es| - 1;
    var init, e := es[..n], es[n];
    assert es == init + [e] && es[..|es|] == es;
    var (c, effects) := Run(env, c0, init);
    var (c', more) := Step(env, c, e.payload, e.sender.Remote?);
    RunShape(env, c0, init);
    RecordAppend(effects, more);
    if Over(init) {
      RowIsState(env, c0, init);
      StoresOnFailure(env, c0, init, e);
      assert init[..LastStored(env, c0, init)] == es[..LastStored(env, c0, init)];
    } else {
      WaitingSuspicion(env, c0, init, e, c, effects);
      EndStores(env, c, e.payload, e.sender.Remote?);
      UncertainIff(env, c0, es);
      OverIs(es);
    }
  }

  lemma OverIs(es: seq<Event>)
    ensures Over(es) <==> !EarlyOk(es) || Completed(es)
  {
  }

  lemma StoresOnFailure(env: Env, c0: Conn, es: seq<Event>, e: Event)
    requires Inv(c0) && Fresh(c0) && Captured(es + [e]) && Over(es)
    ensures var (c', more) := Step(env, Run(env, c0, es).0, e.payload, e.sender.Remote?);
            && Over(es + [e])
            && RecordIn(more) == if FailedAt(env, c0, es + [e], e.sender) != FailedAt(env, c0, es, e.sender)
                                 then Some(c'.item) else None
  {
    hide Feed, Drain, Inv, Fresh, RecordIn, CannotDecryptAt, FailedAt, EarlyOk, Of, Shape, Completed;
    assert (es + [e])[..|es|] == es && forall i :: 0 <= i < |es| ==> es[i] == (es + [e])[i];
    var c := Run(env, c0, es).0;
    OverIs(es);
    OverIs(es + [e]);
    KeyStays(env, c0, es, e);
    UncertainIff(env, c0, es);
    var h := if e.sender == Local then LocalHalf(c) else RemoteHalf(c);
    FeedStores(env, c.item, e.sender, h, e.payload);
    FeedMark(env, c.item, e.sender, h, e.payload, e.sender);
    RunFailedAt(env, c0, es, e.sender);
    RunFailedAt(env, c0, es + [e], e.sender);
    if h.mode.HaveKey? {
      NotFailedYet(env, c0, es, e.sender);
    }
  }

  lemma NotFailedYet(env: Env, c0: Conn, es: seq<Event>, sender: Sender)
    requires Inv(c0) && Fresh(c0) && Captured(es) && Over(es)
    requires Run(env, c0, es).0.phase.Done? && HalfOf(Run(env, c0, es).0, sender).mode.HaveKey?
    ensures FailedAt(env, c0, es, sender) == None
  {
    hide Run, By, MakeKeys, Keyed, Readable, EarlyOk, FedAfter, Of, Inv, Taken, MpRun, MpStep;
    RunShape(env, c0, es);
    if EarlyOk(es) && RunKeys(env, c0, es).Some? && FedAfter(es, sender) {
      KeyedIsRuns(env, c0.item, sender, KeyFor(RunKeys(env, c0, es).value, sender), Chunks(Of(es, sender)));
    }
  }

  /** So the suspicion in the row is the last one there was when it was stored. */
  lemma RowSuspicion(env: Env, c0: Conn, es: seq<Event>)
    requires SoundCrypto(env) && Inv(c0) && Fresh(c0) && Captured(es) && Over(es)
    ensures RecordIn(Run(env, c0, es).1).Some?
    ensures SuspicionOf(RecordIn(Run(env, c0, es).1).value) == LastSuspect(env, c0, es[..LastStored(env, c0, es)])
  {
    hide Run, Inv, Fresh, Over, LastSuspect, LastStored, RecordIn, SoundCrypto;
    RowIsState(env, c0, es);
    RunSuspicion(env, c0, es[..LastStored(env, c0, es)]);
  }
}
