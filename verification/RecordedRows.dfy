/** What the tables hold after any run of the whole recorder, row by row: which
    chunks, which connections, and what a listed message says. */
module RecordedRows {
  import opened Wrappers
  import opened Bytes
  import opened Common
  import opened StreamBuffer
  import opened Store
  import opened MessageParsing
  import opened Segmentation
  import opened MessageRanges
  import opened MessageLaws
  import opened Directions
  import opened Connections
  import opened ConnectionRuns
  import opened RunLaws
  import opened RecordedDetails
  import opened ConnectionRecords
  import opened Suspicions
  import ChunkParser
  import Eviction
  import Recorder

  // ---------------------------------------------------------------- the order in which rows are stored

  /** A message lies below everything its direction stores after it. */
  predicate Below(m: Message, e: Effect) {
    match e
    case PutConnection(_) => true
    case PutChunk(c) => m.end <= c.counter
    case PutMessage(n) => m.end <= n.first
  }

  ghost predicate Climbs(es: seq<Effect>) {
    && (forall i :: 0 <= i < |es| && es[i].PutMessage? ==> es[i].message.first < es[i].message.end)
    && (forall i, j :: 0 <= i < j < |es| && es[i].PutMessage? ==> Below(es[i].message, es[j]))
  }

  lemma {:induction false} ClimbsWithoutMessages(es: seq<Effect>)
    requires MessagesIn(es) == []
    ensures Climbs(es)
  {
    forall i | 0 <= i < |es| ensures !es[i].PutMessage? {
      if es[i].PutMessage? {
        InMessages(es, es[i].message);
      }
    }
  }

  /** What the parser stores for one chunk: the chunk, and behind it possibly a
      message from the first chunk not yet in a message up to this one. */
  lemma StepClimbs(env: Env, item: ConnItem, mp: Mp, c: Chunk)
    requires Eviction.Fits(mp, c.counter)
    ensures var r, n := MpStep(env, item, mp, c), c.counter;
            && Eviction.Fits(r.mp, n + 1) && Eviction.Base(mp, n) <= Eviction.Base(r.mp, n + 1) <= n + 1
            && (r.effects == [] || r.effects == [PutChunk(c)] ||
                (|r.effects| == 2 && r.effects[0] == PutChunk(c) && r.effects[1].PutMessage? &&
                 var m := r.effects[1].message;
                 Eviction.Base(mp, n) <= m.first <= n && m.end == n + 1 == Eviction.Base(r.mp, n + 1)))
  {
    hide KindFromTag, BeVal, Declared, Suspicious;
    var r := MpStep(env, item, mp, c);
    if !mp.error && !TooSmall(mp, c) && c.counter >= 3 {
      match LinkChunk(CurrentBuilder(mp, c), |c.plain|)
      case Full(b) =>
      case Partial(b) =>
      case Overrun =>
    }
  }

  /** No message reaches beyond `base`, no chunk beyond `next`. */
  ghost predicate Within(es: seq<Effect>, base: nat, next: nat) {
    forall e :: e in es ==> (e.PutMessage? ==> e.message.end <= base) && (e.PutChunk? ==> e.chunk.counter < next)
  }

  lemma ClimbsOn(es: seq<Effect>, e: Effect)
    requires Climbs(es) && (e.PutMessage? ==> e.message.first < e.message.end)
    requires forall x :: x in es && x.PutMessage? ==> Below(x.message, e)
    ensures Climbs(es + [e])
  {
    forall i, j | 0 <= i < j < |es + [e]| && (es + [e])[i].PutMessage? ensures Below((es + [e])[i].message, (es + [e])[j]) {
      assert (es + [e])[i] == es[i] && es[i] in es;
    }
  }

  lemma {:induction false} ParserClimbs(env: Env, item: ConnItem, cs: seq<Chunk>)
    requires forall i :: 0 <= i < |cs| ==> cs[i].counter == i
    ensures var r := MpRun(env, item, FRESH, cs);
            && Eviction.Fits(r.mp, |cs|) && Eviction.Base(r.mp, |cs|) <= |cs|
            && Climbs(r.effects) && Within(r.effects, Eviction.Base(r.mp, |cs|), |cs|)
    decreases |cs|
  {
    hide MpStep, Climbs, Eviction.Fits, Eviction.Base;
    if cs == [] {
      NothingClimbs();
    } else {
      var n := |cs| - 1;
      ParserClimbs(env, item, cs[..n]);
      var r := MpRun(env, item, FRESH, cs[..n]);
      StepClimbs(env, r.item, r.mp, cs[n]);
      var more := MpStep(env, r.item, r.mp, cs[n]).effects;
      if more == [] {
        assert r.effects + more == r.effects;
      } else {
        ClimbsOn(r.effects, PutChunk(cs[n]));
        if |more| == 2 {
          ClimbsOn(r.effects + [PutChunk(cs[n])], more[1]);
          assert r.effects + more == r.effects + [PutChunk(cs[n])] + [more[1]];
        }
      }
    }
  }

  lemma NothingClimbs()
    ensures Climbs([]) && Eviction.Fits(FRESH, 0) && Eviction.Base(FRESH, 0) == 0
  {
  }

  /** A keyed direction stores in climbing order. */
  lemma KeyedClimbs(env: Env, item: ConnItem, sender: Sender, key: ChunkParser.Key, cs: seq<seq<byte>>)
    requires AllChunks(cs) && cs != []
    ensures Climbs(Keyed(env, item, sender, key, cs).effects)
  {
    hide MpStep, MpRun, Climbs, Clear, Opaques, Keyed, Eviction.Base, Eviction.Fits;
    KeyedIsRuns(env, item, sender, key, cs);
    ClearDirection(env, item, sender, key, cs);
    var clear, f := Clear(env, item, sender, key, cs), Readable(env, key, cs);
    ParserClimbs(env, item, clear);
    if f < |cs| {
      var r := MpRun(env, item, FRESH, clear);
      var marked, ops := ChunkParser.MarkCannotDecrypt(r.item, sender, f), Opaques(env, item, sender, key, cs);
      var s := MpRun(env, marked, r.mp, ops);
      OpaquesShape(env, item, sender, key, cs);
      RawsStoreOnly(env, marked, r.mp, ops);
      ClimbsOn(r.effects, PutConnection(marked));
      OnlyChunks(s.effects, ops, f);
      ClimbsPast(r.effects + [PutConnection(marked)], s.effects, f);
      assert r.effects + [PutConnection(marked)] + s.effects == r.effects + ([PutConnection(marked)] + s.effects);
    }
  }

  /** Stores no message, and no chunk below `from`. */
  ghost predicate ChunksFrom(es: seq<Effect>, from: nat) {
    forall e :: e in es ==> !e.PutMessage? && (e.PutChunk? ==> from <= e.chunk.counter)
  }

  lemma OnlyChunks(es: seq<Effect>, cs: seq<Chunk>, from: nat)
    requires MessagesIn(es) == [] && ChunksIn(es) == cs && forall c :: c in cs ==> from <= c.counter
    ensures ChunksFrom(es, from)
  {
    forall e | e in es ensures !e.PutMessage? && (e.PutChunk? ==> from <= e.chunk.counter) {
      if e.PutMessage? {
        InMessages(es, e.message);
      } else if e.PutChunk? {
        InEffects(es, e.chunk);
      }
    }
  }

  lemma ClimbsPast(a: seq<Effect>, b: seq<Effect>, from: nat)
    requires Climbs(a) && ChunksFrom(b, from) && forall e :: e in a && e.PutMessage? ==> e.message.end <= from
    ensures Climbs(a + b)
  {
    forall i | |a| <= i < |a + b| ensures !(a + b)[i].PutMessage? {
      assert (a + b)[i] == b[i - |a|] && b[i - |a|] in b;
    }
    forall i, j | 0 <= i < j < |a + b| && (a + b)[i].PutMessage? ensures Below((a + b)[i].message, (a + b)[j]) {
      assert i < |a| && (a + b)[i] == a[i] && a[i] in a;
      if j >= |a| {
        assert (a + b)[j] == b[j - |a|] && b[j - |a|] in b;
      }
    }
  }

  /** Leaving out effects keeps the order. */
  lemma {:induction false} ByClimbs(es: seq<Effect>, sender: Sender)
    requires Climbs(es)
    ensures Climbs(By(es, sender))
  {
    if es != [] {
      var rest := es[1..];
      assert forall i :: 0 <= i < |rest| ==> rest[i] == es[i + 1];
      ByClimbs(rest, sender);
      var kept := By(rest, sender);
      if Concerns(es[0], sender) {
        forall j | 0 <= j < |kept| ensures es[0].PutMessage? ==> Below(es[0].message, kept[j]) {
          InBy(rest, sender, kept[j]);
          var k :| 0 <= k < |rest| && rest[k] == kept[j];
        }
        assert forall i :: 0 < i < |[es[0]] + kept| ==> ([es[0]] + kept)[i] == kept[i - 1];
      }
    }
  }

  /** In any run each direction stores in climbing order. */
  lemma DirectionClimbs(env: Env, c0: Conn, es: seq<Event>, sender: Sender)
    requires Inv(c0) && Fresh(c0) && Captured(es)
    ensures Climbs(By(Run(env, c0, es).1, sender))
  {
    hide Run, By, ChunkParser.MakeKeys, Keyed, Climbs, MessagesIn, ChunksIn, Of, Taken, EarlyOk, Completed, MpStep,
         Flatten, BytesOf;
    RunShape(env, c0, es);
    var (c, effects) := Run(env, c0, es);
    if !Over(es) {
      StillWaiting(env, c0, es, c, effects);
      NothingBy(sender);
      NothingClimbs();
    } else if !EarlyOk(es) || RunKeys(env, c0, es).None? {
      ClimbsWithoutMessages(By(effects, sender));
    } else {
      var key, stream := KeyFor(RunKeys(env, c0, es).value, sender), Of(es, sender);
      if FedAfter(es, sender) {
        KeyedClimbs(env, c0.item, sender, key, Chunks(stream));
        ByClimbs(Keyed(env, c0.item, sender, key, Chunks(stream)).effects, sender);
      } else {
        var cm := ConnectionChunk(c0.item, sender, FirstChunk(stream));
        MpRunOne(env, c0.item, FRESH, cm);
        ParserClimbs(env, c0.item, [cm]);
      }
    }
  }

  lemma NothingBy(sender: Sender)
    ensures By([], sender) == []
  {
  }

  /** What is stored next lies beyond the messages stored so far. */
  lemma NextIsAbove(pool: seq<Effect>, e: Effect, rest: seq<Effect>, sender: Sender, m: Message)
    requires Climbs(By(pool + [e] + rest, sender)) && Concerns(e, sender)
    ensures PutMessage(m) in pool && m.sender == sender ==> Below(m, e)
    ensures e.PutMessage? ==> e.message.first < e.message.end
  {
    hide By;
    var a := By(pool, sender);
    ByAppend(pool + [e], rest, sender);
    ByAppend(pool, [e], sender);
    OneBy(e, sender);
    var all := By(pool + [e] + rest, sender);
    assert all[|a|] == e;
    if PutMessage(m) in pool && m.sender == sender {
      InBy(pool, sender, PutMessage(m));
      var i :| 0 <= i < |a| && a[i] == PutMessage(m);
      assert all[i] == a[i];
    }
  }

  lemma OneBy(e: Effect, sender: Sender)
    requires Concerns(e, sender)
    ensures By([e], sender) == [e]
  {
    assert [e][1..] == [];
  }

  // ---------------------------------------------------------------- the rows of one connection

  /** A message was stored and is no longer listed. */
  ghost predicate Gone(t: Tables, pool: seq<Effect>, m: Message) {
    PutMessage(m) in pool && !Listed(t, m)
  }

  ghost predicate HasChunkRow(pool: seq<Effect>, k: ChunkKey) {
    exists c :: PutChunk(c) in pool && KeyOf(c) == k
  }

  /** The chunk rows of a connection are those it stored, without those of the
      messages that are gone. */
  ghost predicate ChunkRows(t: Tables, cn: ConnKey, pool: seq<Effect>) {
    forall k: ChunkKey :: k.cn == cn ==>
      (k in t.chunks <==> HasChunkRow(pool, k) && forall m :: Gone(t, pool, m) ==> !Owns(m, k))
  }

  ghost predicate ListedOnce(t: Tables, cn: ConnKey) {
    forall i, j :: i in t.messages && j in t.messages && i != j && t.messages[i].cn == cn ==> t.messages[i] != t.messages[j]
  }

  ghost predicate RecordRow(t: Tables, cn: ConnKey, pool: seq<Effect>) {
    RecordIn(pool) == if cn in t.connections then Some(t.connections[cn]) else None
  }

  /** The tables hold of connection `cn` what is left of `pool`. */
  ghost predicate Holds(t: Tables, cn: ConnKey, pool: seq<Effect>) {
    && AllAbout(pool, cn) && StemsFrom(t, cn, pool) && (forall id :: id in t.messages ==> id < t.counter)
    && ListedOnce(t, cn) && ChunkRows(t, cn, pool) && RecordRow(t, cn, pool)
  }

  lemma NothingHeld(limit: Option<nat>, cn: ConnKey)
    ensures Holds(Empty(limit), cn, [])
  {
  }

  lemma RemoveHolds(t: Tables, cn: ConnKey, pool: seq<Effect>, index: nat)
    requires Holds(t, cn, pool)
    ensures Holds(Removed(t, index), cn, pool)
  {
    if index in t.messages {
      var t', x := Removed(t, index), t.messages[index];
      RemoveStems(t, cn, pool, index);
      forall m: Message | m.cn == cn ensures Listed(t', m) <==> Listed(t, m) && m != x {
        if Listed(t, m) && m != x {
          var id :| id in t.messages && t.messages[id] == m;
          assert t'.messages[id] == m;
        }
        if Listed(t', m) {
          var id :| id in t'.messages && t'.messages[id] == m;
          assert t.messages[id] == m && id != index;
        }
      }
      RemovedChunks(t, cn, pool, index);
    }
  }

  lemma RemoveStems(t: Tables, cn: ConnKey, pool: seq<Effect>, index: nat)
    requires StemsFrom(t, cn, pool) && index in t.messages
    ensures StemsFrom(Removed(t, index), cn, pool)
  {
    var t' := Removed(t, index);
    forall k | k in t'.chunks && k.cn == cn ensures ChunkStored(pool, k, t'.chunks[k]) {
      assert ChunkStored(pool, k, t.chunks[k]);
    }
  }

  lemma RemovedChunks(t: Tables, cn: ConnKey, pool: seq<Effect>, index: nat)
    requires AllAbout(pool, cn) && StemsFrom(t, cn, pool) && ChunkRows(t, cn, pool) && index in t.messages
    requires forall m: Message :: m.cn == cn ==> (Listed(Removed(t, index), m) <==> Listed(t, m) && m != t.messages[index])
    ensures ChunkRows(Removed(t, index), cn, pool)
  {
    hide Listed, HasChunkRow;
    var t', x := Removed(t, index), t.messages[index];
    forall m ensures Gone(t', pool, m) <==> Gone(t, pool, m) || (m == x && x.cn == cn) {
      if PutMessage(m) in pool {
        assert About(PutMessage(m), cn);
      }
    }
    forall k: ChunkKey | k.cn == cn
      ensures k in t'.chunks <==> HasChunkRow(pool, k) && forall m :: Gone(t', pool, m) ==> !Owns(m, k)
    {
      assert k in t'.chunks <==> k in t.chunks && !Owns(x, k);
    }
  }

  ghost function With(pool: seq<Effect>, cn: ConnKey, e: Effect): seq<Effect> {
    if About(e, cn) then pool + [e] else pool
  }

  lemma AddHolds(t: Tables, cn: ConnKey, pool: seq<Effect>, index: nat, m: Message)
    requires Holds(t, cn, pool) && index < t.counter && index !in t.messages
    requires m.cn == cn ==> PutMessage(m) !in pool
    ensures Holds(AddMessage(t, index, m), cn, With(pool, cn, PutMessage(m)))
  {
    hide ChunkRows, StemsFrom, ListedOnce;
    AddStems(t, cn, pool, index, m);
    AddChunkRows(t, cn, pool, index, m);
    if m.cn == cn {
      RecordAppend(pool, [PutMessage(m)]);
    }
  }

  lemma AddChunkRows(t: Tables, cn: ConnKey, pool: seq<Effect>, index: nat, m: Message)
    requires AllAbout(pool, cn) && ChunkRows(t, cn, pool) && index !in t.messages
    requires m.cn == cn ==> PutMessage(m) !in pool
    ensures ChunkRows(AddMessage(t, index, m), cn, With(pool, cn, PutMessage(m)))
  {
    hide Listed, HasChunkRow;
    var t', pool' := AddMessage(t, index, m), With(pool, cn, PutMessage(m));
    AddedListed(t, index, m);
    forall x ensures Gone(t', pool', x) <==> Gone(t, pool, x) {
      if PutMessage(x) in pool {
        assert About(PutMessage(x), cn);
      }
    }
    forall k ensures HasChunkRow(pool', k) <==> HasChunkRow(pool, k) {
      SameChunkRows(pool, PutMessage(m), k);
    }
    forall k: ChunkKey | k.cn == cn
      ensures k in t'.chunks <==> HasChunkRow(pool', k) && forall x :: Gone(t', pool', x) ==> !Owns(x, k)
    {
    }
  }

  lemma SameChunkRows(pool: seq<Effect>, e: Effect, k: ChunkKey)
    ensures HasChunkRow(pool + [e], k) <==> HasChunkRow(pool, k) || (e.PutChunk? && KeyOf(e.chunk) == k)
  {
    if HasChunkRow(pool, k) {
      var c :| PutChunk(c) in pool && KeyOf(c) == k;
      assert PutChunk(c) in pool + [e];
    }
    if e.PutChunk? {
      assert PutChunk(e.chunk) in pool + [e];
    }
  }

  lemma AddedListed(t: Tables, index: nat, m: Message)
    requires index !in t.messages
    ensures forall x :: Listed(AddMessage(t, index, m), x) <==> Listed(t, x) || x == m
  {
    var t' := AddMessage(t, index, m);
    forall x ensures Listed(t', x) <==> Listed(t, x) || x == m {
      if Listed(t, x) {
        var id :| id in t.messages && t.messages[id] == x;
        assert t'.messages[id] == x;
      }
      assert t'.messages[index] == m;
    }
  }

  lemma AddStems(t: Tables, cn: ConnKey, pool: seq<Effect>, index: nat, m: Message)
    requires StemsFrom(t, cn, pool) && index !in t.messages && ListedOnce(t, cn) && (m.cn == cn ==> PutMessage(m) !in pool)
    ensures var t' := AddMessage(t, index, m); StemsFrom(t', cn, With(pool, cn, PutMessage(m))) && ListedOnce(t', cn)
  {
    if m.cn == cn {
      MoreStems(t, cn, pool, [PutMessage(m)]);
    }
  }

  lemma StoreHolds(t: Tables, cn: ConnKey, pool: seq<Effect>, m: Message)
    requires Holds(t, cn, pool) && (m.cn == cn ==> PutMessage(m) !in pool)
    ensures Holds(Stored(t, m), cn, With(pool, cn, PutMessage(m)))
  {
    hide Holds, AddMessage, Removed;
    var t' := t.(counter := t.counter + 1);
    CountedHolds(t, cn, pool);
    if t.limit.Some? && t.counter >= t.limit.value {
      RemoveHolds(t', cn, pool, t.counter - t.limit.value);
      RemovesOnly(t', t.counter - t.limit.value);
    }
    AddHolds(Evict(t', t.counter), cn, pool, t.counter, m);
  }

  lemma CountedHolds(t: Tables, cn: ConnKey, pool: seq<Effect>)
    requires Holds(t, cn, pool)
    ensures Holds(t.(counter := t.counter + 1), cn, pool) && t.counter !in t.messages
  {
    hide HasChunkRow, ChunkStored;
    var t' := t.(counter := t.counter + 1);
    forall m ensures Listed(t', m) <==> Listed(t, m) {
    }
    assert forall m :: Gone(t', pool, m) <==> Gone(t, pool, m);
  }

  lemma RemovesOnly(t: Tables, index: nat)
    ensures Removed(t, index).counter == t.counter && Removed(t, index).messages.Keys <= t.messages.Keys
  {
  }

  lemma ChunkHolds(t: Tables, cn: ConnKey, pool: seq<Effect>, c: Chunk)
    requires Holds(t, cn, pool)
    requires c.cn == cn ==> forall m :: PutMessage(m) in pool && m.sender == c.sender ==> m.end <= c.counter
    ensures Holds(Apply(t, PutChunk(c)), cn, With(pool, cn, PutChunk(c)))
  {
    hide ChunkRows, StemsFrom, ListedOnce;
    var t', pool' := Apply(t, PutChunk(c)), With(pool, cn, PutChunk(c));
    if c.cn == cn {
      MoreStems(t, cn, pool, [PutChunk(c)]);
      RecordAppend(pool, [PutChunk(c)]);
      assert PutChunk(c) in pool';
    }
    OneStems(t, cn, pool', PutChunk(c));
    PutChunkRows(t, cn, pool, c);
    OnceStill(t, t', cn);
  }

  lemma OnceStill(t: Tables, t': Tables, cn: ConnKey)
    requires t'.messages == t.messages && ListedOnce(t, cn)
    ensures ListedOnce(t', cn)
  {
  }

  lemma PutChunkRows(t: Tables, cn: ConnKey, pool: seq<Effect>, c: Chunk)
    requires AllAbout(pool, cn) && ChunkRows(t, cn, pool)
    requires c.cn == cn ==> forall m :: PutMessage(m) in pool && m.sender == c.sender ==> m.end <= c.counter
    ensures ChunkRows(Apply(t, PutChunk(c)), cn, With(pool, cn, PutChunk(c)))
  {
    hide Listed, HasChunkRow;
    var t', pool' := Apply(t, PutChunk(c)), With(pool, cn, PutChunk(c));
    SameListed(t, t');
    assert forall m :: Gone(t', pool', m) <==> Gone(t, pool, m);
    forall k: ChunkKey | k.cn == cn
      ensures k in t'.chunks <==> HasChunkRow(pool', k) && forall m :: Gone(t', pool', m) ==> !Owns(m, k)
    {
      SameChunkRows(pool, PutChunk(c), k);
    }
  }

  lemma SameListed(t: Tables, t': Tables)
    requires t'.messages == t.messages
    ensures forall m :: Listed(t', m) <==> Listed(t, m)
  {
  }

  lemma ConnectionHolds(t: Tables, cn: ConnKey, pool: seq<Effect>, item: ConnItem)
    requires Holds(t, cn, pool)
    ensures Holds(Apply(t, PutConnection(item)), cn, With(pool, cn, PutConnection(item)))
  {
    hide Listed, HasChunkRow;
    var t', e := Apply(t, PutConnection(item)), PutConnection(item);
    var pool' := With(pool, cn, e);
    SameListed(t, t');
    if item.key == cn {
      MoreStems(t, cn, pool, [e]);
      RecordAppend(pool, [e]);
      assert e in pool';
      forall k ensures HasChunkRow(pool', k) <==> HasChunkRow(pool, k) {
        SameChunkRows(pool, e, k);
      }
    }
    OneStems(t, cn, pool', e);
    assert forall m :: Gone(t', pool', m) <==> Gone(t, pool, m);
  }

  /** `e` may be stored after `pool`. */
  ghost predicate MayFollow(pool: seq<Effect>, e: Effect) {
    match e
    case PutConnection(_) => true
    case PutChunk(c) => forall m :: PutMessage(m) in pool && m.sender == c.sender ==> m.end <= c.counter
    case PutMessage(n) =>
      n.first < n.end && forall m :: PutMessage(m) in pool && m.sender == n.sender ==> m.end <= n.first
  }

  lemma OneHolds(t: Tables, cn: ConnKey, pool: seq<Effect>, e: Effect)
    requires Holds(t, cn, pool) && (About(e, cn) ==> MayFollow(pool, e))
    ensures Holds(Apply(t, e), cn, With(pool, cn, e))
  {
    hide Holds;
    match e
    case PutConnection(item) => ConnectionHolds(t, cn, pool, item);
    case PutChunk(c) => ChunkHolds(t, cn, pool, c);
    case PutMessage(m) => StoreHolds(t, cn, pool, m);
  }

  /** The effects of another connection change nothing, those of this one are
      added. */
  lemma {:induction false} OthersHold(t: Tables, cn: ConnKey, pool: seq<Effect>, es: seq<Effect>)
    requires Holds(t, cn, pool) && forall e :: e in es ==> !About(e, cn)
    ensures Holds(ApplyAll(t, es), cn, pool)
    decreases |es|
  {
    hide Holds, Apply, About;
    if es != [] {
      var n := |es| - 1;
      OthersHold(t, cn, pool, es[..n]);
      OneHolds(ApplyAll(t, es[..n]), cn, pool, es[n]);
      assert es[n] in es;
    }
  }

  lemma {:induction false} OwnHold(t: Tables, cn: ConnKey, pool: seq<Effect>, es: seq<Effect>)
    requires Holds(t, cn, pool) && AllAbout(es, cn)
    requires forall sender :: Climbs(By(pool + es, sender))
    ensures Holds(ApplyAll(t, es), cn, pool + es)
    decreases |es|
  {
    hide Holds, Apply, About, Climbs, By;
    OwnHoldTo(t, cn, pool, es, |es|);
    assert es[..|es|] == es;
  }

  lemma {:induction false} OwnHoldTo(t: Tables, cn: ConnKey, pool: seq<Effect>, es: seq<Effect>, n: nat)
    requires Holds(t, cn, pool) && AllAbout(es, cn) && n <= |es|
    requires forall sender :: Climbs(By(pool + es, sender))
    ensures Holds(ApplyAll(t, es[..n]), cn, pool + es[..n])
    decreases n
  {
    hide Holds, Apply, About, Climbs, By, MayFollow;
    if n == 0 {
      assert es[..0] == [] && pool + [] == pool;
    } else {
      var k := n - 1;
      OwnHoldTo(t, cn, pool, es, k);
      assert es[..n][..k] == es[..k];
      FollowsOn(pool + es[..k], es[k], es[n..], pool + es);
      assert es[k] in es;
      OneHolds(ApplyAll(t, es[..k]), cn, pool + es[..k], es[k]);
      assert pool + es[..k] + [es[k]] == pool + es[..n];
    }
  }

  lemma FollowsOn(pool: seq<Effect>, e: Effect, rest: seq<Effect>, all: seq<Effect>)
    requires all == pool + [e] + rest && forall sender :: Climbs(By(all, sender))
    ensures MayFollow(pool, e)
  {
    hide Climbs, By;
    if !e.PutConnection? {
      var sender := if e.PutChunk? then e.chunk.sender else e.message.sender;
      forall m | PutMessage(m) in pool && m.sender == sender ensures Below(m, e) {
        NextIsAbove(pool, e, rest, sender, m);
      }
      if e.PutMessage? {
        NextIsAbove(pool, e, rest, sender, e.message);
      }
    }
  }

  // ---------------------------------------------------------------- every run of the recorder

  /** What a payload adds to what its connection stored. */
  lemma OriginGrows(env: Env, s: Recorder.System, events: seq<Recorder.Event>, cn: ConnKey)
    requires events != [] && events[|events| - 1].Data? && Recorder.Good(s)
    requires Follows(env, s, events[..|events| - 1], cn)
    ensures var e, before := events[|events| - 1], Origin(env, events[..|events| - 1], cn);
            Origin(env, events, cn) ==
            if e.key == cn && cn in s.conns then
              ConnOf(s, cn); before + Step(env, s.conns[cn], e.payload, e.incoming).1
            else before
  {
    hide Recorder.Good, StemsFrom, Keeps, Inv, NewConn, Run, Step;
    var n := |events| - 1;
    var e := events[n];
    if e.key == cn && cn in s.conns {
      var c0 := Opening(events, cn).value;
      RunAdd(env, c0, Traffic(events[..n], cn), Event(e.payload, SenderOf(e.incoming)));
      assert SenderOf(e.incoming).Remote? == e.incoming;
    }
  }

  /** Opening, closing and restarting store nothing. */
  lemma OriginStays(env: Env, s: Recorder.System, events: seq<Recorder.Event>, cn: ConnKey)
    requires events != [] && !events[|events| - 1].Data? && Recorder.Possible(s, events[|events| - 1])
    requires Follows(env, s, events[..|events| - 1], cn)
    ensures Origin(env, events, cn) == Origin(env, events[..|events| - 1], cn)
  {
    hide StemsFrom, Keeps, Inv, NewConn;
    var n := |events| - 1;
    if events[n].Opened? && events[n].key == cn {
      assert Traffic(events, cn) == [];
    }
  }

  lemma OriginClimbs(env: Env, s: Recorder.System, events: seq<Recorder.Event>, cn: ConnKey)
    requires Follows(env, s, events, cn)
    ensures forall sender :: Climbs(By(Origin(env, events, cn), sender))
  {
    hide Run, By, Climbs, StemsFrom, Keeps, Inv, Fresh, Opening, Traffic, Alive;
    OpeningFresh(events, cn);
    forall sender ensures Climbs(By(Origin(env, events, cn), sender)) {
      match Opening(events, cn)
      case None =>
        NothingBy(sender);
        NothingClimbs();
      case Some(c0) => DirectionClimbs(env, c0, Traffic(events, cn), sender);
    }
  }

  lemma DataHolds(env: Env, s: Recorder.System, events: seq<Recorder.Event>, cn: ConnKey)
    requires events != [] && events[|events| - 1].Data? && Recorder.Good(s)
    requires Follows(env, s, events[..|events| - 1], cn)
    requires Follows(env, Recorder.Next(env, s, events[|events| - 1]), events, cn)
    requires Holds(s.tables, cn, Origin(env, events[..|events| - 1], cn))
    ensures Holds(Recorder.Next(env, s, events[|events| - 1]).tables, cn, Origin(env, events, cn))
  {
    hide Recorder.Good, Follows, Holds, Step, ApplyAll, Origin, Climbs, By, About;
    var n := |events| - 1;
    var e := events[n];
    OriginGrows(env, s, events, cn);
    OriginClimbs(env, Recorder.Next(env, s, e), events, cn);
    var pool := Origin(env, events[..n], cn);
    if e.key in s.conns {
      ConnOf(s, e.key);
      PayloadAbout(env, s.conns[e.key], e.payload, e.incoming);
      var more := Step(env, s.conns[e.key], e.payload, e.incoming).1;
      if e.key == cn {
        OwnHold(s.tables, cn, pool, more);
      } else {
        OtherAbout(more, e.key, cn);
        OthersHold(s.tables, cn, pool, more);
      }
    }
  }

  lemma ReopenedHolds(t: Tables, cn: ConnKey, pool: seq<Effect>)
    requires Holds(t, cn, pool)
    ensures Holds(Reopened(t), cn, pool)
  {
    hide NextId, HasChunkRow, ChunkStored;
    SameListed(t, Reopened(t));
    assert forall m :: Gone(Reopened(t), pool, m) <==> Gone(t, pool, m);
  }

  lemma StoresNothing(env: Env, s: Recorder.System, events: seq<Recorder.Event>, cn: ConnKey)
    requires events != [] && !events[|events| - 1].Data? && Recorder.Good(s)
    requires Recorder.Possible(s, events[|events| - 1]) && Follows(env, s, events[..|events| - 1], cn)
    requires Holds(s.tables, cn, Origin(env, events[..|events| - 1], cn))
    ensures Holds(Recorder.Next(env, s, events[|events| - 1]).tables, cn, Origin(env, events, cn))
  {
    hide Follows, Holds, Origin, Recorder.Possible, Recorder.Good, Reopened;
    OriginStays(env, s, events, cn);
    ReopenedHolds(s.tables, cn, Origin(env, events, cn));
  }

  lemma {:induction false} EachHolds(env: Env, limit: Option<nat>, events: seq<Recorder.Event>, cn: ConnKey)
    requires Recorder.After(env, limit, events).Some?
    ensures Holds(Recorder.After(env, limit, events).value.tables, cn, Origin(env, events, cn))
    decreases |events|
  {
    if events == [] {
      NothingHeld(limit, cn);
    } else {
      hide Follows, Holds, Origin, Recorder.Possible, Recorder.Next, Recorder.Good;
      var n := |events| - 1;
      EachHolds(env, limit, events[..n], cn);
      EachFollows(env, limit, events[..n], cn);
      EachFollows(env, limit, events, cn);
      var s := Recorder.After(env, limit, events[..n]).value;
      if events[n].Data? {
        DataHolds(env, s, events, cn);
      } else {
        StoresNothing(env, s, events, cn);
      }
    }
  }

  /** The chunk table, whatever connections, evictions and restarts there were: a
      chunk is there exactly when its connection stored it and no message that
      was stored and is no longer listed owns it. */
  lemma ChunksExactly(env: Env, limit: Option<nat>, events: seq<Recorder.Event>, k: ChunkKey)
    requires Recorder.After(env, limit, events).Some?
    ensures var t, pool := Recorder.After(env, limit, events).value.tables, Origin(env, events, k.cn);
            k in t.chunks <==>
            (exists c :: PutChunk(c) in pool && KeyOf(c) == k) &&
            forall m :: PutMessage(m) in pool && !Listed(t, m) ==> !Owns(m, k)
    ensures var t, pool := Recorder.After(env, limit, events).value.tables, Origin(env, events, k.cn);
            k in t.chunks ==>
              exists c :: PutChunk(c) in pool && KeyOf(c) == k && t.chunks[k] == ChunkValue(c.bytes, c.plain)
  {
    hide Recorder.After, Origin, Listed;
    EachHolds(env, limit, events, k.cn);
    var t, pool := Recorder.After(env, limit, events).value.tables, Origin(env, events, k.cn);
    if forall m :: PutMessage(m) in pool && !Listed(t, m) ==> !Owns(m, k) {
      assert forall m :: Gone(t, pool, m) ==> !Owns(m, k);
    } else {
      var m :| PutMessage(m) in pool && !Listed(t, m) && Owns(m, k);
      assert Gone(t, pool, m);
    }
    assert HasChunkRow(pool, k) <==> exists c :: PutChunk(c) in pool && KeyOf(c) == k;
    if k in t.chunks {
      assert ChunkStored(pool, k, t.chunks[k]);
    }
  }

  /** The connection table: a connection is there exactly when its handshake is
      over, and its row is what `IsRecord` says of the captured bytes. */
  lemma ConnectionsExactly(env: Env, limit: Option<nat>, events: seq<Recorder.Event>, cn: ConnKey)
    requires Recorder.After(env, limit, events).Some?
    ensures var t, es := Recorder.After(env, limit, events).value.tables, Traffic(events, cn);
            && (cn in t.connections <==> Opening(events, cn).Some? && Over(es))
            && (cn in t.connections ==>
                  var c0, row := Opening(events, cn).value, t.connections[cn];
                  && IsRecord(env, c0, es, Origin(env, events, cn), row)
                  && row.key == cn && Recorder.Opened(cn, row.initiator, row.remoteAddr) in events
                  && c0.item.peerPk == seq(32, _ => 0))
  {
    hide Recorder.After, Over, IsRecord, ListedOnce, ChunkRows, StemsFrom, Keeps, RecordIn, Run, Inv, Fresh, Opening,
         Traffic, Alive;
    EachHolds(env, limit, events, cn);
    EachFollows(env, limit, events, cn);
    OpeningFresh(events, cn);
    match Opening(events, cn)
    case None => NoRecordIn([]);
    case Some(c0) =>
      RunRecord(env, c0, Traffic(events, cn));
      OpeningIs(events, cn);
      FreshKey(c0);
      if Over(Traffic(events, cn)) {
        RecordNames(env, c0, Traffic(events, cn), Origin(env, events, cn), RecordIn(Origin(env, events, cn)).value);
      }
  }

  /** And its remark on a suspicious chunk is the last one there was when the
      record was stored. */
  lemma SuspicionExactly(env: Env, limit: Option<nat>, events: seq<Recorder.Event>, cn: ConnKey)
    requires SoundCrypto(env) && Recorder.After(env, limit, events).Some?
    requires cn in Recorder.After(env, limit, events).value.tables.connections
    ensures Opening(events, cn).Some?
    ensures var c0, es := Opening(events, cn).value, Traffic(events, cn);
            SuspicionOf(Recorder.After(env, limit, events).value.tables.connections[cn]) ==
            LastSuspect(env, c0, es[..LastStored(env, c0, es)])
  {
    hide Recorder.After, Over, IsRecord, ListedOnce, ChunkRows, StemsFrom, Keeps, RecordIn, Run, Inv, Fresh, Opening,
         Traffic, Alive, LastSuspect, LastStored, SoundCrypto;
    ConnectionsExactly(env, limit, events, cn);
    EachHolds(env, limit, events, cn);
    EachFollows(env, limit, events, cn);
    OpeningFresh(events, cn);
    RowSuspicion(env, Opening(events, cn).value, Traffic(events, cn));
  }

  lemma FreshKey(c: Conn)
    requires Fresh(c)
    ensures c.item.peerPk == seq(32, _ => 0)
  {
  }

  lemma RecordNames(env: Env, c0: Conn, es: seq<Event>, effects: seq<Effect>, row: ConnItem)
    requires Over(es) && IsRecord(env, c0, es, effects, row)
    ensures row.key == c0.item.key && row.initiator == c0.item.initiator && row.remoteAddr == c0.item.remoteAddr
  {
  }

  /** Every listed message names the opener and the address of its connection and
      the time of its last chunk. */
  lemma ListedSays(env: Env, limit: Option<nat>, events: seq<Recorder.Event>, id: nat)
    requires SoundCrypto(env) && Recorder.After(env, limit, events).Some?
    requires id in Recorder.After(env, limit, events).value.tables.messages
    ensures var m := Recorder.After(env, limit, events).value.tables.messages[id];
            && Recorder.Opened(m.cn, m.initiator, m.remoteAddr) in events
            && m.first < m.end && m.timestamp == env.clock(m.cn, m.sender, m.end - 1)
  {
    hide Recorder.After, Run, Inv, Fresh, Opening, Traffic, Alive, StemsFrom, Keeps, SoundCrypto;
    var t := Recorder.After(env, limit, events).value.tables;
    var m := t.messages[id];
    var pool := Origin(env, events, m.cn);
    EachFollows(env, limit, events, m.cn);
    MessageStems(t, m.cn, pool, id);
    OpeningFresh(events, m.cn);
    OpeningIs(events, m.cn);
    StoredSays(env, Opening(events, m.cn).value, Traffic(events, m.cn), m);
    Recorder.Nonempty(env, limit, events, id);
  }

  lemma StoredSays(env: Env, c0: Conn, es: seq<Event>, m: Message)
    requires SoundCrypto(env) && Inv(c0) && Fresh(c0) && Captured(es) && PutMessage(m) in Run(env, c0, es).1
    ensures RowOf(env, c0.item, m.sender, m)
  {
    hide Run, By, MessagesIn, ChunksIn, Inv, Fresh, EarlyOk, FedAfter, Of, RowOf, SoundCrypto, Shape, RunKeys,
         HandshakeMessage, IsPeerMessage, Ordered;
    var effects := Run(env, c0, es).1;
    InBy(effects, m.sender, PutMessage(m));
    InMessages(By(effects, m.sender), m);
    RunShape(env, c0, es);
    if !Over(es) {
      StillWaiting(env, c0, es, Run(env, c0, es).0, effects);
    } else if !EarlyOk(es) {
      GivenUp(env, c0, es, m.sender);
    } else {
      match RunKeys(env, c0, es)
      case None => NoKey(env, c0, es, m.sender);
      case Some(keys) =>
        if FedAfter(es, m.sender) {
          RunRanges(env, c0, es, m.sender, keys);
        } else {
          UnfedDirection(env, c0, es, m.sender, keys);
        }
    }
  }
}
