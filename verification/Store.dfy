/** The message database: the primary table, five secondary indexes kept by
    hand, the chunk table and the eviction of old messages. */
module Store {
  import opened Wrappers
  import opened Bytes
  import opened Common
  import opened IndexKeys

  type Key = seq<byte>

  /** The value of the database: one component per column family, plus the
      in-memory counter and the configured limit. */
  datatype Tables = Tables(
    limit: Option<nat>,
    counter: nat,
    messages: map<nat, Message>,
    byType: set<Key>,
    bySender: set<Key>,
    byInitiator: set<Key>,
    byAddr: set<Key>,
    byTimestamp: set<Key>,
    chunks: map<ChunkKey, ChunkValue>,
    connections: map<ConnKey, ConnItem>)

  function Empty(limit: Option<nat>): Tables {
    Tables(limit, 0, map[], {}, {}, {}, {}, {}, map[], map[])
  }

  /** The chunk row `k` belongs to message `m`. */
  predicate Owns(m: Message, k: ChunkKey) {
    k.cn == m.cn && k.sender == m.sender && m.first <= k.counter < m.end
  }

  function Removed(t: Tables, index: nat): Tables {
    if index !in t.messages then t
    else
      var m := t.messages[index];
      t.(chunks := map k | k in t.chunks && !Owns(m, k) :: t.chunks[k],
         byType := t.byType - {TypeKey(m.ty, index)},
         bySender := t.bySender - {SenderKey(m.sender, index)},
         byInitiator := t.byInitiator - {InitiatorKey(m.initiator, index)},
         byAddr := t.byAddr - {AddrKey(m.remoteAddr, index)},
         byTimestamp := t.byTimestamp - {TimestampKey(m.timestamp, index)},
         messages := t.messages - {index})
  }

  /** The message a store pushes out: the one `limit` positions back. */
  function Evict(t: Tables, index: nat): Tables {
    if t.limit.Some? && index >= t.limit.value then Removed(t, index - t.limit.value) else t
  }

  function AddMessage(t: Tables, index: nat, m: Message): Tables {
    t.(byType := t.byType + {TypeKey(m.ty, index)},
       bySender := t.bySender + {SenderKey(m.sender, index)},
       byInitiator := t.byInitiator + {InitiatorKey(m.initiator, index)},
       byAddr := t.byAddr + {AddrKey(m.remoteAddr, index)},
       byTimestamp := t.byTimestamp + {TimestampKey(m.timestamp, index)},
       messages := t.messages[index := m])
  }

  function Stored(t: Tables, m: Message): Tables {
    AddMessage(Evict(t.(counter := t.counter + 1), t.counter), t.counter, m)
  }

  function Apply(t: Tables, e: Effect): Tables {
    match e
    case PutConnection(item) => t.(connections := t.connections[item.key := item])
    case PutChunk(c) => t.(chunks := t.chunks[KeyOf(c) := ValueOf(c)])
    case PutMessage(m) => Stored(t, m)
  }

  function ApplyAll(t: Tables, es: seq<Effect>): Tables {
    if es == [] then t else Apply(ApplyAll(t, es[..|es| - 1]), es[|es| - 1])
  }

  lemma {:induction false} ApplyAllAppend(t: Tables, a: seq<Effect>, b: seq<Effect>)
    ensures ApplyAll(t, a + b) == ApplyAll(ApplyAll(t, a), b)
    decreases |b|
  {
    if b == [] {
      assert a + b == a;
    } else {
      assert (a + b)[..|a + b| - 1] == a + b[..|b| - 1];
      ApplyAllAppend(t, a, b[..|b| - 1]);
    }
  }

  /** One past the greatest id of the primary table, 0 when it is empty. */
  ghost function NextId(ids: set<nat>): (n: nat)
    ensures forall i :: i in ids ==> i < n
    ensures n > 0 ==> n - 1 in ids
  {
    if ids == {} then 0
    else
      var i :| i in ids;
      var rest := NextId(ids - {i});
      assert forall j :: j in ids ==> j == i || j in ids - {i};
      if i < rest then rest else i + 1
  }

  /** A restart: the tables persist, the counter is recovered from the last row. */
  ghost function Reopened(t: Tables): Tables {
    t.(counter := NextId(t.messages.Keys))
  }


  /** `found` are the chunks of `m`, in order, up to the first one missing. */
  ghost predicate IsDetails(t: Tables, m: Message, found: seq<ChunkValue>) {
    && (m.first + |found| <= m.end || found == [])
    && (forall c :: m.first <= c < m.first + |found| ==>
          ChunkKey(m.cn, c, m.sender) in t.chunks &&
          found[c - m.first] == t.chunks[ChunkKey(m.cn, c, m.sender)])
    && (m.first + |found| < m.end ==> ChunkKey(m.cn, m.first + |found|, m.sender) !in t.chunks)
  }

  class Db {
    const messageStoreLimit: Option<nat>
    var messageCounter: nat
    var messages: map<nat, Message>
    var byType: set<Key>
    var bySender: set<Key>
    var byInitiator: set<Key>
    var byAddr: set<Key>
    var byTimestamp: set<Key>
    var chunks: map<ChunkKey, ChunkValue>
    var connections: map<ConnKey, ConnItem>

    ghost function State(): Tables
      reads this
    {
      Tables(messageStoreLimit, messageCounter, messages, byType, bySender, byInitiator, byAddr,
             byTimestamp, chunks, connections)
    }

    constructor (limit: Option<nat>)
      ensures State() == Empty(limit)
    {
      messageStoreLimit := limit;
      messageCounter := 0;
      messages := map[];
      byType, bySender, byInitiator, byAddr, byTimestamp := {}, {}, {}, {}, {};
      chunks := map[];
      connections := map[];
    }

    /** Recovering the counter when the database is opened again. */
    method Reopen()
      modifies this
      ensures State() == Reopened(old(State()))
    {
      var ids := messages.Keys;
      var next := 0;
      while ids != {}
        invariant ids <= messages.Keys
        invariant forall i :: i in messages && i !in ids ==> i < next
        invariant next > 0 ==> next - 1 in messages
        decreases ids
      {
        var i :| i in ids;
        if i >= next {
          next := i + 1;
        }
        ids := ids - {i};
      }
      ghost var n := NextId(messages.Keys);
      assert forall i :: i in messages ==> i < n && i < next;
      assert n > 0 ==> n - 1 < next;
      assert next > 0 ==> next - 1 < n;
      messageCounter := next;
    }

    method StoreConnection(item: ConnItem)
      modifies this
      ensures State() == Apply(old(State()), PutConnection(item))
    {
      connections := connections[item.key := item];
    }

    method UpdateConnection(item: ConnItem)
      modifies this
      ensures State() == Apply(old(State()), PutConnection(item))
    {
      connections := connections - {item.key};
      connections := connections[item.key := item];
      assert connections == old(connections)[item.key := item];
    }

    method StoreChunk(c: Chunk)
      modifies this
      ensures State() == Apply(old(State()), PutChunk(c))
    {
      chunks := chunks[KeyOf(c) := ValueOf(c)];
    }

    /** Deleting the chunk rows of an evicted message, one by one. */
    method DeleteChunks(m: Message)
      modifies this`chunks
      ensures chunks == map k | k in old(chunks) && !Owns(m, k) :: old(chunks)[k]
    {
      var i := m.first;
      while i < m.end
        invariant m.first <= i
        invariant m.first <= m.end ==> i <= m.end
        invariant chunks == map k | k in old(chunks) && !(Owns(m, k) && k.counter < i) :: old(chunks)[k]
      {
        chunks := chunks - {ChunkKey(m.cn, i, m.sender)};
        i := i + 1;
      }
    }

    method RemoveMessage(index: nat)
      modifies this
      ensures State() == Removed(old(State()), index)
    {
      if index in messages {
        var m := messages[index];
        DeleteChunks(m);
        byType := byType - {TypeKey(m.ty, index)};
        bySender := bySender - {SenderKey(m.sender, index)};
        byInitiator := byInitiator - {InitiatorKey(m.initiator, index)};
        byAddr := byAddr - {AddrKey(m.remoteAddr, index)};
        byTimestamp := byTimestamp - {TimestampKey(m.timestamp, index)};
        messages := messages - {index};
      }
    }

    method StoreMessage(m: Message)
      modifies this
      ensures State() == Stored(old(State()), m)
    {
      hide TypeKey, SenderKey, InitiatorKey, AddrKey, TimestampKey, Removed;
      var index := messageCounter;
      messageCounter := messageCounter + 1;
      if messageStoreLimit.Some? && index >= messageStoreLimit.value {
        RemoveMessage(index - messageStoreLimit.value);
      }
      byType := byType + {TypeKey(m.ty, index)};
      bySender := bySender + {SenderKey(m.sender, index)};
      byInitiator := byInitiator + {InitiatorKey(m.initiator, index)};
      byAddr := byAddr + {AddrKey(m.remoteAddr, index)};
      byTimestamp := byTimestamp + {TimestampKey(m.timestamp, index)};
      messages := messages[index := m];
    }

    /** The chunks of a message, up to the first one that is missing. */
    method Details(m: Message) returns (found: seq<ChunkValue>)
      ensures IsDetails(State(), m, found)
    {
      found := [];
      var i := m.first;
      while i < m.end
        invariant m.first <= i == m.first + |found|
        invariant i <= m.end || found == []
        invariant forall c :: m.first <= c < i ==>
                    ChunkKey(m.cn, c, m.sender) in chunks &&
                    found[c - m.first] == chunks[ChunkKey(m.cn, c, m.sender)]
      {
        var key := ChunkKey(m.cn, i, m.sender);
        if key !in chunks {
          return;
        }
        found := found + [chunks[key]];
        i := i + 1;
      }
    }
  }
}
