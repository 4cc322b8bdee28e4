/** What the message database keeps over any sequence of operations and
    restarts. */
module StoreLaws {
  import opened Wrappers
  import opened Bytes
  import opened Common
  import opened IndexKeys
  import opened Store

  /** The oldest id still stored after `n` messages: the last `limit` are
      kept. Without a limit nothing is evicted, and neither is it with the
      limit 0, since the message evicted would be the one being stored. */
  function Oldest(limit: Option<nat>, n: nat): nat {
    match limit
    case None => 0
    case Some(l) => if 0 < l < n then n - l else 0
  }

  ghost predicate Window(t: Tables) {
    forall i :: i in t.messages <==> Oldest(t.limit, t.counter) <= i < t.counter
  }

  // the rows a message has in the five indexes
  function TypeRow(m: Message, i: nat): Key { TypeKey(m.ty, i) }
  function SenderRow(m: Message, i: nat): Key { SenderKey(m.sender, i) }
  function InitiatorRow(m: Message, i: nat): Key { InitiatorKey(m.initiator, i) }
  function AddrRow(m: Message, i: nat): Key { AddrKey(m.remoteAddr, i) }
  function TimestampRow(m: Message, i: nat): Key { TimestampKey(m.timestamp, i) }

  ghost function Image(ms: map<nat, Message>, row: (Message, nat) -> Key): set<Key> {
    set i | i in ms :: row(ms[i], i)
  }

  /** Every index is exactly the image of the primary table. */
  ghost predicate Agree(t: Tables) {
    && t.byType == Image(t.messages, TypeRow)
    && t.bySender == Image(t.messages, SenderRow)
    && t.byInitiator == Image(t.messages, InitiatorRow)
    && t.byAddr == Image(t.messages, AddrRow)
    && t.byTimestamp == Image(t.messages, TimestampRow)
  }

  lemma TagKeyInjective(a: byte, i: nat, b: byte, j: nat)
    requires i < TWO56 && j < TWO56 && TagKey(a, i) == TagKey(b, j)
    ensures i == j && a == b
  {
    hide TagKey, BeBytes;
    TagKeyShape(a, i);
    TagKeyShape(b, j);
    assert ([a] + BeBytes(i, 7))[0] == a && ([b] + BeBytes(j, 7))[0] == b;
  }

  lemma AddrKeyInjective(a: SocketAddr, i: nat, b: SocketAddr, j: nat)
    requires i < TWO48 && j < TWO48 && AddrKey(a, i) == AddrKey(b, j)
    ensures i == j
  {
    hide AddrKey, BeBytes, AddrIndex, AddrPrefix;
    AddrKeyShape(a, i);
    AddrKeyShape(b, j);
  }

  lemma TimestampKeyInjective(a: u64, i: nat, b: u64, j: nat)
    requires i < TWO64 && j < TWO64 && TimestampKey(a, i) == TimestampKey(b, j)
    ensures i == j
  {
    PowFacts();
    assert TimestampKey(a, i)[8..] == BeBytes(i, 8) && TimestampKey(b, j)[8..] == BeBytes(j, 8);
    BeExact(i, 8);
    BeExact(j, 8);
  }

  /** Below 2^48 two different ids never share an index row. */
  lemma RowsApart(m: Message, i: nat, m': Message, j: nat)
    requires i < TWO48 && j < TWO48 && i != j
    ensures TypeRow(m, i) != TypeRow(m', j)
    ensures SenderRow(m, i) != SenderRow(m', j)
    ensures InitiatorRow(m, i) != InitiatorRow(m', j)
    ensures AddrRow(m, i) != AddrRow(m', j)
    ensures TimestampRow(m, i) != TimestampRow(m', j)
  {
    hide TagKey, AddrKey, TimestampKey, TypeCode, BoolTag;
    if TypeRow(m, i) == TypeRow(m', j) {
      TagKeyInjective(TypeCode(m.ty), i, TypeCode(m'.ty), j);
    }
    if SenderRow(m, i) == SenderRow(m', j) {
      TagKeyInjective(BoolTag(m.sender.Remote?), i, BoolTag(m'.sender.Remote?), j);
    }
    if InitiatorRow(m, i) == InitiatorRow(m', j) {
      TagKeyInjective(BoolTag(m.initiator.InitiatorRemote?), i, BoolTag(m'.initiator.InitiatorRemote?), j);
    }
    if AddrRow(m, i) == AddrRow(m', j) {
      AddrKeyInjective(m.remoteAddr, i, m'.remoteAddr, j);
    }
    if TimestampRow(m, i) == TimestampRow(m', j) {
      TimestampKeyInjective(m.timestamp, i, m'.timestamp, j);
    }
  }

  ghost predicate Bounded(t: Tables) {
    forall i :: i in t.messages ==> i < TWO48
  }

  /** Removing the row of one id from the image leaves the image of the
      others, for rows that tell ids apart. */
  lemma ImageWithout(ms: map<nat, Message>, index: nat, row: (Message, nat) -> Key)
    requires index in ms
    requires forall i :: i in ms && i != index ==> row(ms[i], i) != row(ms[index], index)
    ensures Image(ms, row) - {row(ms[index], index)} == Image(ms - {index}, row)
  {
    var rest := ms - {index};
    forall k | k in Image(ms, row) - {row(ms[index], index)} ensures k in Image(rest, row) {
      var i :| i in ms && row(ms[i], i) == k;
      assert i in rest && rest[i] == ms[i];
    }
    forall k | k in Image(rest, row) ensures k in Image(ms, row) - {row(ms[index], index)} {
      var i :| i in rest && row(rest[i], i) == k;
      assert i in ms && rest[i] == ms[i];
    }
  }

  lemma RemoveAgrees(t: Tables, index: nat)
    requires Agree(t) && Bounded(t)
    ensures Agree(Removed(t, index))
  {
    hide TypeKey, SenderKey, InitiatorKey, AddrKey, TimestampKey, Image;
    if index in t.messages {
      var ms := t.messages;
      forall i | i in ms && i != index
        ensures TypeRow(ms[i], i) != TypeRow(ms[index], index)
        ensures SenderRow(ms[i], i) != SenderRow(ms[index], index)
        ensures InitiatorRow(ms[i], i) != InitiatorRow(ms[index], index)
        ensures AddrRow(ms[i], i) != AddrRow(ms[index], index)
        ensures TimestampRow(ms[i], i) != TimestampRow(ms[index], index)
      {
        RowsApart(ms[i], i, ms[index], index);
      }
      ImageWithout(ms, index, TypeRow);
      ImageWithout(ms, index, SenderRow);
      ImageWithout(ms, index, InitiatorRow);
      ImageWithout(ms, index, AddrRow);
      ImageWithout(ms, index, TimestampRow);
    }
  }

  lemma ImageWith(ms: map<nat, Message>, index: nat, m: Message, row: (Message, nat) -> Key)
    requires index !in ms
    ensures Image(ms, row) + {row(m, index)} == Image(ms[index := m], row)
  {
    var more := ms[index := m];
    forall k | k in Image(ms, row) + {row(m, index)} ensures k in Image(more, row) {
      if k == row(m, index) {
        assert index in more && more[index] == m;
      } else {
        var i :| i in ms && row(ms[i], i) == k;
        assert i in more && more[i] == ms[i];
      }
    }
    forall k | k in Image(more, row) ensures k in Image(ms, row) + {row(m, index)} {
      var i :| i in more && row(more[i], i) == k;
      assert i != index ==> i in ms && more[i] == ms[i];
    }
  }

  lemma AddAgrees(t: Tables, index: nat, m: Message)
    requires Agree(t) && index !in t.messages
    ensures Agree(AddMessage(t, index, m))
  {
    hide TypeKey, SenderKey, InitiatorKey, AddrKey, TimestampKey, Image;
    var ms := t.messages;
    ImageWith(ms, index, m, TypeRow);
    ImageWith(ms, index, m, SenderRow);
    ImageWith(ms, index, m, InitiatorRow);
    ImageWith(ms, index, m, AddrRow);
    ImageWith(ms, index, m, TimestampRow);
  }

  /** Storing a message moves the window on by one. */
  lemma StoreMovesWindow(t: Tables, m: Message)
    requires Window(t)
    ensures Window(Stored(t, m))
  {
  }

  lemma StoreAgrees(t: Tables, m: Message)
    requires Window(t) && Agree(t) && t.counter < TWO48
    ensures Agree(Stored(t, m))
  {
    hide Agree, AddMessage, Removed;
    var t' := t.(counter := t.counter + 1);
    AgreeIgnoresCounter(t, t.counter + 1);
    if t.limit.Some? && t.counter >= t.limit.value {
      var index := t.counter - t.limit.value;
      RemoveAgrees(t', index);
      RemoveOnly(t', index);
    }
    AddAgrees(Evict(t', t.counter), t.counter, m);
  }

  lemma AgreeIgnoresCounter(t: Tables, n: nat)
    requires Agree(t)
    ensures Agree(t.(counter := n))
  {
  }

  lemma RemoveOnly(t: Tables, index: nat)
    ensures Removed(t, index).messages.Keys == t.messages.Keys - {index}
    ensures forall i :: i in t.messages && i != index ==> Removed(t, index).messages[i] == t.messages[i]
    ensures Removed(t, index).counter == t.counter && Removed(t, index).limit == t.limit
  {
  }

  /** Opening the database again recovers the counter it had. */
  lemma ReopenKeeps(t: Tables)
    requires Window(t)
    ensures Reopened(t) == t
  {
    var n := NextId(t.messages.Keys);
    if t.counter > 0 {
      assert t.counter - 1 in t.messages;
    }
    assert n > 0 ==> n - 1 in t.messages;
  }

  /** What can happen to a database. */
  datatype Op = Do(effect: Effect) | Restart

  ghost function After(t: Tables, ops: seq<Op>): Tables
    decreases |ops|
  {
    if ops == [] then t
    else
      var before := After(t, ops[..|ops| - 1]);
      match ops[|ops| - 1]
      case Do(e) => Apply(before, e)
      case Restart => Reopened(before)
  }

  /** How many messages the operations store. */
  function Messages(ops: seq<Op>): nat
    decreases |ops|
  {
    if ops == [] then 0
    else Messages(ops[..|ops| - 1]) + (if ops[|ops| - 1].Do? && ops[|ops| - 1].effect.PutMessage? then 1 else 0)
  }

  /** Retention and index agreement: over any stores and restarts, the ids
      stored are exactly the last `limit` of all ids ever given (all of them
      when the limit is 0 or absent), every index mirrors the primary table,
      and no restart is ever noticed. */
  lemma {:induction false} Retention(limit: Option<nat>, ops: seq<Op>)
    requires Messages(ops) <= TWO48
    ensures var t := After(Empty(limit), ops);
            && t.limit == limit && t.counter == Messages(ops)
            && (forall i :: i in t.messages <==> Oldest(limit, Messages(ops)) <= i < Messages(ops))
            && Agree(t) && Reopened(t) == t
    decreases |ops|
  {
    hide Agree, Apply, NextId;
    var t0 := Empty(limit);
    if ops == [] {
      EmptyAgrees(limit);
      ReopenKeeps(t0);
    } else {
      var n := |ops| - 1;
      Retention(limit, ops[..n]);
      var t := After(t0, ops[..n]);
      match ops[n]
      case Restart =>
      case Do(e) =>
        ApplyKeeps(t, e);
        ReopenKeeps(Apply(t, e));
    }
  }

  lemma EmptyAgrees(limit: Option<nat>)
    ensures Agree(Empty(limit)) && Window(Empty(limit))
  {
  }

  lemma ApplyKeeps(t: Tables, e: Effect)
    requires Window(t) && Agree(t) && (e.PutMessage? ==> t.counter < TWO48)
    ensures var t' := Apply(t, e);
            Window(t') && Agree(t') && t'.limit == t.limit &&
            t'.counter == t.counter + (if e.PutMessage? then 1 else 0)
  {
    match e
    case PutMessage(m) =>
      StoreMovesWindow(t, m);
      StoreAgrees(t, m);
      hide Agree;
    case PutChunk(_) =>
    case PutConnection(_) =>
  }
}
