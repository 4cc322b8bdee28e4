/** The whole recorder: any number of connections, opened, fed, closed and cut
    off by restarts, against one database. */
module Recorder {
  import opened Wrappers
  import opened Bytes
  import opened Common
  import opened Store
  import opened Connections
  import opened Eviction

  datatype System = System(tables: Tables, conns: map<ConnKey, Conn>, used: set<ConnKey>)

  datatype Event =
    | Opened(key: ConnKey, initiator: Initiator, remoteAddr: SocketAddr)
    | Data(key: ConnKey, payload: seq<byte>, incoming: bool)
    | Closed(key: ConnKey)
    | Restarted

  function Start(limit: Option<nat>): System {
    System(Empty(limit), map[], {})
  }

  /** Connections have distinct keys, and empty payloads are not handed on. */
  predicate Possible(s: System, e: Event) {
    match e
    case Opened(key, _, _) => key !in s.used
    case Data(_, payload, _) => payload != []
    case _ => true
  }

  ghost predicate Good(s: System) {
    && Sound(s.tables)
    && (forall key :: key in s.conns ==>
          key in s.used && s.conns[key].item.key == key && Inv(s.conns[key]) && Live(s.tables, s.conns[key]))
    && (forall key, sender :: key !in s.used ==> Front(s.tables, key, sender, 0, 0))
  }

  ghost function Next(env: Env, s: System, e: Event): System
    requires Good(s)
  {
    match e
    case Opened(key, initiator, addr) =>
      s.(conns := s.conns[key := NewConn(key, initiator, addr)], used := s.used + {key})
    case Data(key, payload, incoming) =>
      if key !in s.conns then s
      else
        var (c, effects) := Step(env, s.conns[key], payload, incoming);
        s.(tables := ApplyAll(s.tables, effects), conns := s.conns[key := c])
    case Closed(key) => s.(conns := s.conns - {key})
    case Restarted => s.(tables := Reopened(s.tables), conns := map[])
  }

  lemma OpenedKeeps(env: Env, s: System, e: Event)
    requires Good(s) && Possible(s, e) && e.Opened?
    ensures Good(Next(env, s, e))
  {
    hide Sound, Front;
    var c := NewConn(e.key, e.initiator, e.remoteAddr);
    FreshLive(s.tables, c);
  }

  lemma FreshLive(t: Tables, c: Conn)
    requires c == NewConn(c.item.key, c.item.initiator, c.item.remoteAddr)
    requires Front(t, c.item.key, Local, 0, 0) && Front(t, c.item.key, Remote, 0, 0)
    ensures Live(t, c) && Inv(c)
  {
  }

  lemma DataKeeps(env: Env, s: System, e: Event)
    requires Good(s) && Possible(s, e) && e.Data?
    ensures Good(Next(env, s, e))
  {
    hide Sound, Live, Inv, Step, ApplyAll;
    if e.key in s.conns {
      var c := s.conns[e.key];
      StepKeepsInv(env, c, e.payload, e.incoming);
      StepKeeps(env, c, e.payload, e.incoming, s.tables);
      var (c', effects) := Step(env, c, e.payload, e.incoming);
      var t' := ApplyAll(s.tables, effects);
      forall key | key in s.conns && key != e.key ensures Live(t', s.conns[key]) {
        OtherLive(s.tables, t', e.key, s.conns[key]);
      }
      forall key, sender | key !in s.used ensures Front(t', key, sender, 0, 0) {
        OtherFront(s.tables, t', e.key, key, sender);
      }
    }
  }

  lemma OtherLive(t: Tables, t': Tables, cn: ConnKey, c: Conn)
    requires OthersUndisturbed(t, t', cn) && c.item.key != cn && Live(t, c)
    ensures Live(t', c)
  {
  }

  lemma OtherFront(t: Tables, t': Tables, cn: ConnKey, key: ConnKey, sender: Sender)
    requires OthersUndisturbed(t, t', cn) && key != cn && Front(t, key, sender, 0, 0)
    ensures Front(t', key, sender, 0, 0)
  {
  }

  lemma RestartKeeps(env: Env, s: System)
    requires Good(s)
    ensures Good(Next(env, s, Restarted))
  {
    hide NextId;
    var t, t' := s.tables, Reopened(s.tables);
    forall key, sender | key !in s.used ensures Front(t', key, sender, 0, 0) {
      assert Front(t, key, sender, 0, 0);
    }
  }

  lemma NextKeeps(env: Env, s: System, e: Event)
    requires Good(s) && Possible(s, e)
    ensures Good(Next(env, s, e))
  {
    hide Next, Good;
    match e
    case Opened(_, _, _) => OpenedKeeps(env, s, e);
    case Data(_, _, _) => DataKeeps(env, s, e);
    case Closed(key) => ClosedKeeps(env, s, key);
    case Restarted => RestartKeeps(env, s);
  }

  lemma ClosedKeeps(env: Env, s: System, key: ConnKey)
    requires Good(s)
    ensures Good(Next(env, s, Closed(key)))
  {
    hide Sound, Front, Live, Inv;
  }

  lemma StartGood(limit: Option<nat>)
    ensures Good(Start(limit))
  {
  }

  /** The recorder after the given events, starting from an empty database;
      `None` when one of them was not possible. Every state it passes is good. */
  ghost function After(env: Env, limit: Option<nat>, events: seq<Event>): (r: Option<System>)
    ensures r.Some? ==> Good(r.value)
    decreases |events|
  {
    if events == [] then
      StartGood(limit);
      Some(Start(limit))
    else
      var n := |events| - 1;
      match After(env, limit, events[..n])
      case None => None
      case Some(s) =>
        if !Possible(s, events[n]) then None
        else
          NextKeeps(env, s, events[n]);
          Some(Next(env, s, events[n]))
  }

  /** Whatever was evicted, `details` finds every chunk of every message that
      is still listed. */
  lemma DetailsComplete(env: Env, limit: Option<nat>, events: seq<Event>, id: nat, found: seq<ChunkValue>)
    requires After(env, limit, events).Some?
    requires var t := After(env, limit, events).value.tables;
             id in t.messages && IsDetails(t, t.messages[id], found)
    ensures var t := After(env, limit, events).value.tables;
            var m := t.messages[id];
            m.first < m.end && |found| == m.end - m.first &&
            forall c :: m.first <= c < m.end ==>
              ChunkKey(m.cn, c, m.sender) in t.chunks &&
              found[c - m.first] == t.chunks[ChunkKey(m.cn, c, m.sender)]
  {
    hide After, Next, Live, Inv;
    var t := After(env, limit, events).value.tables;
    var m := t.messages[id];
    forall c | m.first <= c < m.end ensures ChunkKey(m.cn, c, m.sender) in t.chunks {
      assert Owns(m, ChunkKey(m.cn, c, m.sender));
    }
  }

  lemma Nonempty(env: Env, limit: Option<nat>, events: seq<Event>, id: nat)
    requires After(env, limit, events).Some? && id in After(env, limit, events).value.tables.messages
    ensures var m := After(env, limit, events).value.tables.messages[id]; m.first < m.end
  {
    hide After, Next, Live, Inv;
  }

  /** Two listed messages of one direction never share a chunk. */
  lemma RangesDisjoint(env: Env, limit: Option<nat>, events: seq<Event>, i: nat, j: nat)
    requires After(env, limit, events).Some?
    requires var t := After(env, limit, events).value.tables; i in t.messages && j in t.messages && i != j
    ensures var t := After(env, limit, events).value.tables;
            forall k :: !(Owns(t.messages[i], k) && Owns(t.messages[j], k))
  {
    hide After, Next, Live, Inv;
    var t := After(env, limit, events).value.tables;
    assert Apart(t.messages[i], t.messages[j]);
  }
}
