/** The hand-over of log lines between the thread that writes them and the
    thread that commits the full-text index. */
module LogIndexer {

  type Doc = (nat, string)

  /** Lines that could not be indexed at once; only the first id is kept. */
  datatype Queue = Queue(startId: nat, messages: seq<string>)

  const EMPTY := Queue(0, [])

  function Enqueued(q: Queue, own: Doc): Queue {
    Queue(if q.messages == [] then own.0 else q.startId, q.messages + [own.1])
  }

  /** `drain`, from position `n` on: ids are counted up from the first. */
  function Entries(q: Queue, n: nat): (ds: seq<Doc>)
    requires n <= |q.messages|
    ensures |ds| == |q.messages| - n
  {
    seq(|q.messages| - n, i requires 0 <= i < |q.messages| - n => (q.startId + n + i, q.messages[n + i]))
  }

  /** Where the thread in `write` is. */
  datatype Producer =
    | Resting
    | Trying(own: Doc)
    | Locked(own: Doc)
    | Adding(own: Doc, batch: Queue, next: nat)
    | Marking
    | Blocked(own: Doc)

  /** Where the committing thread is in its loop. */
  datatype Committer =
    | Waiting
    | WantsWriter
    | HasWriter
    | Draining(batch: Queue, next: nat)
    | Commits
    | Checks
    | Finished

  /** `docs` are the documents added to the index, the first `committed` of
      them durably; `written` are the lines of all calls of `write` so far. */
  datatype State = State(
    docs: seq<Doc>,
    committed: nat,
    queue: Queue,
    dirty: bool,
    running: bool,
    producer: Producer,
    committer: Committer,
    firstId: nat,
    written: seq<string>)

  datatype Event =
    | Write(message: string)
    | TryLock
    | TakeQueue
    | AddOne
    | Mark
    | Enqueue
    | Stop
    | CommitterStep

  predicate ProducerHolds(s: State) {
    s.producer.Locked? || s.producer.Adding? || s.producer.Marking?
  }

  predicate CommitterHolds(s: State) {
    s.committer.HasWriter? || s.committer.Draining? || s.committer.Commits?
  }

  predicate Enabled(s: State, e: Event) {
    match e
    case Write(_) => s.producer.Resting? && s.running
    case TryLock => s.producer.Trying?
    case TakeQueue => s.producer.Locked?
    case AddOne => s.producer.Adding?
    case Mark => s.producer.Marking?
    case Enqueue => s.producer.Blocked?
    case Stop => s.producer.Resting?
    case CommitterStep => !s.committer.Finished? && (s.committer.WantsWriter? ==> !ProducerHolds(s))
  }

  function ProducerStep(s: State, e: Event): State
    requires Enabled(s, e) && !e.CommitterStep?
  {
    match e
    case Write(m) =>
      s.(written := s.written + [m], producer := Trying((s.firstId + |s.written|, m)))
    case TryLock =>
      s.(producer := if CommitterHolds(s) then Blocked(s.producer.own) else Locked(s.producer.own))
    case TakeQueue =>
      s.(producer := Adding(s.producer.own, s.queue, 0), queue := EMPTY)
    case AddOne =>
      var p := s.producer;
      if p.next < |p.batch.messages| then
        s.(docs := s.docs + [(p.batch.startId + p.next, p.batch.messages[p.next])], producer := p.(next := p.next + 1))
      else
        s.(docs := s.docs + [p.own], producer := Marking)
    case Mark => s.(dirty := true, producer := Resting)
    case Enqueue => s.(queue := Enqueued(s.queue, s.producer.own), producer := Resting)
    case Stop => s.(running := false)
  }

  /** The next atomic action of the committing thread. */
  function Committing(s: State): State
    requires Enabled(s, CommitterStep)
  {
    match s.committer
    case Waiting => s.(dirty := false, committer := if s.dirty then WantsWriter else Checks)
    case WantsWriter => s.(committer := HasWriter)
    case HasWriter =>
      if s.queue.messages == [] then s.(committer := Commits)
      else s.(committer := Draining(s.queue, 0), queue := EMPTY)
    case Draining(batch, next) =>
      if next < |batch.messages| then
        s.(docs := s.docs + [(batch.startId + next, batch.messages[next])], committer := Draining(batch, next + 1))
      else
        s.(dirty := true, committer := Commits)
    case Commits => s.(committed := |s.docs|, committer := Checks)
    case Checks => s.(committer := if s.running then Waiting else Finished)
  }

  /** A step that is not enabled does not happen. */
  function Step(s: State, e: Event): State {
    if !Enabled(s, e) then s else if e.CommitterStep? then Committing(s) else ProducerStep(s, e)
  }

  function After(s: State, es: seq<Event>): State
    decreases |es|
  {
    if es == [] then s else Step(After(s, es[..|es| - 1]), es[|es| - 1])
  }

  function Start(firstId: nat): State {
    State([], 0, EMPTY, false, true, Resting, Waiting, firstId, [])
  }

  // ---------------------------------------------------------------- nothing lost, nothing moved

  /** What every line written should become. */
  function Expected(firstId: nat, written: seq<string>): seq<Doc> {
    seq(|written|, i requires 0 <= i < |written| => (firstId + i, written[i]))
  }

  ghost predicate BatchesOk(s: State) {
    && (s.producer.Adding? ==> s.producer.next <= |s.producer.batch.messages|)
    && (s.committer.Draining? ==> s.committer.next <= |s.committer.batch.messages|)
  }

  /** The batch taken out of the queue, whoever holds it. */
  ghost function InHand(s: State): seq<Doc>
    requires BatchesOk(s)
  {
    if s.committer.Draining? then Entries(s.committer.batch, s.committer.next)
    else if s.producer.Adding? then Entries(s.producer.batch, s.producer.next)
    else []
  }

  /** The line the writing thread is busy with. */
  function Own(s: State): seq<Doc> {
    match s.producer
    case Trying(own) => [own]
    case Locked(own) => [own]
    case Adding(own, _, _) => [own]
    case Blocked(own) => [own]
    case Resting => []
    case Marking => []
  }

  ghost predicate Inv(s: State) {
    && BatchesOk(s)
    && !(ProducerHolds(s) && CommitterHolds(s))
    && (s.producer.Adding? || s.producer.Marking? ==> s.queue.messages == [])
    && s.docs + InHand(s) + Entries(s.queue, 0) + Own(s) == Expected(s.firstId, s.written)
    && s.committed <= |s.docs|
    && (s.committed < |s.docs| ==>
          s.dirty || ProducerHolds(s) || CommitterHolds(s) || s.committer.WantsWriter?)
  }

  lemma EntriesStep(q: Queue, n: nat)
    requires n < |q.messages|
    ensures Entries(q, n) == [(q.startId + n, q.messages[n])] + Entries(q, n + 1)
  {
  }

  lemma EntriesTaken(docs: seq<Doc>, q: Queue, n: nat, rest: seq<Doc>)
    requires n < |q.messages|
    ensures docs + Entries(q, n) + rest == (docs + [(q.startId + n, q.messages[n])]) + Entries(q, n + 1) + rest
  {
    EntriesStep(q, n);
  }

  /** A line that is queued continues the ids of the queue. */
  lemma QueueContinues(s: State)
    requires Inv(s) && s.producer.Blocked?
    ensures Entries(Enqueued(s.queue, s.producer.own), 0) == Entries(s.queue, 0) + [s.producer.own]
  {
    var before, q, own := s.docs + InHand(s), s.queue, s.producer.own;
    var all := before + Entries(q, 0) + [own];
    assert all == Expected(s.firstId, s.written);
    assert all[|before| + |q.messages|] == own;
    if q.messages != [] {
      assert all[|before|] == Entries(q, 0)[0];
      assert own.0 == q.startId + |q.messages|;
    }
  }

  lemma ProducerKeeps(s: State, e: Event)
    requires Inv(s) && Enabled(s, e) && !e.CommitterStep?
    ensures Inv(ProducerStep(s, e))
  {
    hide Entries, Expected;
    match e
    case Write(m) => WriteKeeps(s, m);
    case AddOne => AddKeeps(s);
    case TakeQueue => TakeKeeps(s);
    case Enqueue => EnqueueKeeps(s);
    case TryLock =>
    case Mark =>
    case Stop =>
  }

  lemma AddKeeps(s: State)
    requires Inv(s) && s.producer.Adding?
    ensures Inv(ProducerStep(s, AddOne))
  {
    hide Entries, Expected;
    var p := s.producer;
    var s' := ProducerStep(s, AddOne);
    assert Entries(s.queue, 0) == [];
    if p.next < |p.batch.messages| {
      EntriesTaken(s.docs, p.batch, p.next, [p.own]);
      assert s.docs + InHand(s) + [] + [p.own] == s.docs + InHand(s) + [p.own];
      assert s'.docs + InHand(s') + [] + [p.own] == s'.docs + InHand(s') + [p.own];
    } else {
      assert InHand(s) == [] && InHand(s') == [];
      assert s.docs + [] + [] + [p.own] == s'.docs + [] + [] + [];
    }
  }

  lemma TakeKeeps(s: State)
    requires Inv(s) && s.producer.Locked?
    ensures Inv(ProducerStep(s, TakeQueue))
  {
    hide Entries, Expected;
    var s' := ProducerStep(s, TakeQueue);
    assert InHand(s) == [] && InHand(s') == Entries(s.queue, 0) && Entries(s'.queue, 0) == [];
    assert s.docs + [] == s.docs;
    assert s.docs + Entries(s.queue, 0) + [] == s.docs + Entries(s.queue, 0);
  }

  lemma EnqueueKeeps(s: State)
    requires Inv(s) && s.producer.Blocked?
    ensures Inv(ProducerStep(s, Enqueue))
  {
    hide Entries, Expected, Enqueued;
    QueueContinues(s);
    var s' := ProducerStep(s, Enqueue);
    assert InHand(s') == InHand(s);
    var before := s.docs + InHand(s);
    assert before + Entries(s.queue, 0) + [s.producer.own] == before + (Entries(s.queue, 0) + [s.producer.own]) + [];
  }

  lemma WriteKeeps(s: State, m: string)
    requires Inv(s) && Enabled(s, Write(m))
    ensures Inv(ProducerStep(s, Write(m)))
  {
    var s' := ProducerStep(s, Write(m));
    var own := (s.firstId + |s.written|, m);
    assert Expected(s'.firstId, s'.written) == Expected(s.firstId, s.written) + [own];
    assert InHand(s') == InHand(s) && Own(s) == [] && Own(s') == [own];
    var before := s.docs + InHand(s) + Entries(s.queue, 0);
    assert before + [] == before;
  }

  lemma CommitterKeeps(s: State)
    requires Inv(s) && Enabled(s, CommitterStep)
    ensures Inv(Committing(s))
  {
    hide Entries, Expected;
    var s' := Committing(s);
    if s.committer.Draining? {
      DrainKeeps(s);
    } else if s.committer.HasWriter? && s.queue.messages != [] {
      assert InHand(s) == [] && InHand(s') == Entries(s.queue, 0) && Entries(s'.queue, 0) == [];
      assert s.docs + [] == s.docs;
      assert s.docs + Entries(s.queue, 0) + [] == s.docs + Entries(s.queue, 0);
    } else {
      assert InHand(s') == InHand(s);
    }
  }

  lemma DrainKeeps(s: State)
    requires Inv(s) && s.committer.Draining?
    ensures Inv(Committing(s))
  {
    hide Entries, Expected;
    var s', c := Committing(s), s.committer;
    if c.next < |c.batch.messages| {
      var rest := Entries(s.queue, 0) + Own(s);
      EntriesTaken(s.docs, c.batch, c.next, rest);
      assert s.docs + InHand(s) + Entries(s.queue, 0) + Own(s) == s.docs + InHand(s) + rest;
      assert s'.docs + InHand(s') + Entries(s.queue, 0) + Own(s) == s'.docs + InHand(s') + rest;
    } else {
      assert InHand(s) == [] && InHand(s') == [];
    }
  }

  /** Over every interleaving: the documents added, the batch taken out, the
      queue and the line in hand are, in this order, exactly the lines written,
      each under its own id; the two threads never hold the writer together;
      and what is not yet committed is still going to be looked at. */
  lemma {:induction false} HandOver(firstId: nat, es: seq<Event>)
    ensures var s := After(Start(firstId), es);
            Inv(s) && s.firstId == firstId
    decreases |es|
  {
    hide Inv;
    if es == [] {
      StartOk(firstId);
    } else {
      var n := |es| - 1;
      HandOver(firstId, es[..n]);
      var s := After(Start(firstId), es[..n]);
      if Enabled(s, es[n]) {
        if es[n].CommitterStep? {
          CommitterKeeps(s);
        } else {
          ProducerKeeps(s, es[n]);
        }
      }
    }
  }

  lemma StartOk(firstId: nat)
    ensures Inv(Start(firstId))
  {
  }

  /** So every document in the index is a line under the id it was written with,
      at the position at which it was written. */
  lemma DocsAreWritten(firstId: nat, es: seq<Event>, k: nat)
    requires k < |After(Start(firstId), es).docs|
    ensures var s := After(Start(firstId), es);
            k < |s.written| && s.docs[k] == (firstId + k, s.written[k])
  {
    hide After, Entries;
    HandOver(firstId, es);
    var s := After(Start(firstId), es);
    var rest := InHand(s) + Entries(s.queue, 0) + Own(s);
    assert s.docs + InHand(s) + Entries(s.queue, 0) + Own(s) == s.docs + rest;
    assert (s.docs + rest)[k] == s.docs[k];
  }

  // ---------------------------------------------------------------- what a shutdown leaves behind

  /** Both threads are done. */
  predicate ShutDown(s: State) {
    s.producer.Resting? && s.committer.Finished?
  }

  /** After a shutdown, the lines written are those indexed and those left in
      the queue; and all that is indexed is committed unless the index was
      marked again after the last look at the mark. */
  lemma AfterShutdown(firstId: nat, es: seq<Event>)
    ensures var s := After(Start(firstId), es);
            ShutDown(s) ==>
              && s.docs + Entries(s.queue, 0) == Expected(s.firstId, s.written)
              && (s.docs == Expected(s.firstId, s.written) <==> s.queue.messages == [])
              && (!s.dirty ==> s.committed == |s.docs|)
  {
    HandOver(firstId, es);
    var s := After(Start(firstId), es);
    if ShutDown(s) {
      assert s.docs + [] + Entries(s.queue, 0) + [] == s.docs + Entries(s.queue, 0);
      AllIndexed(s);
    }
  }

  /** How many stages the committing thread is away from its check. */
  function Stage(c: Committer): nat {
    match c
    case Waiting => 5
    case WantsWriter => 4
    case HasWriter => 3
    case Draining(_, _) => 2
    case Commits => 1
    case Checks => 0
    case Finished => 0
  }

  function Undrained(c: Committer): int {
    match c
    case Draining(batch, next) => |batch.messages| - next
    case Finished => 0
    case _ => 1
  }

  /** `join` after the indexer was dropped: the committing thread goes on alone
      until it notices. */
  ghost function Joined(s: State): (t: State)
    requires Inv(s) && s.producer.Resting? && !s.running
    decreases Stage(s.committer), Undrained(s.committer)
  {
    if s.committer.Finished? then s
    else
      CommitterKeeps(s);
      Joined(Committing(s))
  }

  /** The committing thread will still look into the queue. */
  predicate WillTake(s: State) {
    (s.committer.Waiting? && s.dirty) || s.committer.WantsWriter? || s.committer.HasWriter?
  }

  /** A shutdown leaves every line indexed exactly when the queue is empty or the
      other thread has not yet passed it, and everything indexed committed
      exactly when that thread had not yet finished its last commit or there
      was nothing new. */
  lemma {:induction false} Shutdown(s: State)
    requires Inv(s) && s.producer.Resting? && !s.running && !s.committer.Finished?
    ensures var t := Joined(s);
            && ShutDown(t) && t.written == s.written
            && (t.docs == Expected(s.firstId, s.written) <==> s.queue.messages == [] || WillTake(s))
            && (t.committed == |t.docs| <==> !s.committer.Checks? || s.committed == |s.docs|)
    decreases Stage(s.committer), Undrained(s.committer)
  {
    hide Inv, Entries, Expected;
    CommitterKeeps(s);
    if s.committer.Checks? {
      AllIndexed(s);
    } else {
      Shutdown(Committing(s));
      if s.committer.Waiting? && !s.dirty {
        NothingNew(s);
      }
    }
  }

  /** With no batch and no line in hand, everything is indexed exactly when the queue is empty. */
  lemma AllIndexed(s: State)
    requires Inv(s) && s.producer.Resting? && !s.committer.Draining?
    ensures s.docs == Expected(s.firstId, s.written) <==> s.queue.messages == []
  {
    assert s.docs + [] + Entries(s.queue, 0) + [] == s.docs + Entries(s.queue, 0);
    assert |s.docs + Entries(s.queue, 0)| == |s.docs| + |s.queue.messages|;
    if s.queue.messages == [] {
      assert s.docs + Entries(s.queue, 0) == s.docs;
    }
  }

  lemma NothingNew(s: State)
    requires Inv(s) && s.producer.Resting? && s.committer.Waiting? && !s.dirty
    ensures s.committed == |s.docs|
  {
  }

  /** A call of `write` that gets the writer indexes everything written so far:
      only a line that found the writer taken can be left behind. */
  lemma DirectWrite(s: State)
    requires Inv(s) && s.producer.Marking?
    ensures s.docs == Expected(s.firstId, s.written) && s.queue.messages == []
  {
    assert s.docs + [] + [] + [] == s.docs;
    assert Entries(s.queue, 0) == [];
  }

  lemma Then(s: State, es: seq<Event>, e: Event) returns (more: seq<Event>)
    ensures more == es + [e] && After(s, more) == Step(After(s, es), e)
  {
    more := es + [e];
    assert more[..|es|] == es;
  }

  /** A line queued while the other thread commits is not marked for a later
      look, so a shutdown can leave it behind, unindexed. */
  lemma LeftBehind(a: string, b: string) returns (es: seq<Event>)
    ensures var s := After(Start(0), es);
            ShutDown(s) && s.written == [a, b] && s.docs == [(0, a)] && s.queue == Queue(1, [b]) && !s.dirty
  {
    hide After, Step;
    var s := Start(0);
    es := Direct(a);
    es := Then(s, es, CommitterStep);
    TakesLock(a);
    es := Then(s, es, CommitterStep);
    es := Then(s, es, CommitterStep);
    es := Then(s, es, Write(b));
    Queues(a, b);
    es := Then(s, es, TryLock);
    es := Then(s, es, Enqueue);
    es := Then(s, es, Stop);
    es := Then(s, es, CommitterStep);
    es := Then(s, es, CommitterStep);
  }

  lemma Direct(a: string) returns (es: seq<Event>)
    ensures After(Start(0), es) == State([(0, a)], 0, EMPTY, true, true, Resting, Waiting, 0, [a])
  {
    hide After;
    var s := Start(0);
    Nothing(s);
    es := Then(s, [], Write(a));
    es := Then(s, es, TryLock);
    es := Then(s, es, TakeQueue);
    es := Then(s, es, AddOne);
    es := Then(s, es, Mark);
  }

  lemma TakesLock(a: string)
    ensures var s := State([(0, a)], 0, EMPTY, true, true, Resting, Waiting, 0, [a]);
            Step(Step(Step(s, CommitterStep), CommitterStep), CommitterStep) ==
            State([(0, a)], 0, EMPTY, false, true, Resting, Commits, 0, [a])
  {
  }

  lemma Queues(a: string, b: string)
    ensures var s := State([(0, a)], 0, EMPTY, false, true, Resting, Commits, 0, [a]);
            var q := Step(Step(Step(Step(s, Write(b)), TryLock), Enqueue), Stop);
            && q == State([(0, a)], 0, Queue(1, [b]), false, false, Resting, Commits, 0, [a, b])
            && Step(Step(q, CommitterStep), CommitterStep) ==
               State([(0, a)], 1, Queue(1, [b]), false, false, Resting, Finished, 0, [a, b])
  {
  }

  lemma Nothing(s: State)
    ensures After(s, []) == s
  {
  }
}
