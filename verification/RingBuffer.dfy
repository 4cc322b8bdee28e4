/** The consumer of a BPF ring buffer against a kernel that reserves, fills,
    commits and discards records at the same time. */
module RingBuffer {
  import opened Wrappers
  import opened Bytes

  const HEADER_SIZE := 8
  const BUSY_BIT := 0x8000_0000
  const DISCARD_BIT := 0x4000_0000

  // ---------------------------------------------------------------- memory

  function LeVal(b: seq<byte>): nat {
    if b == [] then 0 else b[0] as nat + 256 * LeVal(b[1..])
  }

  function LeBytes(v: nat, width: nat): (b: seq<byte>)
    ensures |b| == width
  {
    if width == 0 then [] else [v % 256] + LeBytes(v / 256, width - 1)
  }

  /** The data area is mapped twice in a row; both copies are the same memory. */
  function Mapped(mem: seq<byte>, a: nat): byte
    requires a < 2 * |mem|
  {
    if a < |mem| then mem[a] else mem[a - |mem|]
  }

  function Slice(mem: seq<byte>, offset: nat, n: nat): (b: seq<byte>)
    requires offset + n <= 2 * |mem|
    ensures |b| == n
    decreases n
  {
    if n == 0 then [] else [Mapped(mem, offset)] + Slice(mem, offset + 1, n - 1)
  }

  /** The 64-bit word at an index of the data area, seen as an array of words. */
  function Word(mem: seq<byte>, index: nat): nat
    requires index * 8 + 8 <= 2 * |mem|
  {
    LeVal(Slice(mem, index * 8, 8))
  }

  /** The byte at a position, modulo the size. */
  function At(mem: seq<byte>, p: nat): byte
    requires |mem| > 0
  {
    mem[p % |mem|]
  }

  function Get(mem: seq<byte>, p: nat, n: nat): (b: seq<byte>)
    requires |mem| > 0
    ensures |b| == n
    decreases n
  {
    if n == 0 then [] else [At(mem, p)] + Get(mem, p + 1, n - 1)
  }

  /** The kernel writes at a position, modulo the size. */
  function Put(mem: seq<byte>, p: nat, b: seq<byte>): (m: seq<byte>)
    requires |mem| > 0
    ensures |m| == |mem|
    decreases |b|
  {
    if b == [] then mem else Put(mem[p % |mem| := b[0]], p + 1, b[1..])
  }

  lemma ModOf(a: nat, q: nat, r: nat, n: nat)
    requires n > 0 && r < n && a == q * n + r
    ensures a % n == r
  {
    var d := a / n;
    assert a == d * n + a % n;
    assert d < q ==> (d + 1) * n <= q * n;
    assert d > q ==> (q + 1) * n <= d * n;
  }

  /** The masked position plus a small offset. */
  lemma ModShift(p: nat, d: nat, n: nat)
    requires n > 0 && d < n
    ensures (p + d) % n == if p % n + d < n then p % n + d else p % n + d - n
  {
    var q := p / n;
    assert p == q * n + p % n;
    if p % n + d < n {
      ModOf(p + d, q, p % n + d, n);
    } else {
      assert (q + 1) * n == q * n + n;
      ModOf(p + d, q + 1, p % n + d - n, n);
    }
  }

  /** Within one window of the size of the buffer no two positions share a cell. */
  lemma Apart(p: nat, q: nat, n: nat)
    requires n > 0 && p < q < p + n
    ensures p % n != q % n
  {
    ModShift(p, q - p, n);
  }

  lemma {:induction false} PutOutside(mem: seq<byte>, p: nat, b: seq<byte>, c: nat, q: nat)
    requires |mem| > 0 && c <= p && p + |b| <= c + |mem| && c <= q < c + |mem| && !(p <= q < p + |b|)
    ensures At(Put(mem, p, b), q) == At(mem, q)
    decreases |b|
  {
    if b != [] {
      if p < q {
        Apart(p, q, |mem|);
      } else {
        Apart(q, p, |mem|);
      }
      PutOutside(mem[p % |mem| := b[0]], p + 1, b[1..], c, q);
    }
  }

  /** Writing leaves what is elsewhere in the same window. */
  lemma {:induction false} GetOutside(mem: seq<byte>, p: nat, b: seq<byte>, c: nat, q: nat, n: nat)
    requires |mem| > 0 && c <= p && p + |b| <= c + |mem| && c <= q && q + n <= c + |mem|
    requires p + |b| <= q || q + n <= p
    ensures Get(Put(mem, p, b), q, n) == Get(mem, q, n)
    decreases n
  {
    if n > 0 {
      PutOutside(mem, p, b, c, q);
      GetOutside(mem, p, b, c, q + 1, n - 1);
    }
  }

  /** What is written is read back. */
  lemma {:induction false} GetPut(mem: seq<byte>, p: nat, b: seq<byte>)
    requires |mem| > 0 && |b| <= |mem|
    ensures Get(Put(mem, p, b), p, |b|) == b
    decreases |b|
  {
    if b != [] {
      var mem' := mem[p % |mem| := b[0]];
      PutOutside(mem', p + 1, b[1..], p, p);
      GetPut(mem', p + 1, b[1..]);
    }
  }

  lemma {:induction false} GetSplit(mem: seq<byte>, p: nat, m: nat, n: nat)
    requires |mem| > 0
    ensures Get(mem, p, m + n) == Get(mem, p, m) + Get(mem, p + m, n)
    decreases m
  {
    if m > 0 {
      GetSplit(mem, p + 1, m - 1, n);
    }
  }

  /** A slice of the doubled mapping behind a masked position reads the
      memory at the position itself. */
  lemma {:induction false} SliceIs(mem: seq<byte>, p: nat, d: nat, n: nat)
    requires |mem| > 0 && d + n <= |mem|
    ensures p % |mem| + d + n <= 2 * |mem| && Slice(mem, p % |mem| + d, n) == Get(mem, p + d, n)
    decreases n
  {
    if n > 0 {
      ModShift(p, d, |mem|);
      SliceIs(mem, p, d + 1, n - 1);
    }
  }

  lemma {:induction false} LeRoundTrip(v: nat)
    requires v < 0x1_0000_0000
    ensures LeVal(LeBytes(v, 4)) == v
  {
    var b := LeBytes(v, 4);
    assert b == [v % 256] + LeBytes(v / 256, 3);
    assert LeBytes(v / 256, 3) == [v / 256 % 256] + LeBytes(v / 256 / 256, 2);
    assert LeBytes(v / 256 / 256, 2) == [v / 256 / 256 % 256] + LeBytes(v / 256 / 256 / 256, 1);
    assert LeBytes(v / 256 / 256 / 256, 1) == [v / 256 / 256 / 256 % 256] + LeBytes(v / 256 / 256 / 256 / 256, 0);
    Le4(b);
  }

  lemma Le4(b: seq<byte>)
    requires |b| >= 4
    ensures LeVal(b) == b[0] as nat + 256 * (b[1] as nat + 256 * (b[2] as nat + 256 * (b[3] as nat + 256 * LeVal(b[4..]))))
  {
    assert b[1..][1..] == b[2..] && b[2..][1..] == b[3..] && b[3..][1..] == b[4..];
  }

  /** Keeping 32 bits of a word keeps its first four bytes. */
  lemma LowHalf(w: seq<byte>)
    requires |w| == 8
    ensures LeVal(w) % 0x1_0000_0000 == LeVal(w[..4])
  {
    Le4(w);
    Le4(w[..4]);
    assert w[..4][4..] == [];
    assert LeVal(w) == LeVal(w[4..]) * 0x1_0000_0000 + LeVal(w[..4]);
    ModOf(LeVal(w), LeVal(w[4..]), LeVal(w[..4]), 0x1_0000_0000);
  }

  // ---------------------------------------------------------------- the protocol

  datatype Status = Busy | Committed | Discarded

  /** A record as the kernel reserved it; `data` is what it held when it was
      committed. */
  datatype Record = Record(at: nat, len: nat, status: Status, data: seq<byte>)

  /** Where the consumer is in its loop. */
  datatype Stage = Idle | Seen | HaveHeader(header: nat) | Advanced | Failed

  /** The shared memory and positions, the consumer's own state, and the
      history: every record ever reserved, how many the consumer has passed,
      and the slices it has handed to the parser. */
  datatype Ring = Ring(
    mem: seq<byte>,
    producerPos: nat,
    consumerPos: nat,
    stage: Stage,
    consumerPosValue: nat,
    handed: seq<seq<byte>>,
    records: seq<Record>,
    passed: nat)

  function Aligned(len: nat): nat {
    (len + 7) / 8 * 8
  }

  /** Where record number `n` starts. */
  function StartOf(records: seq<Record>, n: nat): nat
    requires n <= |records|
  {
    if n == 0 then 0 else StartOf(records, n - 1) + HEADER_SIZE + Aligned(records[n - 1].len)
  }

  function HeaderOf(r: Record): nat {
    r.len + (match r.status case Busy => 0x8000_0000 case Committed => 0 case Discarded => 0x4000_0000)
  }

  /** The data of the committed records, in order. */
  function Payloads(records: seq<Record>): seq<seq<byte>> {
    if records == [] then []
    else
      var r := records[|records| - 1];
      Payloads(records[..|records| - 1]) + (if r.status.Committed? then [r.data] else [])
  }

  /** The memory holds the record. */
  ghost predicate Holds(mem: seq<byte>, r: Record)
    requires |mem| > 0
  {
    && Get(mem, r.at, 4) == LeBytes(HeaderOf(r), 4)
    && (r.status.Committed? ==> r.data == Get(mem, r.at + HEADER_SIZE, r.len))
  }

  ghost predicate Chained(records: seq<Record>) {
    forall i :: 0 <= i < |records| ==> records[i].at == StartOf(records, i) && records[i].len < DISCARD_BIT
  }

  ghost predicate Intact(s: Ring)
    requires |s.mem| > 0
  {
    forall i :: 0 <= i < |s.records| && s.records[i].at >= s.consumerPos ==> Holds(s.mem, s.records[i])
  }

  ghost predicate StageOk(s: Ring)
    requires s.passed <= |s.records|
  {
    match s.stage
    case Idle => s.consumerPos == s.consumerPosValue
    case Seen => s.consumerPos == s.consumerPosValue && s.passed < |s.records|
    case HaveHeader(h) =>
      && s.consumerPos == s.consumerPosValue && s.passed < |s.records|
      && !s.records[s.passed].status.Busy? && h == HeaderOf(s.records[s.passed])
    case Advanced => s.passed > 0 && s.consumerPos == StartOf(s.records, s.passed - 1)
    case Failed => false
  }

  ghost predicate Inv(s: Ring) {
    && |s.mem| >= 4096 && |s.mem| % 8 == 0
    && Chained(s.records) && s.producerPos == StartOf(s.records, |s.records|)
    && s.passed <= |s.records| && s.consumerPosValue == StartOf(s.records, s.passed)
    && (forall i :: 0 <= i < s.passed ==> !s.records[i].status.Busy?)
    && s.handed == Payloads(s.records[..s.passed])
    && StageOk(s) && s.producerPos <= s.consumerPos + |s.mem|
    && Intact(s)
  }

  datatype Event =
    | Reserve(len: nat, pageOffset: seq<byte>)
    | Fill(record: nat, offset: nat, value: byte)
    | Commit(record: nat)
    | Discard(record: nat)
    | LoadProducer
    | LoadHeader
    | Yield
    | Publish

  predicate IsBusy(s: Ring, i: nat) {
    i < |s.records| && s.records[i].status.Busy?
  }

  predicate Enabled(s: Ring, e: Event) {
    match e
    case Reserve(len, pg) =>
      len < 0x4000_0000 && |pg| == 4 && s.producerPos + 8 + Aligned(len) <= s.consumerPos + |s.mem|
    case Fill(i, k, _) => IsBusy(s, i) && k < s.records[i].len
    case Commit(i) => IsBusy(s, i)
    case Discard(i) => IsBusy(s, i)
    case LoadProducer => s.stage.Idle?
    case LoadHeader => s.stage.Seen?
    case Yield => s.stage.HaveHeader?
    case Publish => s.stage.Advanced?
  }

  // the kernel

  function Reserved(s: Ring, len: nat, pg: seq<byte>): Ring
    requires |s.mem| > 0
  {
    var r := Record(s.producerPos, len, Busy, []);
    s.(mem := Put(s.mem, r.at, LeBytes(HeaderOf(r), 4) + pg),
       producerPos := s.producerPos + 8 + Aligned(len),
       records := s.records + [r])
  }

  function Finished(s: Ring, i: nat, status: Status): Ring
    requires |s.mem| > 0 && i < |s.records|
  {
    var r := s.records[i].(status := status, data := Get(s.mem, s.records[i].at + 8, s.records[i].len));
    s.(mem := Put(s.mem, r.at, LeBytes(HeaderOf(r), 4)), records := s.records[i := r])
  }

  // the consumer

  function Loaded(s: Ring): Ring {
    if s.consumerPosValue > s.producerPos then s.(stage := Failed)
    else if s.consumerPosValue == s.producerPos then s
    else s.(stage := Seen)
  }

  function HeaderLoaded(s: Ring): Ring
    requires |s.mem| >= 8 && |s.mem| % 8 == 0
  {
    var masked := s.consumerPosValue % |s.mem|;
    var header := Word(s.mem, masked / 8) % 0x1_0000_0000;
    if header >= BUSY_BIT then s.(stage := Idle) else s.(stage := HaveHeader(header))
  }

  function LengthIn(header: nat): nat {
    if header / DISCARD_BIT % 2 == 1 then header - DISCARD_BIT else header
  }

  function Yielded(s: Ring): Ring
    requires s.stage.HaveHeader? && |s.mem| > 0
    requires s.consumerPosValue % |s.mem| + HEADER_SIZE + LengthIn(s.stage.header) <= 2 * |s.mem|
  {
    var header := s.stage.header;
    var length := LengthIn(header);
    var slice := Slice(s.mem, s.consumerPosValue % |s.mem| + HEADER_SIZE, length);
    s.(stage := Advanced,
       consumerPosValue := s.consumerPosValue + HEADER_SIZE + Aligned(length),
       handed := if header / DISCARD_BIT % 2 == 1 then s.handed else s.handed + [slice],
       passed := s.passed + 1)
  }

  // ---------------------------------------------------------------- positions

  lemma AlignedIs(len: nat)
    ensures len <= Aligned(len) < len + 8 && Aligned(len) % 8 == 0
  {
  }

  lemma {:induction false} Starts(records: seq<Record>, i: nat, j: nat)
    requires i <= j <= |records|
    ensures StartOf(records, i) <= StartOf(records, j) && StartOf(records, i) % 8 == 0
    ensures i < j ==> StartOf(records, i) + HEADER_SIZE + Aligned(records[i].len) <= StartOf(records, j)
    decreases j
  {
    hide Aligned;
    if i < j {
      Starts(records, i, j - 1);
    } else if i > 0 {
      Starts(records, i - 1, i - 1);
      AlignedIs(records[i - 1].len);
    }
  }

  lemma {:induction false} StartsSame(a: seq<Record>, b: seq<Record>, n: nat)
    requires n <= |a| && n <= |b| && forall i :: 0 <= i < n ==> a[i].len == b[i].len
    ensures StartOf(a, n) == StartOf(b, n)
  {
    if n > 0 {
      StartsSame(a, b, n - 1);
    }
  }

  /** The consumer never overtakes the producer, and all positions are aligned. */
  lemma Positions(s: Ring)
    requires Inv(s)
    ensures s.consumerPos <= s.consumerPosValue <= s.producerPos <= s.consumerPos + |s.mem|
    ensures s.consumerPos % 8 == s.consumerPosValue % 8 == s.producerPos % 8 == 0
  {
    hide StartOf, Intact, Chained, Payloads, Aligned;
    Starts(s.records, s.passed, |s.records|);
    Starts(s.records, |s.records|, |s.records|);
    if s.stage.Advanced? {
      Starts(s.records, s.passed - 1, s.passed);
    }
  }

  /** A record not yet given back lies between the consumer and the producer. */
  lemma Unread(s: Ring, i: nat)
    requires Inv(s) && i < |s.records|
    ensures s.records[i].at + HEADER_SIZE + Aligned(s.records[i].len) <= s.producerPos <= s.consumerPos + |s.mem|
    ensures s.records[i].at >= s.consumerPos ==> s.records[i].len + HEADER_SIZE <= |s.mem| && Holds(s.mem, s.records[i])
  {
    hide StartOf, Payloads, Aligned, Holds;
    Starts(s.records, i, |s.records|);
    AlignedIs(s.records[i].len);
  }

  /** Two records occupy different stretches. */
  lemma RecordsApart(s: Ring, i: nat, j: nat)
    requires Inv(s) && i < |s.records| && j < |s.records| && i != j
    ensures s.records[i].at + HEADER_SIZE + Aligned(s.records[i].len) <= s.records[j].at ||
            s.records[j].at + HEADER_SIZE + Aligned(s.records[j].len) <= s.records[i].at
  {
    hide StartOf, Payloads, Aligned, Intact;
    if i < j {
      Starts(s.records, i, j);
    } else {
      Starts(s.records, j, i);
    }
  }

  /** A record being written is still unread. */
  lemma BusyUnread(s: Ring, i: nat)
    requires Inv(s) && IsBusy(s, i)
    ensures i >= s.passed && s.records[i].at >= s.consumerPosValue >= s.consumerPos
  {
    hide StartOf, Payloads, Aligned, Intact;
    Starts(s.records, s.passed, i);
    Positions(s);
  }

  /** Writing inside the window but outside a record leaves the record. */
  lemma HoldsStill(mem: seq<byte>, p: nat, b: seq<byte>, c: nat, r: Record)
    requires |mem| > 0 && c <= p && p + |b| <= c + |mem| && Holds(mem, r)
    requires c <= r.at && r.at + HEADER_SIZE + Aligned(r.len) <= c + |mem|
    requires p + |b| <= r.at || r.at + HEADER_SIZE + Aligned(r.len) <= p
    ensures Holds(Put(mem, p, b), r)
  {
    hide Put, Get, Aligned, LeBytes, HeaderOf;
    AlignedIs(r.len);
    GetOutside(mem, p, b, c, r.at, 4);
    GetOutside(mem, p, b, c, r.at + HEADER_SIZE, r.len);
  }

  // ---------------------------------------------------------------- kernel steps

  /** The parts of the invariant that a kernel step does not touch. */
  lemma KernelKeeps(s: Ring, s': Ring)
    requires Inv(s)
    requires s' == s.(mem := s'.mem, producerPos := s'.producerPos, records := s'.records) && |s'.mem| == |s.mem|
    requires |s.records| <= |s'.records|
    requires forall i :: 0 <= i < |s.records| ==> s'.records[i].len == s.records[i].len
    requires forall i :: 0 <= i < |s.records| && !s.records[i].status.Busy? ==> s'.records[i] == s.records[i]
    requires Chained(s'.records) && s'.producerPos == StartOf(s'.records, |s'.records|) <= s.consumerPos + |s.mem|
    requires Intact(s')
    ensures Inv(s')
  {
    hide StartOf, Payloads, Aligned, Intact, Chained, HeaderOf;
    StartsSame(s.records, s'.records, s.passed);
    if s.passed > 0 {
      StartsSame(s.records, s'.records, s.passed - 1);
    }
    assert s'.records[..s.passed] == s.records[..s.passed];
  }

  lemma ReserveKeeps(s: Ring, len: nat, pg: seq<byte>)
    requires Inv(s) && Enabled(s, Reserve(len, pg))
    ensures Inv(Reserved(s, len, pg))
  {
    hide Put, LeBytes, HeaderOf, Holds, Payloads, Aligned, StageOk, Intact, StartOf;
    var s' := Reserved(s, len, pg);
    var n := |s.records|;
    var b := LeBytes(HeaderOf(s'.records[n]), 4) + pg;
    Positions(s);
    RecordAdded(s.records, s'.records[n]);
    forall i | 0 <= i < |s'.records| && s'.records[i].at >= s'.consumerPos ensures Holds(s'.mem, s'.records[i]) {
      if i < n {
        Unread(s, i);
        HoldsStill(s.mem, s.producerPos, b, s.consumerPos, s.records[i]);
      } else {
        FreshHolds(s.mem, s'.records[n], pg);
      }
    }
    IntactBy(s');
    KernelKeeps(s, s');
  }

  lemma RecordAdded(records: seq<Record>, r: Record)
    requires Chained(records) && r.at == StartOf(records, |records|) && r.len < DISCARD_BIT
    ensures Chained(records + [r])
    ensures StartOf(records + [r], |records| + 1) == r.at + HEADER_SIZE + Aligned(r.len)
  {
    hide Aligned;
    forall i | 0 <= i <= |records| ensures StartOf(records + [r], i) == StartOf(records, i) {
      StartsSame(records, records + [r], i);
    }
  }

  lemma IntactBy(s: Ring)
    requires |s.mem| > 0
    requires forall i :: 0 <= i < |s.records| && s.records[i].at >= s.consumerPos ==> Holds(s.mem, s.records[i])
    ensures Intact(s)
  {
  }

  lemma FreshHolds(mem: seq<byte>, r: Record, pg: seq<byte>)
    requires |mem| >= 8 && |pg| == 4 && !r.status.Committed?
    ensures Holds(Put(mem, r.at, LeBytes(HeaderOf(r), 4) + pg), r)
  {
    hide Put, Get, LeBytes, HeaderOf;
    var b := LeBytes(HeaderOf(r), 4) + pg;
    GetPut(mem, r.at, b);
    GetSplit(Put(mem, r.at, b), r.at, 4, 4);
    assert b[..4] == LeBytes(HeaderOf(r), 4);
  }

  function Filled(s: Ring, i: nat, k: nat, v: byte): Ring
    requires |s.mem| > 0 && i < |s.records|
  {
    s.(mem := Put(s.mem, s.records[i].at + 8 + k, [v]))
  }

  lemma FillKeeps(s: Ring, i: nat, k: nat, v: byte)
    requires Inv(s) && Enabled(s, Fill(i, k, v))
    ensures Inv(Filled(s, i, k, v))
  {
    hide Put, LeBytes, HeaderOf, Payloads, Aligned, StageOk, Intact, StartOf, Get, Chained;
    var r := s.records[i];
    BusyUnread(s, i);
    Unread(s, i);
    AlignedIs(r.len);
    var s' := Filled(s, i, k, v);
    forall j | 0 <= j < |s.records| && s.records[j].at >= s.consumerPos ensures Holds(s'.mem, s.records[j]) {
      Unread(s, j);
      if j == i {
        GetOutside(s.mem, r.at + HEADER_SIZE + k, [v], s.consumerPos, r.at, 4);
      } else {
        RecordsApart(s, i, j);
        HoldsStill(s.mem, r.at + HEADER_SIZE + k, [v], s.consumerPos, s.records[j]);
      }
    }
    IntactBy(s');
    KernelKeeps(s, s');
  }

  lemma FinishKeeps(s: Ring, i: nat, status: Status)
    requires Inv(s) && IsBusy(s, i) && !status.Busy?
    ensures Inv(Finished(s, i, status))
  {
    hide Put, LeBytes, HeaderOf, Payloads, Aligned, StageOk, Intact, StartOf, Get, Holds;
    var s' := Finished(s, i, status);
    BusyUnread(s, i);
    Unread(s, i);
    var r := s'.records[i];
    var b := LeBytes(HeaderOf(r), 4);
    forall j | 0 <= j <= |s.records| ensures StartOf(s'.records, j) == StartOf(s.records, j) {
      StartsSame(s.records, s'.records, j);
    }
    forall j | 0 <= j < |s'.records| && s'.records[j].at >= s'.consumerPos ensures Holds(s'.mem, s'.records[j]) {
      Unread(s, j);
      if j == i {
        FinishedHolds(s.mem, r, s.consumerPos);
      } else {
        RecordsApart(s, i, j);
        HoldsStill(s.mem, r.at, b, s.consumerPos, s.records[j]);
      }
    }
    IntactBy(s');
    KernelKeeps(s, s');
  }

  lemma FinishedHolds(mem: seq<byte>, r: Record, c: nat)
    requires |mem| >= 8 && c <= r.at && r.at + HEADER_SIZE + Aligned(r.len) <= c + |mem|
    requires r.data == Get(mem, r.at + HEADER_SIZE, r.len)
    ensures Holds(Put(mem, r.at, LeBytes(HeaderOf(r), 4)), r)
  {
    hide Put, Get, LeBytes, HeaderOf, Aligned;
    AlignedIs(r.len);
    GetPut(mem, r.at, LeBytes(HeaderOf(r), 4));
    GetOutside(mem, r.at, LeBytes(HeaderOf(r), 4), c, r.at + HEADER_SIZE, r.len);
  }

  // ---------------------------------------------------------------- consumer steps

  lemma LoadKeeps(s: Ring)
    requires Inv(s) && s.stage.Idle?
    ensures Inv(Loaded(s))
  {
    hide Intact, Payloads, StartOf, Chained;
    Positions(s);
    IntactStill(s, Loaded(s));
  }

  lemma IntactStill(s: Ring, s': Ring)
    requires |s.mem| > 0 && Intact(s) && s'.mem == s.mem && s'.records == s.records && s'.consumerPos >= s.consumerPos
    ensures Intact(s')
  {
  }

  /** The word the consumer loads is the header of the first unread record. */
  lemma HeaderRead(s: Ring)
    requires Inv(s) && s.stage.Seen?
    ensures Word(s.mem, s.consumerPosValue % |s.mem| / 8) % 0x1_0000_0000 == HeaderOf(s.records[s.passed])
  {
    hide Payloads, StartOf, Intact, LeBytes, LeVal, Slice, Get;
    var r := s.records[s.passed];
    var n := |s.mem|;
    Positions(s);
    Unread(s, s.passed);
    var masked := s.consumerPosValue % n;
    MaskAligned(s.consumerPosValue, n);
    assert masked / 8 * 8 == masked;
    SliceIs(s.mem, s.consumerPosValue, 0, 8);
    var w := Slice(s.mem, masked, 8);
    GetSplit(s.mem, s.consumerPosValue, 4, 4);
    assert w[..4] == LeBytes(HeaderOf(r), 4);
    LowHalf(w);
    LeRoundTrip(HeaderOf(r));
  }

  lemma MaskAligned(p: nat, n: nat)
    requires n > 0 && n % 8 == 0 && p % 8 == 0
    ensures p % n % 8 == 0
  {
    var x, k := p / 8, n / 8;
    var q, r := x / k, x % k;
    assert x == q * k + r;
    assert p == 8 * x && n == 8 * k;
    TimesEight(q, k);
    ModOf(p, q, 8 * r, n);
  }

  lemma TimesEight(q: nat, k: nat)
    ensures q * (8 * k) == 8 * (q * k)
  {
  }

  lemma HeaderKeeps(s: Ring)
    requires Inv(s) && s.stage.Seen?
    ensures Inv(HeaderLoaded(s))
    ensures HeaderLoaded(s).stage.Idle? <==> s.records[s.passed].status.Busy?
  {
    hide Intact, Payloads, Word, StartOf;
    HeaderRead(s);
    IntactStill(s, HeaderLoaded(s));
  }

  /** What the consumer makes of the header, and the slice it takes. */
  lemma YieldReads(s: Ring)
    requires Inv(s) && s.stage.HaveHeader?
    ensures var r, h := s.records[s.passed], s.stage.header;
            && LengthIn(h) == r.len && (h / DISCARD_BIT % 2 == 1 <==> r.status.Discarded?)
            && s.consumerPosValue % |s.mem| + HEADER_SIZE + r.len <= 2 * |s.mem|
            && (r.status.Committed? ==> Slice(s.mem, s.consumerPosValue % |s.mem| + HEADER_SIZE, r.len) == r.data)
  {
    hide Payloads, StartOf, Intact, Get, Slice, LeBytes;
    var r := s.records[s.passed];
    Unread(s, s.passed);
    SliceIs(s.mem, s.consumerPosValue, 8, r.len);
  }

  lemma YieldKeeps(s: Ring)
    requires Inv(s) && s.stage.HaveHeader?
    ensures s.consumerPosValue % |s.mem| + HEADER_SIZE + LengthIn(s.stage.header) <= 2 * |s.mem|
    ensures Inv(Yielded(s))
  {
    hide Intact, LengthIn, Slice, Chained, HeaderOf;
    YieldReads(s);
    assert s.records[..s.passed + 1][..s.passed] == s.records[..s.passed];
    IntactStill(s, Yielded(s));
  }

  function Published(s: Ring): Ring {
    s.(consumerPos := s.consumerPosValue, stage := Idle)
  }

  lemma PublishKeeps(s: Ring)
    requires Inv(s) && s.stage.Advanced?
    ensures Inv(Published(s))
  {
    hide Payloads, Holds, Intact, Chained, StartOf;
    Positions(s);
    IntactStill(s, Published(s));
  }

  // ---------------------------------------------------------------- runs

  predicate OfKernel(e: Event) {
    e.Reserve? || e.Fill? || e.Commit? || e.Discard?
  }

  function KernelStep(s: Ring, e: Event): (s': Ring)
    requires Inv(s) && Enabled(s, e) && OfKernel(e)
    ensures Inv(s')
  {
    match e
    case Reserve(len, pg) => ReserveKeeps(s, len, pg); Reserved(s, len, pg)
    case Fill(i, k, v) => FillKeeps(s, i, k, v); Filled(s, i, k, v)
    case Commit(i) => FinishKeeps(s, i, Committed); Finished(s, i, Committed)
    case Discard(i) => FinishKeeps(s, i, Discarded); Finished(s, i, Discarded)
  }

  function ConsumerStep(s: Ring, e: Event): (s': Ring)
    requires Inv(s) && Enabled(s, e) && !OfKernel(e)
    ensures Inv(s')
  {
    match e
    case LoadProducer => LoadKeeps(s); Loaded(s)
    case LoadHeader => HeaderKeeps(s); HeaderLoaded(s)
    case Yield => YieldKeeps(s); Yielded(s)
    case Publish => PublishKeeps(s); Published(s)
  }

  /** One step of the kernel or of the consumer; a step that is not enabled
      does not happen. */
  function Step(s: Ring, e: Event): (s': Ring)
    requires Inv(s)
    ensures Inv(s')
  {
    if !Enabled(s, e) then s else if OfKernel(e) then KernelStep(s, e) else ConsumerStep(s, e)
  }

  function After(s: Ring, es: seq<Event>): (s': Ring)
    requires Inv(s)
    ensures Inv(s')
    decreases |es|
  {
    if es == [] then s else Step(After(s, es[..|es| - 1]), es[|es| - 1])
  }

  /** An empty buffer over memory with any content. */
  function Start(mem: seq<byte>): (s: Ring)
    requires |mem| >= 4096 && |mem| % 8 == 0
    ensures Inv(s)
  {
    Ring(mem, 0, 0, Idle, 0, [], [], 0)
  }

  /** Safety over every interleaving of the kernel and the consumer. */
  lemma RingSafe(mem: seq<byte>, es: seq<Event>)
    requires |mem| >= 4096 && |mem| % 8 == 0
    ensures var s := After(Start(mem), es);
            // "read uninitialized data" is never reported
            && !s.stage.Failed?
            // positions are ordered and aligned, and unread data fits the buffer
            && s.consumerPos <= s.consumerPosValue <= s.producerPos <= s.consumerPos + |s.mem|
            && s.consumerPos % 8 == s.consumerPosValue % 8 == s.producerPos % 8 == 0
            // what was handed over are the committed records in the order of their reservation
            && s.passed <= |s.records| && s.consumerPosValue == StartOf(s.records, s.passed)
            && s.handed == Payloads(s.records[..s.passed])
            && (forall i :: 0 <= i < s.passed ==> !s.records[i].status.Busy?)
            // nothing is overwritten before the consumer gives it back
            && (forall i :: 0 <= i < |s.records| && s.records[i].at >= s.consumerPos ==> Holds(s.mem, s.records[i]))
  {
    Positions(After(Start(mem), es));
  }

  /** What a step leaves of the history. */
  ghost predicate Extends(s: Ring, s': Ring) {
    && s.handed <= s'.handed && s.passed <= s'.passed && |s.records| <= |s'.records|
    && forall i :: 0 <= i < |s.records| ==>
         && s'.records[i].at == s.records[i].at && s'.records[i].len == s.records[i].len
         && (!s.records[i].status.Busy? ==> s'.records[i] == s.records[i])
  }

  lemma StepExtends(s: Ring, e: Event)
    requires Inv(s)
    ensures Extends(s, Step(s, e))
  {
    hide Inv, Put, Get, LeBytes, HeaderOf, StartOf, Word, Slice, LengthIn, Aligned;
  }

  /** No record changes after it was committed or discarded, and no slice is
      ever taken back: the committed records are fixed for the rest of the run. */
  lemma {:induction false} HistoryFixed(s: Ring, es: seq<Event>, more: seq<Event>)
    requires Inv(s)
    ensures Extends(After(s, es), After(s, es + more))
    decreases |more|
  {
    hide Inv, Step;
    if more == [] {
      assert es + more == es;
    } else {
      var n := |more| - 1;
      assert (es + more)[..|es + more| - 1] == es + more[..n];
      HistoryFixed(s, es, more[..n]);
      StepExtends(After(s, es + more[..n]), more[n]);
    }
  }

  // ---------------------------------------------------------------- one call of `read`

  const TOTAL_READ_THRESHOLD := 0x1000000

  datatype Outcome = Uninitialized | WouldBlock | Slices(vec: seq<seq<byte>>)

  /** The slices the parser accepts. */
  function Accepted(parses: seq<byte> -> bool, slices: seq<seq<byte>>): seq<seq<byte>> {
    if slices == [] then []
    else
      var n := |slices| - 1;
      Accepted(parses, slices[..n]) + (if parses(slices[n]) then [slices[n]] else [])
  }

  function Total(slices: seq<seq<byte>>): nat {
    if slices == [] then 0 else Total(slices[..|slices| - 1]) + |slices[|slices| - 1]|
  }

  /** The kernel's steps between two steps of the consumer. */
  method Interfere(s: Ring, es: seq<Event>) returns (s': Ring)
    requires Inv(s)
    ensures Inv(s') && Extends(s, s')
    ensures s' == s.(mem := s'.mem, producerPos := s'.producerPos, records := s'.records)
    ensures es == [] ==> s' == s
  {
    hide Inv, Step, Extends;
    s' := s;
    ExtendsSelf(s);
    for k := 0 to |es|
      invariant Inv(s') && Extends(s, s') && (es == [] ==> s' == s)
      invariant s' == s.(mem := s'.mem, producerPos := s'.producerPos, records := s'.records)
    {
      if OfKernel(es[k]) {
        StepExtends(s', es[k]);
        KernelOnly(s', es[k]);
        ExtendsTrans(s, s', Step(s', es[k]));
        s' := Step(s', es[k]);
      }
    }
  }

  lemma KernelOnly(s: Ring, e: Event)
    requires Inv(s) && OfKernel(e)
    ensures var s' := Step(s, e); s' == s.(mem := s'.mem, producerPos := s'.producerPos, records := s'.records)
  {
    hide Inv, Put, Get, LeBytes, HeaderOf, StartOf, Aligned;
  }

  function Between(schedule: seq<seq<Event>>, n: nat): (es: seq<Event>)
    ensures n >= |schedule| ==> es == []
  {
    if n < |schedule| then schedule[n] else []
  }

  /** One pass through the loop of `read`. */
  method Iteration(s: Ring, schedule: seq<seq<Event>>, n: nat)
    returns (s': Ring, more: bool, slice: Option<seq<byte>>)
    requires Inv(s) && s.stage.Idle?
    ensures Inv(s') && s'.stage.Idle? && Extends(s, s')
    ensures s'.handed == s.handed + if slice.Some? then [slice.value] else []
    ensures !more ==> slice.None? && (s'.consumerPosValue == s'.producerPos || IsBusy(s', s'.passed))
    ensures more ==> s.consumerPosValue < s'.consumerPosValue && (n >= |schedule| ==> s'.producerPos == s.producerPos)
  {
    hide Inv, Extends, Put, Word, Slice, LengthIn, StartOf, Aligned;
    slice := None;
    s' := Interfere(s, Between(schedule, n));
    ghost var s1 := s';
    LoadResult(s');
    s' := ConsumerStep(s', LoadProducer);
    Extended(s, s1, LoadProducer);
    if s'.stage.Idle? {
      return s', false, slice;
    }
    s' := Interfere(s', Between(schedule, n + 1));
    ghost var s2 := s';
    HeaderResult(s2);
    s' := ConsumerStep(s', LoadHeader);
    ExtendsTrans(s, ConsumerStep(s1, LoadProducer), s2);
    Extended(s, s2, LoadHeader);
    if s'.stage.Idle? {
      return s', false, slice;
    }
    s' := Interfere(s', Between(schedule, n + 2));
    ghost var s3 := s';
    YieldResult(s3);
    s' := ConsumerStep(s', Yield);
    ExtendsTrans(s, ConsumerStep(s2, LoadHeader), s3);
    Extended(s, s3, Yield);
    slice := if |s'.handed| > |s.handed| then Some(s'.handed[|s'.handed| - 1]) else None;
    s' := Interfere(s', Between(schedule, n + 3));
    ghost var s4 := s';
    s' := ConsumerStep(s', Publish);
    ExtendsTrans(s, ConsumerStep(s3, Yield), s4);
    Extended(s, s4, Publish);
    more := true;
  }

  lemma ExtendsSelf(s: Ring)
    ensures Extends(s, s)
  {
  }

  lemma ExtendsTrans(a: Ring, b: Ring, c: Ring)
    requires Extends(a, b) && Extends(b, c)
    ensures Extends(a, c)
  {
  }

  lemma Extended(s: Ring, t: Ring, e: Event)
    requires Inv(t) && Extends(s, t) && Enabled(t, e) && !OfKernel(e)
    ensures Extends(s, ConsumerStep(t, e))
  {
    hide Inv, Extends, ConsumerStep;
    StepExtends(t, e);
    ExtendsTrans(s, t, ConsumerStep(t, e));
  }

  lemma LoadResult(s: Ring)
    requires Inv(s) && s.stage.Idle?
    ensures var s' := ConsumerStep(s, LoadProducer);
            && s' == s.(stage := s'.stage) && (s'.stage.Idle? || s'.stage.Seen?)
            && (s'.stage.Idle? ==> s.consumerPosValue == s.producerPos)
  {
    Positions(s);
  }

  lemma HeaderResult(s: Ring)
    requires Inv(s) && s.stage.Seen?
    ensures var s' := ConsumerStep(s, LoadHeader);
            && s' == s.(stage := s'.stage) && (s'.stage.Idle? || s'.stage.HaveHeader?)
            && (s'.stage.Idle? ==> IsBusy(s, s.passed))
  {
    HeaderKeeps(s);
  }

  /** At most one slice was handed over, and the position moved. */
  ghost predicate MovesOn(s: Ring, s': Ring) {
    && s'.stage.Advanced? && s'.producerPos == s.producerPos && s'.consumerPosValue > s.consumerPosValue
    && (s'.handed == s.handed || exists x :: s'.handed == s.handed + [x])
  }

  lemma YieldResult(s: Ring)
    requires Inv(s) && s.stage.HaveHeader?
    ensures Enabled(s, Yield) && !OfKernel(Yield)
    ensures MovesOn(s, ConsumerStep(s, Yield))
  {
    hide Inv, Slice, LengthIn, StartOf;
    YieldKeeps(s);
  }

  /** A call of `read`, with the kernel doing the steps of the schedule between
      the consumer's own. The call never reports uninitialized data; it
      returns exactly the parsed slices of the committed records it passed;
      and it stops only at the producer, at a busy record, or past the
      threshold. */
  method Read(ring: Ring, schedule: seq<seq<Event>>, parses: seq<byte> -> bool) returns (s: Ring, outcome: Outcome)
    requires Inv(ring) && ring.stage.Idle?
    ensures Inv(s) && s.stage.Idle? && Extends(ring, s)
    ensures var vec := Accepted(parses, s.handed[|ring.handed|..]);
            && outcome == (if vec == [] then WouldBlock else Slices(vec))
            && (s.consumerPosValue == s.producerPos || IsBusy(s, s.passed) || Total(vec) > 0x1000000)
  {
    hide Inv;
    s := ring;
    var vec, readTotal, n, more := [], 0, 0, true;
    while more && readTotal <= TOTAL_READ_THRESHOLD
      invariant Inv(s) && s.stage.Idle? && Extends(ring, s)
      invariant vec == Accepted(parses, s.handed[|ring.handed|..]) && readTotal == Total(vec)
      invariant !more ==> s.consumerPosValue == s.producerPos || IsBusy(s, s.passed)
      decreases more, if n < |schedule| then |schedule| - n else 0, s.producerPos - s.consumerPosValue
    {
      ghost var before := s;
      var slice;
      s, more, slice := Iteration(s, schedule, n);
      Ahead(s);
      ExtendsTrans(ring, before, s);
      assert slice.None? ==> s.handed == before.handed;
      if slice.Some? {
        assert s.handed[|ring.handed|..] == before.handed[|ring.handed|..] + [slice.value];
        AcceptedPush(parses, before.handed[|ring.handed|..], slice.value);
        if parses(slice.value) {
          TotalPush(vec, slice.value);
          vec, readTotal := vec + [slice.value], readTotal + |slice.value|;
        }
      }
      n := n + 4;
    }
    outcome := if s.stage.Failed? then Uninitialized else if vec == [] then WouldBlock else Slices(vec);
  }

  lemma Ahead(s: Ring)
    requires Inv(s)
    ensures s.consumerPosValue <= s.producerPos
  {
    Positions(s);
  }

  lemma AcceptedPush(parses: seq<byte> -> bool, slices: seq<seq<byte>>, x: seq<byte>)
    ensures Accepted(parses, slices + [x]) == Accepted(parses, slices) + if parses(x) then [x] else []
  {
    assert (slices + [x])[..|slices|] == slices;
  }

  lemma TotalPush(slices: seq<seq<byte>>, x: seq<byte>)
    ensures Total(slices + [x]) == Total(slices) + |x|
  {
    assert (slices + [x])[..|slices|] == slices;
  }
}
