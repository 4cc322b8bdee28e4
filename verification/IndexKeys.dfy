/** The byte keys of the message tables' secondary indexes and of the chunk table. */
module IndexKeys {
  import opened Wrappers
  import opened Bytes
  import opened Common

  const TWO48 := 0x1_0000_0000_0000
  const TWO56 := 0x100_0000_0000_0000
  const TWO64 := 0x1_0000_0000_0000_0000

  /** One tag byte followed by the low 56 bits of the index, big-endian. */
  function TagKey(tag: byte, index: nat): (k: seq<byte>)
    ensures |k| == 8
  {
    BeBytes(index, 8)[0 := tag]
  }

  /** Reading the index back: the tag byte is zeroed. */
  function TagIndex(k: seq<byte>): Option<nat> {
    if |k| == 8 then Some(BeVal(k[0 := 0])) else None
  }

  function BoolTag(b: bool): byte {
    if b then 0xff else 0x00
  }

  /** `[type(1)][index(7)]` */
  function TypeKey(ty: MessageType, index: nat): seq<byte> {
    TagKey(TypeCode(ty), index)
  }

  /** `[sender(1)][index(7)]` */
  function SenderKey(s: Sender, index: nat): seq<byte> {
    TagKey(BoolTag(s.Remote?), index)
  }

  /** `[initiator(1)][index(7)]` */
  function InitiatorKey(i: Initiator, index: nat): seq<byte> {
    TagKey(BoolTag(i.InitiatorRemote?), index)
  }

  /** `[addr(16)][port(2)]`, the port little-endian. */
  function AddrPrefix(addr: SocketAddr): (p: seq<byte>)
    ensures |p| == 18
  {
    Octets(addr) + [addr.port % 256, addr.port / 256]
  }

  /** `[addr(16)][port(2)][index(6)]` */
  function AddrKey(addr: SocketAddr, index: nat): (k: seq<byte>)
    ensures |k| == 24
  {
    AddrPrefix(addr) + BeBytes(index, 8)[2..]
  }

  /** Reading the index back from the last 8 bytes, the two port bytes zeroed. */
  function AddrIndex(k: seq<byte>): Option<nat> {
    if |k| == 24 then Some(BeVal(k[16..][0 := 0][1 := 0])) else None
  }

  /** `[timestamp(8)][index(8)]` */
  function TimestampKey(timestamp: u64, index: nat): (k: seq<byte>)
    ensures |k| == 16
  {
    BeBytes(timestamp, 8) + BeBytes(index, 8)
  }

  /** Counter and sender interleaved in one number. */
  function Slot(k: ChunkKey): nat {
    if Incoming(k.sender) then k.counter * 2 + 1 else k.counter * 2
  }

  /** `[seconds(8)][nanos(4)][2 * counter + sender(8)]` */
  function ChunkKeyBytes(k: ChunkKey): (s: seq<byte>)
    ensures |s| == 20
  {
    BeBytes(k.cn.ts, 8) + BeBytes(k.cn.nanos, 4) + BeBytes(Slot(k), 8)
  }

  function ChunkKeyFromBytes(s: seq<byte>): Option<ChunkKey> {
    if |s| != 20 then None
    else
      BeValBound(s[..8]); BeValBound(s[8..12]); PowFacts();
      var c := BeVal(s[12..]);
      Some(ChunkKey(ConnKey(BeVal(s[..8]), BeVal(s[8..12])), c / 2, SenderOf(c % 2 != 0)))
  }

  lemma PowFacts()
    ensures Pow256(4) == 0x1_0000_0000 && Pow256(6) == TWO48 && Pow256(7) == TWO56 && Pow256(8) == TWO64
  {
    assert Pow256(2) == 0x1_0000;
    assert Pow256(4) == 256 * (256 * Pow256(2));
    assert Pow256(6) == 256 * (256 * Pow256(4));
    assert Pow256(8) == 256 * Pow256(7) == 256 * (256 * Pow256(6));
  }

  lemma LowBytes(index: nat)
    ensures BeVal(BeBytes(index, 7)) == index % TWO56
    ensures BeVal(BeBytes(index, 6)) == index % TWO48
  {
    PowFacts();
    BeRoundTrip(index, 7);
    BeRoundTrip(index, 6);
  }

  lemma BeValLeadingZero(s: seq<byte>)
    ensures BeVal([0] + s) == BeVal(s)
  {
    BeValHead([0] + s);
    assert ([0] + s)[1..] == s;
  }

  /** A tag key is its tag followed by the low seven bytes of the index. */
  lemma TagKeyShape(tag: byte, index: nat)
    ensures TagKey(tag, index) == [tag] + BeBytes(index, 7)
    ensures TagIndex(TagKey(tag, index)) == Some(index % TWO56)
  {
    TagBytes(tag, index);
    hide BeVal, Pow256, BeBytes, TagKey;
    var low := BeBytes(index, 7);
    assert ([tag] + low)[0 := 0] == [0] + low;
    BeValLeadingZero(low);
    LowBytes(index);
  }

  lemma TagBytes(tag: byte, index: nat)
    ensures TagKey(tag, index) == [tag] + BeBytes(index, 7)
  {
    BeBytesDrop(index, 8, 1);
    hide BeBytes;
  }

  lemma AddrKeyShape(addr: SocketAddr, index: nat)
    ensures AddrKey(addr, index) == AddrPrefix(addr) + BeBytes(index, 6)
    ensures AddrIndex(AddrKey(addr, index)) == Some(index % TWO48)
  {
    hide BeVal, Pow256, BeBytes, Octets;
    BeBytesDrop(index, 8, 2);
    var low := BeBytes(index, 6);
    var k := AddrKey(addr, index);
    assert k[16..][0 := 0][1 := 0] == [0] + ([0] + low);
    BeValLeadingZero(low);
    BeValLeadingZero([0] + low);
    LowBytes(index);
  }

  /** Two addresses share an index prefix exactly when they are the same
      endpoint after IPv4 addresses are mapped to IPv6. */
  lemma AddrPrefixInjective(a: SocketAddr, b: SocketAddr)
    ensures AddrPrefix(a) == AddrPrefix(b) <==> Octets(a) == Octets(b) && a.port == b.port
  {
    if AddrPrefix(a) == AddrPrefix(b) {
      assert AddrPrefix(a)[..16] == Octets(a) && AddrPrefix(b)[..16] == Octets(b);
      assert AddrPrefix(a)[16] == AddrPrefix(b)[16] && AddrPrefix(a)[17] == AddrPrefix(b)[17];
    }
  }

  lemma TypeCodeInjective(x: MessageType, y: MessageType)
    ensures TypeCode(x) == TypeCode(y) <==> x == y
  {
  }

  lemma BeExact(v: nat, width: nat)
    requires v < Pow256(width)
    ensures BeVal(BeBytes(v, width)) == v
  {
    BeRoundTrip(v, width);
    ModUnique(v, Pow256(width), 0, v);
  }

  lemma SlotExact(k: ChunkKey)
    requires k.counter < 0x8000_0000_0000_0000
    ensures BeVal(BeBytes(Slot(k), 8)) == Slot(k)
  {
    PowFacts();
    BeExact(Slot(k), 8);
  }

  lemma ConnKeyExact(c: ConnKey)
    ensures BeVal(BeBytes(c.ts, 8)) == c.ts && BeVal(BeBytes(c.nanos, 4)) == c.nanos
  {
    PowFacts();
    BeExact(c.ts, 8);
    BeExact(c.nanos, 4);
  }

  /** Below 2^63 chunks the chunk key codec is lossless, so that two chunks
      share a database row only when they are the same chunk. */
  lemma ChunkKeyRoundTrip(k: ChunkKey)
    requires k.counter < 0x8000_0000_0000_0000
    ensures ChunkKeyFromBytes(ChunkKeyBytes(k)) == Some(k)
  {
    var s := ChunkKeyBytes(k);
    var x, y, z := BeBytes(k.cn.ts, 8), BeBytes(k.cn.nanos, 4), BeBytes(Slot(k), 8);
    assert s == x + y + z;
    assert s[..8] == x && s[8..12] == y && s[12..] == z;
    ConnKeyExact(k.cn);
    SlotExact(k);
  }

  /** Within one connection the chunk table is ordered by counter, the local
      chunk of a number before the remote one. */
  lemma ChunkKeyOrder(a: ChunkKey, b: ChunkKey)
    requires a.cn == b.cn && a.counter < 0x8000_0000_0000_0000 && b.counter < 0x8000_0000_0000_0000
    ensures Less(ChunkKeyBytes(a), ChunkKeyBytes(b)) <==>
            a.counter < b.counter || (a.counter == b.counter && a.sender.Local? && b.sender.Remote?)
  {
    var p := BeBytes(a.cn.ts, 8) + BeBytes(a.cn.nanos, 4);
    LessPrefix(p, BeBytes(Slot(a), 8), BeBytes(Slot(b), 8));
    LessIsNumeric(BeBytes(Slot(a), 8), BeBytes(Slot(b), 8));
    SlotExact(a);
    SlotExact(b);
  }

  /** The time table is ordered by time, and by id at one time. */
  lemma TimestampKeyOrder(a: u64, i: nat, b: u64, j: nat)
    requires i < TWO64 && j < TWO64
    ensures Less(TimestampKey(a, i), TimestampKey(b, j)) <==> a < b || (a == b && i < j)
  {
    hide BeBytes, BeVal, Less;
    PowFacts();
    BeExact(a, 8);
    BeExact(b, 8);
    BeExact(i, 8);
    BeExact(j, 8);
    LessIsNumeric(BeBytes(a, 8), BeBytes(b, 8));
    LessIsNumeric(BeBytes(i, 8), BeBytes(j, 8));
    if a == b {
      LessPrefix(BeBytes(a, 8), BeBytes(i, 8), BeBytes(j, 8));
    } else {
      LessAtOnce(BeBytes(a, 8), BeBytes(b, 8), BeBytes(i, 8), BeBytes(j, 8));
    }
  }

  lemma {:induction false} LessAtOnce(a: seq<byte>, b: seq<byte>, x: seq<byte>, y: seq<byte>)
    requires |a| == |b| && a != b
    ensures Less(a + x, b + y) <==> Less(a, b)
  {
    if a[0] == b[0] {
      assert a == [a[0]] + a[1..] && b == [b[0]] + b[1..];
      LessAtOnce(a[1..], b[1..], x, y);
      assert (a + x)[1..] == a[1..] + x && (b + y)[1..] == b[1..] + y;
    }
  }

  // ---------------------------------------------------------------- reading keys back

  /** `decode` of the address index: the octets and the port. */
  function EndpointIn(k: seq<byte>): (seq<byte>, nat)
    requires |k| == 24
  {
    (k[..16], k[16] as nat + 256 * k[17] as nat)
  }

  lemma AddrKeyReadsBack(addr: SocketAddr, index: nat)
    requires index < TWO48
    ensures EndpointIn(AddrKey(addr, index)) == (Octets(addr), addr.port)
    ensures AddrIndex(AddrKey(addr, index)) == Some(index)
  {
    hide BeBytes, Octets, AddrKey, AddrIndex;
    AddrKeyShape(addr, index);
    var k := AddrPrefix(addr) + BeBytes(index, 6);
    assert k[..16] == Octets(addr) && k[16] == addr.port % 256 && k[17] == addr.port / 256;
  }

  /** `decode` of the sender and initiator indexes. */
  function TagIsSet(k: seq<byte>): bool
    requires |k| == 8
  {
    k[0] != 0
  }

  /** `from_int`. */
  function TypeFromCode(code: byte): MessageType {
    match code
    case 0x00 => Connection
    case 0x01 => Meta
    case 0x02 => Ack
    case 0x03 => P2p(Disconnect)
    case 0x04 => P2p(Bootstrap)
    case 0x05 => P2p(Advertise)
    case 0x06 => P2p(SwapRequest)
    case 0x07 => P2p(SwapAck)
    case 0x08 => P2p(GetCurrentBranch)
    case 0x09 => P2p(CurrentBranch)
    case 0x0a => P2p(Deactivate)
    case 0x0b => P2p(GetCurrentHead)
    case 0x0c => P2p(CurrentHead)
    case 0x0d => P2p(GetBlockHeaders)
    case 0x0e => P2p(BlockHeader)
    case 0x0f => P2p(GetOperations)
    case 0x10 => P2p(Operation)
    case 0x11 => P2p(GetProtocols)
    case 0x12 => P2p(Protocol)
    case 0x13 => P2p(GetOperationHashesForBlocks)
    case 0x14 => P2p(OperationHashesForBlocks)
    case 0x15 => P2p(GetOperationsForBlocks)
    case 0x16 => P2p(OperationsForBlocks)
    case _ => P2p(Unknown)
  }

  /** Decoding a row of a tag index gives back what was encoded. */
  lemma TagKeysReadBack(ty: MessageType, sender: Sender, initiator: Initiator, index: nat)
    requires index < TWO56
    ensures var k := TypeKey(ty, index); |k| == 8 && TypeFromCode(k[0]) == ty && TagIndex(k) == Some(index)
    ensures var k := SenderKey(sender, index); |k| == 8 && SenderOf(TagIsSet(k)) == sender && TagIndex(k) == Some(index)
    ensures var k := InitiatorKey(initiator, index);
            |k| == 8 && (TagIsSet(k) <==> initiator.InitiatorRemote?) && TagIndex(k) == Some(index)
  {
    hide TagIndex, BeBytes;
    TagKeyShape(TypeCode(ty), index);
    TagKeyShape(BoolTag(sender.Remote?), index);
    TagKeyShape(BoolTag(initiator.InitiatorRemote?), index);
    assert index % TWO56 == index;
  }
}
