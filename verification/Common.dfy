/** The values shared by the recorder's parser and its database. */
module Common {
  import opened Wrappers
  import opened Bytes

  type u16 = x: int | 0 <= x < 0x1_0000
  type u32 = x: int | 0 <= x < 0x1_0000_0000
  type u64 = x: int | 0 <= x < 0x1_0000_0000_0000_0000

  datatype Initiator = InitiatorLocal | InitiatorRemote

  datatype Sender = Local | Remote

  predicate Incoming(s: Sender) {
    s.Remote?
  }

  function SenderOf(incoming: bool): Sender {
    if incoming then Remote else Local
  }

  datatype MessageKind =
    | Disconnect | Bootstrap | Advertise | SwapRequest | SwapAck
    | GetCurrentBranch | CurrentBranch | Deactivate | GetCurrentHead | CurrentHead
    | GetBlockHeaders | BlockHeader
    | GetOperations | Operation
    | GetProtocols | Protocol
    | GetOperationHashesForBlocks | OperationHashesForBlocks
    | GetOperationsForBlocks | OperationsForBlocks
    | Unknown

  function KindFromTag(tag: nat): MessageKind {
    match tag
    case 0x01 => Disconnect
    case 0x02 => Bootstrap
    case 0x03 => Advertise
    case 0x04 => SwapRequest
    case 0x05 => SwapAck
    case 0x10 => GetCurrentBranch
    case 0x11 => CurrentBranch
    case 0x12 => Deactivate
    case 0x13 => GetCurrentHead
    case 0x14 => CurrentHead
    case 0x20 => GetBlockHeaders
    case 0x21 => BlockHeader
    case 0x30 => GetOperations
    case 0x31 => Operation
    case 0x40 => GetProtocols
    case 0x41 => Protocol
    case 0x50 => GetOperationHashesForBlocks
    case 0x51 => OperationHashesForBlocks
    case 0x60 => GetOperationsForBlocks
    case 0x61 => OperationsForBlocks
    case _ => Unknown
  }

  /** The tag of each kind of peer message. */
  function TagOf(kind: MessageKind): Option<nat> {
    match kind
    case Disconnect => Some(0x01)
    case Bootstrap => Some(0x02)
    case Advertise => Some(0x03)
    case SwapRequest => Some(0x04)
    case SwapAck => Some(0x05)
    case GetCurrentBranch => Some(0x10)
    case CurrentBranch => Some(0x11)
    case Deactivate => Some(0x12)
    case GetCurrentHead => Some(0x13)
    case CurrentHead => Some(0x14)
    case GetBlockHeaders => Some(0x20)
    case BlockHeader => Some(0x21)
    case GetOperations => Some(0x30)
    case Operation => Some(0x31)
    case GetProtocols => Some(0x40)
    case Protocol => Some(0x41)
    case GetOperationHashesForBlocks => Some(0x50)
    case OperationHashesForBlocks => Some(0x51)
    case GetOperationsForBlocks => Some(0x60)
    case OperationsForBlocks => Some(0x61)
    case Unknown => None
  }

  /** `kind` is what a tag stands for; a tag of no kind is unknown. */
  ghost predicate IsKind(kind: MessageKind, tag: nat) {
    if kind.Unknown? then forall other :: TagOf(other) != Some(tag) else TagOf(kind) == Some(tag)
  }

  lemma KindsAndTags(kind: MessageKind, tag: nat)
    ensures KindFromTag(tag) == kind <==> IsKind(kind, tag)
  {
    if kind.Unknown? && KindFromTag(tag) != kind {
      assert TagOf(KindFromTag(tag)) == Some(tag);
    }
  }

  datatype MessageType = Connection | Meta | Ack | P2p(kind: MessageKind)

  /** The one-byte code of a message type in its secondary index (`into_int`). */
  function TypeCode(ty: MessageType): byte {
    match ty
    case Connection => 0x00
    case Meta => 0x01
    case Ack => 0x02
    case P2p(Disconnect) => 0x03
    case P2p(Bootstrap) => 0x04
    case P2p(Advertise) => 0x05
    case P2p(SwapRequest) => 0x06
    case P2p(SwapAck) => 0x07
    case P2p(GetCurrentBranch) => 0x08
    case P2p(CurrentBranch) => 0x09
    case P2p(Deactivate) => 0x0a
    case P2p(GetCurrentHead) => 0x0b
    case P2p(CurrentHead) => 0x0c
    case P2p(GetBlockHeaders) => 0x0d
    case P2p(BlockHeader) => 0x0e
    case P2p(GetOperations) => 0x0f
    case P2p(Operation) => 0x10
    case P2p(GetProtocols) => 0x11
    case P2p(Protocol) => 0x12
    case P2p(GetOperationHashesForBlocks) => 0x13
    case P2p(OperationHashesForBlocks) => 0x14
    case P2p(GetOperationsForBlocks) => 0x15
    case P2p(OperationsForBlocks) => 0x16
    case P2p(Unknown) => 0xff
  }

  datatype RawAddr = V4(a: byte, b: byte, c: byte, d: byte, port: u16)
                   | V6(octets: seq<byte>, port: u16)

  type SocketAddr = x: RawAddr | x.V6? ==> |x.octets| == 16
    witness V4(0, 0, 0, 0, 0)

  /** The 16 octets of an address; IPv4 is mapped to `::ffff:a.b.c.d`. */
  function Octets(addr: SocketAddr): (o: seq<byte>)
    ensures |o| == 16
  {
    match addr
    case V4(a, b, c, d, _) => [0, 0, 0, 0, 0, 0, 0, 0, 0, 0, 0xff, 0xff, a, b, c, d]
    case V6(o, _) => o
  }

  /** A connection is named by the instant it was opened. */
  datatype ConnKey = ConnKey(ts: u64, nanos: u32)

  /** What the recorder remarks about a connection. */
  datatype Comments = Comments(
    incomingWrongPow: bool,
    incomingTooShort: Option<nat>,
    incomingUncertain: bool,
    incomingCannotDecrypt: Option<nat>,
    incomingSuspicious: Option<nat>,
    outgoingWrongPow: bool,
    outgoingTooShort: Option<nat>,
    outgoingUncertain: bool,
    outgoingWrongPk: bool,
    outgoingCannotDecrypt: Option<nat>)

  const NO_COMMENTS := Comments(false, None, false, None, None, false, None, false, false, None)

  datatype ConnItem = ConnItem(
    key: ConnKey,
    initiator: Initiator,
    remoteAddr: SocketAddr,
    peerPk: seq<byte>,
    comments: Comments)

  /** A stored chunk. The capture timestamp and the `net` flag are not modelled. */
  datatype Chunk = Chunk(cn: ConnKey, sender: Sender, counter: nat, bytes: seq<byte>, plain: seq<byte>)

  datatype ChunkKey = ChunkKey(cn: ConnKey, counter: nat, sender: Sender)

  datatype ChunkValue = ChunkValue(bytes: seq<byte>, plain: seq<byte>)

  function KeyOf(c: Chunk): ChunkKey {
    ChunkKey(c.cn, c.counter, c.sender)
  }

  function ValueOf(c: Chunk): ChunkValue {
    ChunkValue(c.bytes, c.plain)
  }

  /** A stored message: its chunks are those numbered `first..end` of its sender. */
  datatype Message = Message(
    cn: ConnKey,
    timestamp: u64,
    remoteAddr: SocketAddr,
    initiator: Initiator,
    sender: Sender,
    ty: MessageType,
    first: nat,
    end: nat)

  /** What the parser asks of the database. */
  datatype Effect = PutConnection(item: ConnItem) | PutChunk(chunk: Chunk) | PutMessage(message: Message)

  type Secret = int

  /** Everything the parser takes from outside: the node's identity, the
      cryptography, the proof-of-work check and the clock (the time at which a
      given chunk of a given connection is handled, in milliseconds). */
  datatype Env = Env(
    publicKey: seq<byte>,
    secretKey: seq<byte>,
    publicOf: seq<byte> -> seq<byte>,
    precompute: (seq<byte>, seq<byte>) -> Secret,
    nonces: (seq<byte>, seq<byte>, bool) -> (nat, nat),
    encrypt: (Secret, nat, seq<byte>) -> seq<byte>,
    decrypt: (Secret, nat, seq<byte>) -> Option<seq<byte>>,
    powOk: seq<byte> -> bool,
    clock: (ConnKey, Sender, nat) -> u64)

  /** Authenticated encryption: decryption undoes encryption under the same
      key and nonce, a ciphertext is 16 bytes longer than its plain text, and
      nothing else of another length is ever accepted. */
  ghost predicate SoundCrypto(env: Env) {
    && (forall k, n, p :: env.decrypt(k, n, env.encrypt(k, n, p)) == Some(p))
    && (forall k, n, p :: |env.encrypt(k, n, p)| == |p| + 16)
    && (forall k, n, c :: env.decrypt(k, n, c).Some? ==> |c| == |env.decrypt(k, n, c).value| + 16)
  }

  /** Key agreement: two sides that know each other's public key compute the
      same secret, and they take the same two nonces from the two connection
      messages, the one's own being the other's. */
  ghost predicate SoundHandshake(env: Env) {
    && (forall a, b :: env.precompute(env.publicOf(a), b) == env.precompute(env.publicOf(b), a))
    && (forall x, y, incoming ::
          env.nonces(x, y, incoming) == (env.nonces(y, x, !incoming).1, env.nonces(y, x, !incoming).0))
  }
}
