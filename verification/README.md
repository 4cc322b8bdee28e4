# Verified model of the TezEdge debugger

A Dafny model of the parts of the TezEdge debugger that carry its meaning, with
proofs that hold for all inputs, all runs and all interleavings. `dafny verify
dfyconfig.toml` checks the whole project.

## What is modelled

1. **Reassembly of peer-to-peer streams** (`StreamBuffer`, `ChunkParser`,
   `Connections`, `MessageParsing`). Captured payloads are cut into chunks by a
   two-byte length, a two-sided handshake derives keys, chunks are decrypted under
   counting nonces, and chunks are grouped into messages by size. Each operation has
   a pure step function; the classes are proved to refine it. `Segmentation`,
   `MessageRanges`, `MessageLaws`, `Directions`, `ConnectionRuns` and `RunLaws` say
   what every run of a connection means in terms of the captured bytes alone.
   `ConnectionRecords` and `Suspicions` do so for the connection record. `Pseudonode`,
   `Peering` and `EndToEnd` model the sending side and its handshake, so that the round
   trip from `write_msg` to the stored messages, and to the answer of a query
   (`RecordedDetails`), is a theorem; `RecordedRows` says what all tables hold after any
   run of the recorder.
2. **The message database** (`Store`, `StoreLaws`, `Eviction`, `Recorder`,
   `IndexKeys`, `IndexScans`, `SortedIntersection`, `Fetching`): the primary table,
   five indexes over byte keys, eviction, restarts, and filtered queries against a
   linear scan.
3. **The ring buffer consumer** (`RingBuffer`) as a transition system of single loads
   and stores against a kernel that reserves, fills, commits and discards records, as
   the BPF ring buffer documentation of the Linux kernel
   (`Documentation/bpf/ringbuf.rst`) describes it.
4. **Memory accounting** (`Allocation`, `AllocationStates`, `Histories`,
   `Aggregators`, `Trackers`), the call tree of a report (`FrameReports`,
   `SortedReports`, `TreeReports`) and the naming of its frames through the memory map
   (`StackResolving`, `ResolvedReports`).
5. **Symbol lookup** (`SymbolTable`).
6. **The log indexer** (`LogIndexer`): two threads, one queue, as a transition system.

`Bytes`, `Sums`, `Common`, `Pages` and `PageTraces` hold shared definitions.

## Assumptions

- Cryptography is an abstract pair: decryption undoes encryption under the same key
  and nonce, and a ciphertext is 16 bytes longer than its plain text. Nonces are
  natural numbers. Two sides that know each other's public key compute the same secret,
  and take the same two nonces from the two connection messages, each the other's own as
  its remote one. The proof-of-work check and the clock are parameters.
- The key-value store is a set of ordered tables whose operations succeed; the
  full-text index is an append-only list of documents.
- Connection keys are distinct. A key is the clock instant at which a connection was
  opened, in nanoseconds; nothing in the program keeps two connections from having the
  same one. Captured payloads are not empty: the main loop drops empty ones.
- No path of the memory map ends in a slash, and loading the symbols of a file keeps its
  base name.
- Counters of 64 bits, positions and sums do not overflow. The one overflow that
  matters, the message header plus four in 32 bits, is modelled: it wraps.
- The size of the ring buffer is a power of two of at least a page, so masking is
  taking the remainder.

## Where the code does less than it seems

- A message limit of 0 never evicts anything (`StoreLaws.Retention`).
- Complete chunks buffered during the handshake wait until the next payload of their
  direction (`RunLaws.UnfedDirection`, `RunLaws.EarlyChunkWaits`).
- Query cursors lose their high bits in the indexes (`Fetching.CursorIff`), and a
  forward query over several types is merged in the wrong order (`Fetching.ForwardMerge`,
  `Fetching.ForwardQueryDisordered`).
- Siblings of a report with one symbol and one size replace each other. Call sites in
  one mapping of up to 4 GiB never do, since the symbol holds the offset; addresses do
  whose files have one base name and whose offsets agree modulo 2^32, as when a file is mapped executable
  twice (`SortedReports.AddsUpIff`, `StackResolving.SameNameIff`,
  `ResolvedReports.TwinExample`).
- The test peer loses what arrives together with the other side's connection message,
  behind it (`Peering.Initiate`).
- A free by another process and a mark taken away part the two page trackers
  (`Trackers.SameLiveIff`).
- The test peer waits for ever on a stream that ends within a chunk and on a chunk with a
  body of 0xffff bytes (`Pseudonode.ChunkBuffer.ReadChunk`).
- The page cache counters of `Group` and of `Aggregator` go wrong when a marked page is
  allocated again on another stack (`AllocationStates.CacheTrace`, `Aggregators.Traced`).
- `SymbolTable::find` never probes entry 0 and can pass over an entry when ranges
  overlap (`SymbolTable.SearchMisses`).
- A log line queued while the other thread commits can be left out of the index at
  shutdown (`LogIndexer.Shutdown`).

## Model

| member | source | states |
|---|---|---|
| `StreamBuffer.Buffer.HandleData` | tezedge-recorder/src/processor/chunk_parser/buffer.rs:19-28 | a payload is appended behind what is buffered; nothing else changes |
| `StreamBuffer.Buffer.HaveChunk` | tezedge-recorder/src/processor/chunk_parser/buffer.rs:46-53 | the first chunk, exactly when the two length bytes and everything they announce have arrived |
| `StreamBuffer.Buffer.Cleanup` | tezedge-recorder/src/processor/chunk_parser/buffer.rs:55-65 | everything buffered becomes one numbered chunk; an empty buffer gives none and keeps its counter |
| `StreamBuffer.Buffer.Next` | tezedge-recorder/src/processor/chunk_parser/buffer.rs:71-94 | the first complete chunk with its number leaves the buffer, the rest stays; otherwise nothing changes |
| `StreamBuffer.CutSound` | tezedge-recorder/src/processor/chunk_parser/buffer.rs:35-94 | cutting a stream to the end loses and invents no byte, every piece is a chunk, and no complete chunk is left behind |
| `StreamBuffer.CutUnique` | tezedge-recorder/src/processor/chunk_parser/buffer.rs:35-94 | a stream of whole chunks followed by an incomplete one is cut back into exactly those chunks |
| `StreamBuffer.CutAppend` | tezedge-recorder/src/processor/chunk_parser/buffer.rs:19-94 | cutting `a + b` is cutting `a` and then its remainder followed by `b` |
| `ChunkParser.NextDecrypted` | tezedge-recorder/src/processor/chunk_parser/state.rs:295-307 | one chunk is taken and decrypted under the current nonce; a failure records its number, drops the chunk and keeps the nonce |
| `ChunkParser.HandleKeyed` | tezedge-recorder/src/processor/chunk_parser/parser.rs:207-225 | the loop over decrypted chunks, then over raw ones after a failure, does to record, direction and database what the recursive definition of one payload does |
| `ChunkParser.HandleRaw` | tezedge-recorder/src/processor/chunk_parser/parser.rs:232-239 | after a failure every further complete chunk is handed on undecrypted |
| `ChunkParser.HandleDone` | tezedge-recorder/src/processor/chunk_parser/parser.rs:190-241 | one payload of a direction in any of the four modes after the handshake |
| `Connections.StepKeepsInv` | tezedge-recorder/src/processor/chunk_parser/parser.rs:86-160 | any non-empty payload from either side keeps: a direction is marked as having its connection message exactly when its buffer holds one, and never both at once |
| `Connections.Connection.constructor` | tezedge-recorder/src/processor/connection.rs:35-43 | a new connection has empty buffers and two fresh message parsers that share its database |
| `Connections.Connection.TakeConnectionMessage` | tezedge-recorder/src/processor/chunk_parser/state.rs:139-157 | the connection message becomes chunk 0 in clear; the buffer always holds it |
| `Connections.Connection.DeriveKeys` | tezedge-recorder/src/processor/chunk_parser/state.rs:173-244 | keys, first chunks and remarks of both directions, or the flushed buffers when no key can be made; no lookup can fail |
| `Connections.Connection.BecomeUncertain` | tezedge-recorder/src/processor/chunk_parser/parser.rs:107-151 | both directions are flushed and the record is marked |
| `Connections.Connection.Finish` | tezedge-recorder/src/processor/connection.rs:50-71 | the record is stored first, then the first chunk of each direction |
| `Connections.Connection.HandleHandshake` | tezedge-recorder/src/processor/chunk_parser/parser.rs:79-161 | the handshake transition for one payload; the panicking arm is unreachable |
| `Connections.Connection.HandleData` | tezedge-recorder/src/processor/connection.rs:45-98 | the object and its database after a payload are the pure step applied to what they were; the invariant is kept |
| `Segmentation.FeedIsMany` | tezedge-recorder/src/processor/chunk_parser/parser.rs:200-240 | a payload does, chunk by chunk, what its complete chunks call for |
| `Segmentation.FeedSplit` | tezedge-recorder/src/processor/chunk_parser/parser.rs:207-239 | one payload split in two gives the same direction, record and effects, also when a chunk fails to decrypt on the way |
| `Segmentation.FeedAllIsFeed` | tezedge-recorder/src/processor/chunk_parser/parser.rs:207-239 | segmentation independence: any number of payloads leave and store what their concatenation does |
| `Segmentation.FeedSame` | tezedge-recorder/src/processor/chunk_parser/parser.rs:200-240 | remarks on the connection record, including those of the other direction, never change what a direction stores |
| `MessageParsing.MessageParser.HandleChunk` | tezedge-recorder/src/processor/message_parser.rs:34-108 | parser state, record and database after one chunk are those of the pure step |
| `MessageRanges.LinkNext` | tezedge-recorder/src/tables/message.rs:220-244 | linking a chunk compares the sum of sizes with the declared size (header + 4 modulo 2^32): partial, full or overrun |
| `MessageRanges.HandshakeStep` | tezedge-recorder/src/processor/message_parser.rs:62-65 | chunks 0, 1 and 2 are a message each |
| `MessageRanges.PeerStep` | tezedge-recorder/src/processor/message_parser.rs:66-107 | from chunk 3 on the message in progress goes on, ends or is overrun exactly as the sizes say; the builder ends at the next chunk number |
| `MessageRanges.ErrorStep` | tezedge-recorder/src/processor/message_parser.rs:39-58 | after a chunk that is too small, chunks are stored and never again a message |
| `MessageRanges.Parse` | tezedge-recorder/src/processor/message_parser.rs:34-108 | over any numbered chunks the parser stores all of them, and exactly the messages of the longest run of chunks that tiles into groups of declared size |
| `MessageLaws.UnderstoodUnique` | tezedge-recorder/src/tables/message.rs:220-244 | there is only one tiling of chunks into groups, so the messages are determined by the sizes alone |
| `MessageLaws.CompleteGroupSize` | tezedge-recorder/src/tables/message.rs:220-244 | the plain sizes of a stored peer message add up to its header plus four, without wrap-around |
| `MessageLaws.RangesOrdered` | tezedge-recorder/src/processor/message_parser.rs:62-102 | messages start as a prefix of Connection 0..1, Meta 1..2, Ack 2..3; peer messages follow with non-empty, increasing, disjoint ranges from 3 on |
| `MessageLaws.GapsAreOverruns` | tezedge-recorder/src/processor/message_parser.rs:94-100 | a chunk before the open end that is in no message belongs to a group whose last chunk overran the declared size |
| `Directions.KeyedMeaning` | tezedge-recorder/src/processor/chunk_parser/state.rs:275-346 | the whole meaning of a keyed direction: every chunk stored under its number except the first undecryptable one, whose number is remarked; messages only from before the first unreadable or too small chunk |
| `Directions.Conservation` | tezedge-recorder/src/processor/chunk_parser/state.rs:295-324 | stored bytes in order, the one undecryptable chunk in its place, and the buffer are all the bytes received |
| `ConnectionRuns.RunShape` | tezedge-recorder/src/processor/connection.rs:45-98 | the state and the stored effects of every run of payloads, in terms of the captured bytes of the two directions alone |
| `RunLaws.DirectionOfRun` | tezedge-recorder/src/processor/connection.rs:45-98 | chunks, messages, buffer, mode and the remark on decryption of a keyed direction after any run, whatever the other direction did |
| `RunLaws.RunConserves` | tezedge-recorder/src/processor/connection.rs:45-98 | after any run the stored chunks in order, with one chunk missing exactly at the number remarked, and the buffer are all the bytes the side sent |
| `RunLaws.RunRanges` | tezedge-recorder/src/processor/message_parser.rs:62-102 | after any run the first messages own chunks 0, 1 and 2, and peer messages follow with ordered, disjoint ranges of stored chunks, each as long as its header says; all name opener, address and the time of their last chunk |
| `ConnectionRuns.KeyedFeedMarks` | tezedge-recorder/src/processor/chunk_parser/parser.rs:207-225 | a payload remarks on its own direction only, at the first chunk that does not decrypt |
| `RunLaws.UnfedDirection` | tezedge-recorder/src/processor/chunk_parser/state.rs:139-157 | until a direction is fed again only its connection message is stored, as a chunk and, when long enough, as a message; complete chunks that arrived before the key wait in the buffer |
| `RunLaws.EarlyChunkWaits` | tezedge-recorder/src/processor/chunk_parser/state.rs:139-157 | a run of two payloads after which a complete chunk is buffered and not stored |
| `ConnectionRecords.RunRecord` | tezedge-recorder/src/processor/connection.rs:50-98 | the record stored by any run, in terms of the captured bytes: whether there is one, identity, how the handshake went, where each direction stopped decrypting |
| `ConnectionRecords.RunOrder` | tezedge-recorder/src/processor/connection.rs:56-93 | a payload adds rows of its own side only; the one that ends the handshake adds the record, then the local, then the remote rows |
| `Suspicions.ParseSuspects` | tezedge-recorder/src/processor/message_parser.rs:66-93 | the remark on a suspicious chunk names the last understood chunk that is inside a message and looks like the beginning of one |
| `Suspicions.RunSuspicion` | tezedge-recorder/src/processor/message_parser.rs:66-93 | over any interleaving it is that of the side that had a new one last |
| `Suspicions.RowIsState` | tezedge-recorder/src/processor/chunk_parser/parser.rs:207-225 | the stored record is the record as known at the end of the handshake or at the last failure to decrypt |
| `RunLaws.UncertainIff` | tezedge-recorder/src/processor/chunk_parser/state.rs:126-137 | a connection is given up if and only if one side already holds more than 0x20000 bytes when it sends again before the other side completes its connection message |
| `RunLaws.GivenUp` | tezedge-recorder/src/processor/chunk_parser/state.rs:126-137 | then no message is stored and all bytes are, except the payload it was given up on |
| `RunLaws.NoKey` | tezedge-recorder/src/processor/chunk_parser/state.rs:232-243 | when no key can be derived all bytes are stored and no message |
| `Pseudonode.PiecesSound` | pseudonode/src/buffer.rs:42-47 | the pieces of a message are not empty, of 0xffe0 bytes but for the last one, and concatenate to it |
| `Pseudonode.WriteMsg` | pseudonode/src/buffer.rs:34-50 | the stream grows by the sealed pieces in order and the nonce by their number |
| `Pseudonode.ChunkBuffer.Shift` | pseudonode/src/buffer.rs:106-109 | moving the rest to the front in place drops exactly the first bytes |
| `Pseudonode.ChunkBuffer.ReadChunk` | pseudonode/src/buffer.rs:98-116 | over any portions in which bytes arrive, the chunk and the remaining bytes are those the buffer of the recorder cuts; nothing is returned exactly when the stream ends first or the chunk exceeds the buffer, where the program reads nothing for ever |
| `Pseudonode.LargestNeverArrives` | pseudonode/src/buffer.rs:83-86 | of the chunks that are complete, exactly those with a body of 0xffff bytes do not fit the buffer |
| `Pseudonode.ReadMsg` | pseudonode/src/buffer.rs:52-80 | on every stream, in any portions: the message and nonce, a panic or waiting for ever, and the bytes left, as the recursive definition over the stream says |
| `Pseudonode.ReadUndoesWrite` | pseudonode/src/buffer.rs:34-80 | on what was written for a message, reading gives exactly the message and the final nonce, and leaves what follows it |
| `EndToEnd.Send` | pseudonode/src/buffer.rs:34-50 | the bytes on the wire of a whole script of messages |
| `Peering.Initiate` | pseudonode/src/handshake.rs:34-50 | the side that speaks first: it sends its connection message and derives key and nonces from its own secret key, its own chunk and the first chunk that arrives; what comes with it, behind it, is lost |
| `Peering.Respond` | pseudonode/src/handshake.rs:52-66 | the side that answers, likewise |
| `Peering.SidesAgree` | pseudonode/src/handshake.rs:34-66 | both sides derive one secret, and the nonce the one writes with is the one the other reads with |
| `Peering.Meet` | pseudonode/src/handshake.rs:34-66 | initiator and responder, each hearing what the other sent, come to such a pair of sessions |
| `Peering.PeerReads` | pseudonode/src/handshake.rs:34-66 | so a message one side writes is read back by the other |
| `Peering.RecorderAgrees` | tezedge-recorder/src/processor/chunk_parser/key.rs:24-67 | the recorder, from the node's secret key alone, derives for each direction the key and the nonce that side writes with |
| `RunLaws.RoundTrip` | tezedge-recorder/src/processor/message_parser.rs:34-108 | end to end: node and peer derive their keys each on its own side; a connection message, metadata, acknowledge and any well-formed peer messages, in any payloads and any interleaving, are stored as exactly those messages, in order, with their types, the opener and address of the connection and the time of their last chunk, and the chunks of each range are the chunks sent and concatenate to its bytes |
| `RecordedDetails.PayloadAbout` | tezedge-recorder/src/processor/chunk_parser/parser.rs:79-241 | a payload stores rows of its own connection only |
| `RecordedDetails.EachFollows` | tezedge-recorder/src/main_loop.rs:55-64 | in every run of the recorder each connection is where it would be had it been alone, and the rows under its key are rows it stored |
| `RecordedDetails.SentIsFound` | tezedge-recorder/src/database/rocks.rs:841-855 | whatever other connections, evictions and restarts there were, the details of a message that is still listed are exactly the bytes of a message that was sent, in clear and as captured, of its type; its row names the opener, the address and the time of its last chunk |
| `RecordedRows.ChunksExactly` | tezedge-recorder/src/database/rocks.rs:147-185 | in every reachable state the chunk table holds exactly the chunks the connections stored, as they stored them, except those in the range of a message that was stored and is no longer listed |
| `RecordedRows.ConnectionsExactly` | tezedge-recorder/src/database/rocks.rs:208-221 | a connection is in its table exactly when its handshake is over, by its opening event; its row says how the handshake went, with the public key of the peer when proved, and where each direction stopped decrypting |
| `RecordedRows.SuspicionExactly` | tezedge-recorder/src/processor/message_parser.rs:66-107 | and the last chunk that went on with a message but looks like the beginning of one, as of when the row was stored |
| `RecordedRows.ListedSays` | tezedge-recorder/src/tables/message.rs:252-270 | every listed message names the opener and the address of its connection and the time of its last chunk |
| `RecordedRows.DirectionClimbs` | tezedge-recorder/src/processor/message_parser.rs:62-107 | a direction stores a message behind all its chunks and before all later ones |
| `RecordedDetails.SentIsListed` | tezedge-recorder/src/database/rocks.rs:230-275 | without a limit every message the peer sent is listed |
| `IndexKeys.TagKeyShape` | tezedge-recorder/src/tables/secondary_indexes/message_ty.rs:18-36 | a key is its tag byte followed by the low seven bytes of the id, and decodes to the id modulo 2^56 |
| `IndexKeys.AddrKeyShape` | tezedge-recorder/src/tables/secondary_indexes/message_addr.rs:20-56 | a key is the 18-byte endpoint prefix followed by the low six bytes of the id, and decodes to the id modulo 2^48 |
| `IndexKeys.AddrPrefixInjective` | tezedge-recorder/src/tables/secondary_indexes/message_addr.rs:20-34 | two endpoints share a prefix exactly when port and address agree after IPv4 is mapped to IPv6 |
| `IndexKeys.TagKeysReadBack` | tezedge-recorder/src/tables/secondary_indexes/message_ty.rs:26-36 | decoding a row of the type, sender and initiator indexes gives back what was encoded |
| `IndexKeys.TimestampKeyOrder` | tezedge-recorder/src/tables/secondary_indexes/timestamp.rs:15-24 | byte order of the time index is time order, and id order at one time |
| `IndexKeys.AddrKeyReadsBack` | tezedge-recorder/src/tables/secondary_indexes/message_addr.rs:36-56 | decoding a row of the address index gives back octets, port and id |
| `Common.KindsAndTags` | tezedge-recorder/src/common.rs:129-159 | a tag is read as a kind exactly when it is the tag of that kind, and as unknown exactly when it is the tag of none |
| `Fetching.SameEndpointIs` | tezedge-recorder/src/tables/secondary_indexes/message_addr.rs:20-34 | two IPv4 endpoints are one exactly when all octets and the port agree; an IPv6 endpoint is an IPv4 one exactly when it is its mapped address |
| `IndexKeys.ChunkKeyRoundTrip` | tezedge-recorder/src/tables/chunk.rs:159-186 | decoding an encoded chunk key gives the key back |
| `IndexKeys.ChunkKeyOrder` | tezedge-recorder/src/tables/chunk.rs:159-171 | byte order of chunk keys of a connection is counter order, local before remote |
| `StoreLaws.RowsApart` | tezedge-recorder/src/tables/secondary_indexes/timestamp.rs:15-38 | below 2^48 two different ids share no row in any of the five indexes |
| `Store.Db.Reopen` | tezedge-recorder/src/database/rocks.rs:116-143 | the counter recovered is one past the greatest id |
| `Store.Db.RemoveMessage` | tezedge-recorder/src/database/rocks.rs:147-185 | a message, its five index rows and exactly the chunks of its range are deleted |
| `Store.Db.StoreMessage` | tezedge-recorder/src/database/rocks.rs:230-275 | the id is reserved, the message `limit` positions back evicted, and six rows added |
| `Store.Db.Details` | tezedge-recorder/src/database/rocks.rs:841-855 | the chunks of the range in order, up to the first one missing |
| `StoreLaws.Retention` | tezedge-recorder/src/database/rocks.rs:230-275 | over any stores and restarts the ids listed are exactly the last `limit` of all ids (all of them when the limit is absent or 0), each index is the image of the primary table, and no restart is noticed |
| `StoreLaws.ReopenKeeps` | tezedge-recorder/src/database/rocks.rs:116-143 | reopening recovers the counter that was lost |
| `Eviction.RemoveKeeps` | tezedge-recorder/src/database/rocks.rs:147-185 | evicting a message takes away no chunk of any other message, stored or in progress |
| `Eviction.PutMessageKeeps` | tezedge-recorder/src/database/rocks.rs:230-275 | storing a message with the eviction it causes keeps every listed message complete |
| `Eviction.StepKeeps` | tezedge-recorder/src/processor/message_parser.rs:104-107 | a payload of a live connection keeps all listed messages complete and disturbs no other connection |
| `Recorder.After` | tezedge-recorder/src/database/rocks.rs:208-275 | every state of the whole recorder, under any events of any connections and restarts, is sound |
| `Recorder.DetailsComplete` | tezedge-recorder/src/database/rocks.rs:841-855 | in every reachable state `details` finds every chunk of every listed message: it never stops early |
| `Recorder.RangesDisjoint` | tezedge-recorder/src/database/rocks.rs:147-185 | no two listed messages share a chunk |
| `SortedIntersection.HeapifyIs` | tezedge-recorder/src/database/sorted_intersect.rs:117-125 | sorting keeps the entries and puts the next one to pop last |
| `SortedIntersection.FillHeap` | tezedge-recorder/src/database/sorted_intersect.rs:128-148 | one element of every iterator, or failure exactly when one is exhausted |
| `SortedIntersection.IsHit` | tezedge-recorder/src/database/sorted_intersect.rs:152-159 | true exactly when all values are equal |
| `SortedIntersection.SortedIntersect` | tezedge-recorder/src/database/sorted_intersect.rs:58-114 | over strictly sorted iterators: the first `limit` elements of the set intersection, in order |
| `SortedIntersection.SharedIs` | tezedge-recorder/src/database/sorted_intersect.rs:56-58 | that intersection is sorted and holds exactly the elements of all iterators |
| `IndexScans.Scan` | tezedge-recorder/src/database/rocks.rs:490-503 | a prefix-bounded iterator delivers exactly the keys of the prefix from the start key on, in key order |
| `IndexScans.PrefixContiguous` | tezedge-recorder/src/database/rocks.rs:498-503 | once the prefix changes it does not come back |
| `IndexScans.ScanIsIdScan` | tezedge-recorder/src/tables/secondary_indexes/message_ty.rs:18-36 | scanning index rows scans the ids of the matching messages in id order |
| `Fetching.ScanTag` | tezedge-recorder/src/database/rocks.rs:507-553 | the ids with a given type, sender or initiator at or behind the cursor modulo 2^56, in order |
| `Fetching.ScanAddr` | tezedge-recorder/src/database/rocks.rs:554-581 | the ids with a given endpoint at or behind the cursor modulo 2^48, in order |
| `Fetching.KMergeDescends` | tezedge-recorder/src/database/rocks.rs:505 | merging the scans of distinct types backward gives one descending list |
| `Fetching.ForwardMerge` | tezedge-recorder/src/database/rocks.rs:505 | merging them forward keeps the order if and only if at most one of them is not empty |
| `Fetching.TwoTypesAhead` | tezedge-recorder/src/database/rocks.rs:478-506 | the first two messages stored, of two types: their types cannot be merged going forward |
| `Fetching.ForwardQueryDisordered` | tezedge-recorder/src/database/rocks.rs:400-665 | two stores and a forward query by their two types: the answer is not in the order of the linear scan, and with a limit of one not its first row |
| `Fetching.ScanTypes` | tezedge-recorder/src/database/rocks.rs:478-506 | for distinct types the merged scan holds the matching ids, in order if and only if, going forward, at most one of the types occurs at or behind the cursor; otherwise it does not begin with the least |
| `Fetching.Iterators` | tezedge-recorder/src/database/rocks.rs:473-581 | one sorted iterator per filter given |
| `Fetching.IntersectionIsScan` | tezedge-recorder/src/database/rocks.rs:624-665 | the intersection of these iterators is the linear scan of the primary table |
| `Fetching.FetchMessages` | tezedge-recorder/src/database/rocks.rs:400-665 | for every filter combination, cursor, limit and direction whose types can be merged in order, the rows are the first `limit` rows of a linear scan of the primary table, on every database that stores and restarts can produce; for a filter by distinct types alone this is if and only if |
| `Fetching.CursorIff` | tezedge-recorder/src/tables/secondary_indexes/message_addr.rs:20-34 | a filtered query starts exactly at its cursor if and only if the cursor is below 2^48 or its low 56 and 48 bits still reach the same ids |
| `Fetching.CursorExact` | tezedge-recorder/src/tables/secondary_indexes/message_addr.rs:20-34 | with a cursor below 2^48, or none, the scan starts exactly at the cursor |
| `Fetching.CursorTruncated` | tezedge-recorder/src/tables/secondary_indexes/message_addr.rs:20-34 | from the cursor 2^48 the endpoint filter reaches id 0 only going backward, and everything going forward |
| `RingBuffer.RingSafe` | bpf-ring-buffer/src/lib.rs:222-317 | over all interleavings: "read uninitialized data" is never reported; positions are ordered, 8-aligned and within one buffer size; the slices handed over are exactly the committed records in reservation order up to the consumed point, none of them busy; and every record not yet given back is intact in memory |
| `RingBuffer.HistoryFixed` | bpf-ring-buffer/src/lib.rs:222-317 | no slice is taken back and no committed or discarded record changes for the rest of a run |
| `RingBuffer.AlignedIs` | bpf-ring-buffer/src/lib.rs:281-284 | a record takes the least multiple of eight bytes that holds it |
| `RingBuffer.ReserveKeeps` | bpf-ring-buffer/src/lib.rs:302-305 | a reservation within one buffer size of the published consumer position overwrites no record still to be read |
| `RingBuffer.FinishKeeps` | bpf-ring-buffer/src/lib.rs:273-279 | a commit or discard touches the header of its own record only |
| `RingBuffer.HeaderRead` | bpf-ring-buffer/src/lib.rs:264-271 | the masked 64-bit load gives the header of the first unread record |
| `RingBuffer.YieldReads` | bpf-ring-buffer/src/lib.rs:279-291 | length and discard flag are those reserved, the slice lies inside the doubled mapping and is the committed data |
| `RingBuffer.Iteration` | bpf-ring-buffer/src/lib.rs:235-310 | one pass through the loop, with any kernel steps between its loads and stores |
| `RingBuffer.Read` | bpf-ring-buffer/src/lib.rs:222-317 | a call never fails, returns exactly the parsed slices of the committed records it passed, and stops only at the producer, at a busy record or past 16 MiB |
| `FrameReports.BuiltAt` | tezedge-memprof/src/history/report.rs:56-68 | after any inserts the tree has a node for exactly the prefixes of the stacks, holding the sum over the stacks with that prefix |
| `FrameReports.BuiltInAnyOrder` | tezedge-memprof/src/history/report.rs:56-68 | the tree does not depend on the order of insertion |
| `FrameReports.Strip` | tezedge-memprof/src/history/report.rs:70-84 | the stripping loop, in any order of the children |
| `FrameReports.StrippedSum` | tezedge-memprof/src/history/report.rs:70-84 | what is stripped moves into the remainder, no more and no less, for memory and page cache |
| `FrameReports.Survivors` | tezedge-memprof/src/history/report.rs:70-84 | below the root exactly the prefixes whose sum reaches the threshold survive, with their sums |
| `FrameReports.BuiltBalanced` | tezedge-memprof/src/history/report.rs:56-68 | children and remainder never exceed a node |
| `SortedReports.SortFrames` | tezedge-memprof/src/history/report.rs:86-112 | on a balanced tree no subtraction underflows, in any order of the children |
| `SortedReports.DisplaySum` | tezedge-memprof/src/history/report.rs:86-112 | at every node: value = under threshold + unknown + children shown + children lost to an equal sort key, for memory and page cache |
| `SortedReports.ValuesAddUp` | tezedge-memprof/src/history/report.rs:18-42 | memory adds up at a node if and only if no two resolved siblings of equal non-zero size have the same symbol, in any order of the children |
| `SortedReports.OneDisplayIs` | tezedge-memprof/src/history/report.rs:86-112 | every balanced tree has a display |
| `SortedReports.CachesAddUp` | tezedge-memprof/src/history/report.rs:18-42 | page cache adds up at a node in every order of the children if and only if no two siblings of equal size and symbol hold any |
| `SortedReports.AddsUpIff` | tezedge-memprof/src/history/report.rs:86-112 | memory and page cache add up at every node, in every order, if and only if at no node two resolved siblings have equal size and symbol and a non-zero amount |
| `StackResolving.BaseNameIs` | tezedge-memprof/src/table.rs:70-78 | the name of an executable is what follows the last slash of its path |
| `StackResolving.ResolveIs` | tezedge-memprof/src/stack.rs:139-182 | what the symbol of an address says: offset, executable, function and category, by cases; none without a mapped file with symbols |
| `StackResolving.SameNameIff` | tezedge-memprof/src/stack.rs:150-182 | two addresses get the same symbol if and only if base name and offset modulo 2^32 agree, and function name and category |
| `StackResolving.OneFile` | tezedge-memprof/src/stack.rs:139-182 | in one file, below 4 GiB, they do if and only if their offsets agree |
| `StackResolving.LocatedAt` | tezedge-memprof/src/memory_map.rs:21-39 | a located address is a byte of an executable entry with a file, and its place the base name and offset of that byte |
| `StackResolving.PlacesApartIff` | tezedge-memprof/src/memory_map.rs:21-39 | base name and offset modulo 2^32 tell all addresses apart if and only if no such byte is mapped twice |
| `StackResolving.FilesApart` | tezedge-memprof/src/memory_map.rs:21-39 | nothing is mapped twice when the executable entries are at most 4 GiB and have different base names |
| `ResolvedReports.DifferAddsUp` | tezedge-memprof/src/history/report.rs:86-112 | when siblings differ in base name or offset modulo 2^32, memory and page cache add up at every node in every order |
| `ResolvedReports.ReportAddsUp` | tezedge-memprof/src/history/report.rs:224-234 | then so does every report, stripped at any threshold, when nothing is mapped twice |
| `ResolvedReports.TwinIsLost` | tezedge-memprof/src/history/report.rs:90-100 | two callers of equal weight with the same symbol: one is lost in any order, with its page cache |
| `ResolvedReports.TwiceMappedName` | tezedge-memprof/src/stack.rs:139-182 | a library mapped executable twice: two addresses with one symbol |
| `ResolvedReports.TwinExample` | tezedge-memprof/src/history/report.rs:90-100 | the report of one page allocated from each of them shows half of the memory and of the page cache |
| `SortedReports.Report` | tezedge-memprof/src/history/report.rs:224-234 | built, stripped and displayed, the root is the sum over all stacks |
| `Pages.FramesOf` | tezedge-memprof/src/history/page.rs:50-56 | a page of order n spans 1, 2, 4, ..., 32768 frames, four KiB each |
| `Trackers.OnePage` | tezedge-memprof/src/history/page.rs:50-56 | one marked page of each order is reported with its frames, as memory and as page cache, by all three trackers |
| `Pages.Packing` | tezedge-memprof/src/history/page.rs:41-64 | 28 bits of the frame number and 4 of the order survive packing, and unpacking is exact |
| `Allocation.Inserted` | tezedge-memprof/src/history/allocation.rs:85-120 | insert keeps: hashes injective, every lookup succeeds, every counter exact |
| `Allocation.RemovedFrom` | tezedge-memprof/src/history/allocation.rs:122-134 | remove keeps the same |
| `Allocation.Marked` | tezedge-memprof/src/history/allocation.rs:136-158 | marking keeps the same; unmarking a marked page removes it |
| `Allocation.Detachable` | tezedge-memprof/src/history/allocation.rs:34-39 | decrease never panics and the usage lookup never fails |
| `Allocation.HoldsLive` | tezedge-memprof/src/history/allocation.rs:171-188 | on every trace the tracker attributes exactly the live pages, each to the stack that allocated it last |
| `Allocation.Accounting` | tezedge-memprof/src/history/allocation.rs:85-158 | on every trace each counter is the sum of 2^order over the live pages its stack allocated last, every live page is counted, and stacks have one counter each |
| `AllocationStates.CacheStep` | tezedge-memprof/src/history/allocation.rs:94-109 | a step keeps exact page cache counters exact if and only if it does not allocate a marked page again on another stack |
| `AllocationStates.CacheTrace` | tezedge-memprof/src/history/allocation.rs:94-109 | the counters are exact all along a trace if and only if no step of it does that |
| `AllocationStates.CacheReported` | tezedge-memprof/src/history/allocation.rs:191-199 | on such traces the page cache figure of the report is four KiB per frame of the marked live pages |
| `AllocationStates.CacheGoesWrong` | tezedge-memprof/src/history/allocation.rs:94-109 | the shortest trace after which a page cache counter is wrong |
| `AllocationStates.FreedCounts` | tezedge-memprof/src/history/allocation.rs:122-134 | freeing takes the frames of a page off its stack, off its page cache as far as there are any, and changes no other stack |
| `AllocationStates.CacheStaysWrong` | tezedge-memprof/src/history/allocation.rs:136-158 | with that page freed, nothing is live, one page cache counter has stopped at zero and the other is left over |
| `AllocationStates.ShortReport` | tezedge-memprof/src/history/allocation.rs:191-199 | four KiB times the sum of the counters |
| `AllocationStates.ReportedIsLive` | tezedge-memprof/src/history/allocation.rs:191-199 | that sum counts the frames of every live page once |
| `AllocationStates.AllocationState.TrackAlloc` | tezedge-memprof/src/history/allocation.rs:172-176 | the object after an allocation is the pure step |
| `AllocationStates.AllocationState.TrackFree` | tezedge-memprof/src/history/allocation.rs:178-183 | the object after a free; frees of another process are ignored |
| `AllocationStates.AllocationState.MarkPageCache` | tezedge-memprof/src/history/allocation.rs:185-187 | the object after a mark, with the order taken from the stored state |
| `TreeReports.TreeReport` | tezedge-memprof/src/history/allocation.rs:201-224 | in either stack direction a path has a node exactly when the live pages below it reach the threshold (and a stack has it), holding four KiB per frame |
| `TreeReports.ReversedAt` | tezedge-memprof/src/history/allocation.rs:201-224 | a reversed stack reads from the other end, so its paths are the suffixes of the stack read backwards |
| `Histories.RemembersLive` | tezedge-memprof/src/history/history.rs:46-95 | on every trace the histories are exactly those of the live pages, each under the stack that allocated it last, and no lookup fails |
| `Histories.FreedRemembers` | tezedge-memprof/src/history/history.rs:71-88 | a freed page leaves no history behind, nor its stack an empty group |
| `Histories.AllocatedRemembers` | tezedge-memprof/src/history/page_history.rs:91-106 | a second allocation keeps the event and moves it to the new stack |
| `Histories.MarkedRemembers` | tezedge-memprof/src/history/page_history.rs:139-143 | a mark changes the event of its page only |
| `Histories.History.TrackAlloc` | tezedge-memprof/src/history/history.rs:46-69 | the object after an allocation is the pure step |
| `Histories.History.TrackFree` | tezedge-memprof/src/history/history.rs:71-88 | the object after a free is the pure step |
| `Histories.History.MarkPageCache` | tezedge-memprof/src/history/history.rs:90-94 | the object after a mark is the pure step |
| `Histories.History.ShortReport` | tezedge-memprof/src/history/history.rs:101-116 | four KiB for every frame of every live page, and of every marked one |
| `Aggregators.StepExcess` | tezedge-memprof/src/collector/aggregator.rs:77-204 | the excess of a counter over its pages changes only by frames counted twice and by marks that moved |
| `Aggregators.Traced` | tezedge-memprof/src/collector/aggregator.rs:77-204 | on every trace no counter of frames is below its pages; frames are exact if and only if no stack allocated a page again that was counted under it, page cache if and only if no marked page was allocated again by another stack |
| `Aggregators.AggregatedKnows` | tezedge-memprof/src/collector/aggregator.rs:77-204 | on every trace exactly the frames allocated and not freed are known, each with its first order, its last stack and its mark |
| `Aggregators.NoUnderflow` | tezedge-memprof/src/collector/aggregator.rs:156-160 | taking a page off its stack never underflows |
| `Aggregators.CacheUnderflows` | tezedge-memprof/src/collector/aggregator.rs:115-120 | a marked page moved to a new stack and freed drives the page cache counter below zero |
| `Aggregators.Aggregator.TrackAlloc` | tezedge-memprof/src/collector/aggregator.rs:77-145 | the object after an allocation is the pure step |
| `Aggregators.Aggregator.TrackFree` | tezedge-memprof/src/collector/aggregator.rs:147-173 | the object after a free is the pure step |
| `Aggregators.Aggregator.MarkPageCache` | tezedge-memprof/src/collector/aggregator.rs:175-204 | the object after a mark is the pure step |
| `Trackers.PartsStep` | tezedge-memprof/src/history/allocation.rs:136-183 | a step gives histories and allocation state the same live pages if and only if it neither frees a live page for another process than the last that allocated nor takes a mark away |
| `Trackers.SameLiveIff` | tezedge-memprof/src/history/history.rs:46-95 | they hold the same live pages under the same stacks all along a trace if and only if no step of it does either |
| `Trackers.SameLive` | tezedge-memprof/src/history/history.rs:46-95 | a trace of one process without unmarking is such a trace |
| `Trackers.SameReport` | tezedge-memprof/src/history/history.rs:101-116 | on such traces both report four KiB per frame of a live page and, if no mark is moved to another stack, the same page cache |
| `Trackers.UnmarkingDiffers` | tezedge-memprof/src/history/allocation.rs:146-149 | taking a mark away frees the page in one tracker and not in the other |
| `Trackers.AggregatorAgrees` | tezedge-memprof/src/collector/aggregator.rs:77-204 | when no live page is allocated again and a frame keeps its order, every counter of the aggregator, frames and page cache, is the sum over the live pages of its stack |
| `SymbolTable.Find` | tezedge-memprof/src/table.rs:95-126 | for every sorted table an entry is found if and only if one at index 1 or above covers the offset and the entry one lowest bit further starts beyond it; no index leaves the table; floor(log2 n) + 1 probes |
| `SymbolTable.NoOverlapFindable` | tezedge-memprof/src/table.rs:95-126 | when each range ends no later than the next begins, exactly the entries at index 1 or above that cover the offset are found, and there is at most one |
| `SymbolTable.Misses` | tezedge-memprof/src/table.rs:100-124 | in two concrete tables an entry covers the offset and none can be found: the first entry is never probed, and with overlapping ranges an entry can be passed over |
| `SymbolTable.SearchMisses` | tezedge-memprof/src/table.rs:95-126 | the search returns nothing on both |
| `LogIndexer.HandOver` | tezedge-recorder/src/database/search.rs:58-181 | under every interleaving: documents added, batch in hand, queue and line in hand are, in this order, exactly the lines written under their ids; the writer has one holder; what is not committed is marked or being handled |
| `LogIndexer.DocsAreWritten` | tezedge-recorder/src/database/search.rs:40-46 | every indexed document is a written line under its own id, at its place |
| `LogIndexer.QueueContinues` | tezedge-recorder/src/database/search.rs:28-34 | a queued line continues the ids counted from the first |
| `LogIndexer.DirectWrite` | tezedge-recorder/src/database/search.rs:165-175 | a write that gets the writer indexes everything written so far |
| `LogIndexer.AfterShutdown` | tezedge-recorder/src/database/search.rs:112-121 | after a shutdown the lines written are those indexed and those left in the queue |
| `LogIndexer.Shutdown` | tezedge-recorder/src/database/search.rs:70-86 | a shutdown leaves every line indexed if and only if the queue is empty or the committing thread has not passed it yet, and everything committed if and only if that thread had not finished its last commit or nothing was new |
| `LogIndexer.LeftBehind` | tezedge-recorder/src/database/search.rs:177-179 | a run in which a line queued during a commit is never indexed |

## Left out

- HTTP servers, configuration, process spawning, UDP log reception, the eBPF programs and their loaders: plumbing, or code that depends on kernel helpers that cannot be seen.
- Real cryptography, proof of work, nonce generation and the decoding of Tezos messages: taken as parameters; of a connection message only the place of the public key is used.
- Error paths of the key-value store and of the full-text index, and poisoned locks: operations are taken to succeed.
- Queries by time (`from`, `to`, `timestamp`) and the preview text of a row: a time scan is in timestamp order, not in id order.
- Parsing of filter strings, which can fail before a query starts: filters are taken parsed.
- The log table (`store_log`, `remove_log`, `fetch_log`): the same shape as the message table.
- Capture timestamps of chunks and the `net` flag; the value codec of chunks; bincode of messages.
- In-place update of tree nodes: `FrameReports.Inserted` and `FrameReports.Strip` work on tree values, so aliasing of nodes is not modelled.
- `History` with another page history than the last event, its error report, and its own tree report, which feeds the same tree.
- Allocation flags with the top bit set: a page starts unmarked.
- `LogIndexer`: sleeping between commits, and searching the index.
- Loading of symbols and of the memory map in the background, the parsing of its lines, demangling and the mock resolver: parameters of `StackResolving.Resolve`.
- ELF loading, JSON output, the atomic counters of `state.rs`: parsing glue or wrappers.
