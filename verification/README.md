# Verification of the Cassandra driver's connection core

A Dafny model of the driver's three connected cores, with machine-checked proofs of what they promise:

- the **stream multiplexer** of one connection (`Multiplexer`, `Reuse`, `StreamIds`, `Receiver`, `SendMutex`): many calls share
  a socket, each under a borrowed stream id, while time-outs, errors and reuse of ids interleave freely;
- the **connection pool** of one node (`Pool`, `PoolRuns`, `Dispatch`, `Permits`, `PreparedCache`): purging and
  choosing connections, maintenance, size permits, and prepared execution through a cache of statement ids;
- the **wire codec** (`Bytes`, `BufferIO`, `ColumnTypes`, `Results`, `Frames`, `Requests`, `Responses`, `TypedRows`,
  `WireBytes`):
  requests to bytes and bytes to results, each against the direction the driver does not contain, written from
  CQL Binary Protocol v4; `WireBytes` states the codes, flags, byte order and field order as literal bytes.

`dafny verify dfyconfig.toml` checks everything.

## How the model is built

Code that changes buffers, offsets or a vector step by step is a class or a method with the source's loops. Each such
method is proved against a function over byte sequences or over the vector, and the properties are lemmas about that
function. `BufferReader` and `BufferWriter` are the driver's reader and writer; a parser is a method on the reader that
agrees with a function from bytes to a value and the bytes left (`Malformed` where the driver throws). What the
protocol's other end does (an encoder for results, a decoder for requests) is a function of its own.

Concurrent parts are machines: `Multiplexer`, `SendMutex` and `Permits` have a step for each thing a task, the server
or the receiver can do next. A run is any sequence of steps, and a step that is not possible changes nothing, so a
statement about every run covers every interleaving. `Multiplexer.Run` starts after the handshake, when the receiver
starts.

The pool reads whether a connection is broken, expired or busy from a `World` in which every single read happens at its
own instant; the answers may change between any two reads, except that broken and expired stay so (`Monotone`).
Between the steps of `Maintain` other tasks push connections and purge the vector (`Others`). `PreparedCache.World` says
in the same way how the server answers each Prepare, what it has discarded at each instant, and what other tasks and
the LRU do to the cache.

### What is assumed

- The server answers each request it reads once, on the request's stream, and otherwise sends frames only on ids that
  no request uses. Answers may overtake each other and may never come.
- A whole frame is received or the read fails.
- In `Multiplexer` and `Reuse` a send puts the whole frame on the wire or nothing, so the statements about answers,
  `OwnAnswerOrError` included, are about runs in which no send is cut short. What a short send does to the stream is the
  subject of `SendMutex`; the driver only logs it and does not mark the connection broken
  (src/detail/connection_impl.cpp:315-318).
- LZ4 is a pair of functions that undo each other on the block; the length in front of it is modelled as written.
  Responses are compressed exactly when compression was negotiated: the driver decompresses whenever it has a
  compressor and does not look at the frame's flag (src/io/protocol/response_message.hpp:29-37).
- A prepared id is issued for one text only and is never empty (`Faithful`).
- A length field that runs past the end of the buffer is a failure. The driver's string and bytes parsers copy without
  that check (include/cassandra/io/string_types.hpp:20-28, include/cassandra/io/list_types.hpp:84-95).
- A negative column or row count, passed to `reserve`, throws.

### Where the code and its documentation differ

- A null cell and an empty cell are the same to the client (include/cassandra/io/list_types.hpp:84-95); in an integer
  column both are an error (`TypedRows.NullCell`).
- Strings, lists and value lists longer than 65535 are cut to their length modulo 65536 without an error. The round
  trips of strings, value lists, string lists, maps and request bodies are therefore equivalences with the exact bound.
- Writing integers into the same parameter holder twice appends to the slot (`TypedRows.BoundExact`).
- The limit on connections is `connecting_limit`; `max_size` is only compared with `min_size`
  (src/detail/connection_pool.cpp:68-71, 104).
- The receiver may stop without marking the connection broken (`Reuse.ReceiverStopsUnnoticed`);
  `Reuse.StopsUnnoticedExactly` says in every run exactly when it has.
- A stream id given back after a time-out can still have an answer under way. A call that takes it then gets another
  call's answer (`Reuse.ReuseAfterTimeoutMixesAnswers`). What protects callers is that a time-out marks the connection
  broken first; `Multiplexer.OwnAnswerOrError` proves that this is enough. `Reuse.ReuseExactly` says for every reachable
  state exactly when taking an id is safe, broken or not.
- A result of another kind in answer to Prepare is cached as the empty id (src/io/protocol/response_message.hpp:252-259),
  and a batch that carries it runs nothing (`PreparedCache.MisansweredMeansNothing`). Without such an answer prepared mode
  means what string mode means (`PreparedCache.PreparedMeansSameUnlessMisanswered`).
- Only the ping of `Maintain` reacts to an Unprepared error; `Execute` leaves the stale id in the cache
  (src/detail/connection_pool.cpp:321-325, 473-479).

## Model

| member | source | states |
|---|---|---|
| `Multiplexer.OwnAnswerOrError` | src/detail/connection_impl.cpp:175-203 | whatever happens before and after, a call that takes its stream id while the connection is not broken ends with its own answer or an error |
| `Reuse.ReuseExactly` | src/detail/connection_impl.cpp:180-203 | in every reachable state: the call that takes an id can get another call's answer if and only if something on the stream is queued, or the receiver runs and such a packet has arrived with no unknown id ahead of it, or no unknown id has arrived and such a packet is going out or at the server |
| `Reuse.SafeAfterReceiver` | src/detail/connection_impl.cpp:180-197 | once the receiver has stopped, an id is safe to take if and only if its queue is empty |
| `Reuse.SafeWhileReceiving` | src/detail/connection_impl.cpp:388-428 | while the receiver runs and no unknown id has arrived, an id is safe to take if and only if nothing is under way on it |
| `Reuse.UnsafeWhenStale` | src/detail/connection_impl.cpp:180-197 | an id with a leftover in its queue is never safe: some continuation delivers another call's answer |
| `Reuse.Emptied` | src/detail/connection_impl.cpp:191-202 | a full queue never protects an id: from every reachable state some continuation empties it and changes nothing for the waiting call |
| `Reuse.StepShielded` | src/detail/connection_impl.cpp:180-194 | whichever step is taken, nothing foreign comes within the receiver's reach on the stream of a call that took an unthreatened id |
| `Reuse.ReuseAfterTimeoutMixesAnswers` | src/detail/connection_impl.cpp:191-198 | a concrete run from the start in which a call gets the answer of one that timed out |
| `Multiplexer.OnePlaceEach` | src/detail/connection_impl.cpp:183-194 | in every reachable state a sent call's packet is in exactly one place (going out, at the server, coming back, queued, popped or dropped) and any other packet of the call nowhere |
| `Multiplexer.IdsAndQueues` | src/detail/stream_pool.hpp:18-62 | in every reachable state each of the 1024 ids is free once or held by exactly one call, each queue holds at most one packet, and before the first time-out a free id has nothing anywhere |
| `Multiplexer.PushNeverBlocks` | src/detail/connection_impl.cpp:420-427 | before the first time-out the receiver always finds the queue it pushes to empty |
| `Multiplexer.UsedStreamsAreCalls` | src/detail/stream_pool.hpp:29-34 | in every reachable state the used streams are as many as the calls in progress; idle means no call in progress |
| `Reuse.ReceiverStopsUnnoticed` | src/detail/connection_impl.cpp:411-418 | a stopped receiver does not imply a broken connection |
| `Reuse.StopsUnnoticedExactly` | src/detail/connection_impl.cpp:388-430 | in every run the receiver has stopped with the connection unmarked if and only if it was cancelled or found an unknown id, no read failed and no call marked the connection |
| `Multiplexer.StepInv` | src/detail/connection_impl.cpp:141-203 | every step of a call, the server or the receiver keeps the whole invariant |
| `Multiplexer.StepGuarded` | src/detail/stream_pool.hpp:47-62 | while a call holds its id nobody else's traffic gets onto it, whichever step is taken |
| `Multiplexer.ReleaseClear` | src/detail/stream_pool.hpp:55-55 | the id that a successful call gives back carries nothing more |
| `Multiplexer.SendIsOver` | src/detail/connection_impl.cpp:194-198 | in every run a call gives its id back, and marks the connection, only after its own send is over |
| `StreamIds.StreamPool.constructor` | src/detail/stream_pool.hpp:18-26 | the pool starts with each client id once |
| `StreamIds.StreamPool.Acquire` | src/detail/stream_pool.cpp:7-15 | takes some id out of the pool, and fails only when it is empty |
| `StreamIds.StreamPool.Release` | src/detail/stream_pool.cpp:17-21 | puts the id back unless the queue is full |
| `StreamIds.StreamPool.AcquireStep` | src/detail/stream_pool.hpp:49-53 | in every run acquiring is the machine's acquire step of a free id, and fails exactly when 1024 calls are in progress |
| `StreamIds.StreamPool.ReleaseStep` | src/detail/stream_pool.hpp:55-55 | in every run a call's release finds room in the queue: no id is lost |
| `StreamIds.UsedAreCalls` | src/detail/stream_pool.hpp:29-34 | in every run the pool's count of used streams is the number of calls in progress, and zero exactly when there is none |
| `Receiver.ReceivingEnd.ReceiverLoop` | src/detail/connection_impl.cpp:388-430 | with calls and the server going on between its turns, the loop makes exactly the receiver's steps of the machine, the others' steps of its turns in order and at most one of its own in each; the first turn that is cancelled or whose read fails is the last one taken, and says which of the two it was; a failed read and a full queue leave the connection broken; while the loop still receives, every turn was taken |
| `Receiver.ReceivingEnd.TakeTurn` | src/detail/connection_impl.cpp:391-427 | one turn, over what came from outside and the fields before: it stops as cancelled exactly if the task was cancelled, as a failed read exactly if the read failed otherwise, and only that marks the connection; else the frame in front, and no other, is handled |
| `Receiver.ReceivingEnd.Deliver` | src/detail/connection_impl.cpp:404-427 | a frame that was read is skipped for a negative id, ends the loop for an id from 1024 on, and else goes to its queue, exactly as the machine's next receiver step; the queue is full only on a broken connection |
| `SendMutex.DeframesExactlyUnlessTorn` | src/detail/connection_impl.cpp:306-319 | for every interleaving of senders the bytes on the wire deframe into exactly the completed frames, in order, if and only if no send was cut short |
| `SendMutex.SenderOrderKept` | src/detail/connection_impl.cpp:313-315 | in every run, failed sends included, each sender's sends happen in the order of its requests and none is lost from the account |
| `SendMutex.RunKeepsWire` | src/detail/connection_impl.cpp:306-319 | in every run the wire is, byte for byte, what the ended sends wrote, whole or cut short, followed by what the current one has written |
| `Pool.ConnectionPool.Acquire` | src/detail/connection_pool.cpp:266-299 | erases in place exactly what the purge may drop, keeps the order, and hands out the loop's choice; afterwards nothing listed was broken when it started or had expired by then without being seen busy since, and what it hands out is listed and was neither broken nor expired |
| `Pool.LeastIsFirstLeast` | src/detail/connection_pool.cpp:290-298 | undisturbed, the choice is the first of the least-loaded connections that have not expired, and none only if all have |
| `Pool.LeastIsListed` | src/detail/connection_pool.cpp:290-298 | whatever changes meanwhile, the connection chosen is listed and had not expired before the scan |
| `Pool.PurgeClears` | src/detail/connection_pool.cpp:274-285 | a purge leaves nothing that was broken when it started, and nothing that had expired by then and was not seen busy |
| `Pool.PurgeConserves` | src/detail/connection_pool.cpp:274-285 | each connection is kept or dropped, once, and dropped only when seen broken or seen expired and then idle |
| `Pool.PurgeFront` | src/detail/connection_pool.cpp:274-285 | nothing that is sound when the purge ends is lost from any front part of the vector |
| `Pool.ConnectionPool.AcquireImmediate` | src/detail/connection_pool.cpp:491-516 | drops, skips or takes from the front; the connection taken is owned by the caller only and was neither broken nor expired at the start |
| `Pool.TakeConserves` | src/detail/connection_pool.cpp:495-515 | each connection is kept, dropped with cause or handed out, once |
| `Pool.TakeFirst` | src/detail/connection_pool.cpp:495-515 | the connection taken was sound at the start and everything in front of it no longer is: deleted, or expired, seen busy and left in place; the rest of the vector is untouched |
| `Pool.TakeFront` | src/detail/connection_pool.cpp:495-515 | if the front part has a sound connection, the one taken is from the front part; `nullptr` means nothing sound is listed |
| `Pool.ConnectionPool.Push` | src/detail/connection_pool.cpp:214-229 | appends a sound connection; one that was broken at the start, or had expired and was not seen busy, is not appended but dropped with cause |
| `Pool.CheckClears` | src/detail/connection_pool.cpp:216-221 | what the checks of the purge and of Push let through was not broken, and if expired was seen busy; a sound connection is never refused |
| `Pool.ConnectionPool.Release` | src/detail/connection_pool.cpp:391-399 | the exact pool afterwards: a sound connection is back at the end of the vector, one that was broken or expired and not seen busy is not, and is dropped once |
| `Pool.ConnectionPool.Connect` | src/detail/connection_pool.cpp:192-211 | a new connection goes to the end of the vector if it is sound, is refused if it was broken or expired and not seen busy, and is then deleted with cause |
| `Pool.ConnectionPool.Others` | src/detail/connection_pool.cpp:209-285 | whatever other tasks do, the pool comes to exactly their steps one after the other, every deletion has its cause at that time and no sound connection leaves the vector or its front part |
| `Pool.ConnectionPool.Visit` | src/detail/connection_pool.cpp:441-481 | a turn closes the connection exactly if allowed and idle, else pings it at a known instant and gives it back; the exact pool afterwards, and nothing sound lost |
| `Pool.ProgressTake` | src/detail/connection_pool.cpp:424-435 | each turn uses up one connection of those not yet visited, or finds none of them sound |
| `Pool.ConnectionPool.Maintain` | src/detail/connection_pool.cpp:401-489 | under interference the run comes to exactly what `Rounds` gives, and: at most as many turns as connections; it ends early exactly when a ping of its own escapes, and that is its last ping; otherwise every connection that stays sound is visited; sound connections are still listed unless it was the one closed; at most one idle drop, of the connection reported closed, only above the minimum size, and missed only if all were busy; every deletion is of a connection broken or idle at an instant of this run; connections are conserved and the pool falls below min(initial, min_size) only by dropped ones |
| `Pool.RoundsReport` | src/detail/connection_pool.cpp:424-488 | for every world and every number of turns: the pings are made one after the other inside the run, an exception escapes exactly from the last ping of a run that ends early, and the only idle drop is of the connection closed |
| `Pool.ConnectionPool.Clear` | src/detail/connection_pool.cpp:255-264 | deletes everything listed, in order, and nothing else |
| `Pool.ConnectionPool.Destroy` | src/detail/connection_pool.cpp:249-253 | afterwards every connection ever made has been deleted exactly once, here or before with cause |
| `Pool.SaneConserves` | src/detail/connection_pool.cpp:415-488 | two states with the same connections checked out differ exactly by what was made and deleted between |
| `PoolRuns.Live` | src/detail/connection_pool.cpp:209-285 | every run of connects, requests and maintenance, ended by the destructor, is a history of those operations from the empty pool, each with its exact result; no request is given a connection that was broken or expired when it asked, and none leaves such a one listed unless it was seen busy; each connection made is deleted once, either before the end, seen broken or without a stream in use, or by the destructor, which deletes exactly what was listed last |
| `Dispatch.EvenlySpread` | src/detail/connection_pool.cpp:287-298 | after k requests to n idle healthy connections each has floor or ceiling of min(k, 1024 n)/n streams in use |
| `Dispatch.FullOnlyWhenAllFull` | src/detail/connection_pool.cpp:287-298 | for every vector, broken, expired and busy connections in it: a connection is chosen if and only if one is eligible, and it has no free stream if and only if no eligible connection has one |
| `Dispatch.LevelKept` | src/detail/stream_pool.hpp:29-34 | one request keeps any two loads within one of each other and adds exactly one stream until all are in use |
| `Permits.PermitsConserved` | src/detail/connection_pool.cpp:163-212 | in every run permits in use are those of connect tasks, of connections not closed and of closing tasks, never above the capacity |
| `Permits.ReleasedOnce` | src/detail/connection_impl.cpp:153-173 | in every run each permit is released at most once, and has been unless some lock still holds it |
| `Permits.CloseThenDestroy` | src/detail/connection_impl.cpp:153-173 | an explicit Close followed by the destructor releases the permit once, in whichever order the two closing tasks end |
| `Permits.StepInv` | src/detail/connection_pool.cpp:163-212 | every step keeps each permit in exactly one lock or released |
| `PreparedCache.PreparedAgreesWithText` | src/detail/connection_pool.cpp:341-376 | a batch in prepared form runs exactly what its string form runs, or reports Unprepared, and runs if and only if the server knows every id |
| `PreparedCache.PreparedMeansSame` | src/detail/connection_pool.cpp:349-364 | prepared statements denote the same ordered list of texts and parameters if and only if none carries the empty id |
| `PreparedCache.PreparedMeansSameUnlessMisanswered` | src/detail/connection_pool.cpp:341-376 | unless the server answered some earlier Prepare for one of the batch's texts by a result of another kind, the prepared batch and the string batch both mean exactly the queries |
| `PreparedCache.MisansweredMeansNothing` | src/io/protocol/response_message.hpp:252-259 | a world in which such an answer makes the empty id stand for a query: the prepared batch means nothing and is Unprepared, the string batch runs |
| `PreparedCache.PreparedBatchOnTheWire` | src/io/protocol/request_message.hpp:186-216 | a server reading the bytes of a prepared batch finds exactly that batch; it fails, runs the original queries in order, or answers Unprepared exactly when it cannot execute, knows every id, or misses one |
| `PreparedCache.StatementCache.Execute` | src/detail/connection_pool.cpp:301-339 | the override decides over the pool's setting in both directions: by id only, or one request with the text and no Prepare. By id: with a cached id one request and the cache unchanged even when Unprepared; on a miss one Prepare now and, unless refused, one request with the id it was answered with, which stays cached. The outcome is the server's, and the id sent was the answer to an earlier Prepare for this very text |
| `PreparedCache.StatementCache.BatchExecute` | src/detail/connection_pool.cpp:341-377 | the override decides as for a single query; exactly what is sent, its outcome and the cache afterwards: one Prepare per query that misses, in order, up to the first refused, then one batch; every statement carries the id that an earlier Prepare for its own query's text was answered with (the empty id for an answer of another kind), one by one and in order. In string mode one batch with the texts and no Prepare |
| `PreparedCache.StatementCache.Ping` | src/detail/connection_pool.cpp:451-480 | the same for the ping query, always by id; a cached ping id leaves the cache empty if it is Unprepared and unchanged otherwise, a new one stays cached |
| `PreparedCache.StatementCache.IdFor` | src/detail/connection_pool.cpp:353-362 | a cached id without sending anything and without a change, else what this one Prepare is answered with now; the id is in the cache afterwards unless refused |
| `PreparedCache.LookupSound` | src/detail/connection_pool.cpp:353-362 | whatever other tasks and evictions do meanwhile, the id found is one that the server gave, before, for exactly this text, and so is every id left in the cache |
| `PreparedCache.GatherSound` | src/detail/connection_pool.cpp:349-364 | the statements gathered stand for the queries one by one in order, all Prepares sent are for texts of the batch and not refused, and gathering stops only at a refused Prepare |
| `PreparedCache.PreparesOnce` | src/detail/connection_pool.cpp:349-364 | if nobody else uses the cache, a batch prepares each of its texts that is not cached, once, and no other, and every statement carries the id cached for its text in the end |
| `PreparedCache.StatementCache.Prepare` | src/detail/connection_impl.cpp:488-500 | an exception exactly when refused, or an id that stands for the text or is empty |
| `PreparedCache.ConversationMeans` | src/detail/connection_pool.cpp:321-376 | what is run is what was asked; failure means exactly a refused Prepare or a request that was sent and failed; Unprepared exactly that some id sent is unknown to the server or empty; and the request sent means exactly the queries unless a Prepare for one of them was answered by another kind of result |
| `PreparedCache.Session` | src/detail/connection_pool.cpp:301-377 | every run of queries, batches and pings under eviction, invalidation and discards is a history: each operation comes to exactly what its value function gives from the cache before it; everything sent is, operation by operation, a conversation for what was asked, by id or as text as the override and the pool's setting say; what runs is what was asked; and after a ping that learns of discarded ids only what other tasks have prepared since is cached |
| `Bytes.U16RoundTrip` | include/cassandra/io/buffer_io_base.hpp:50-69 | an unsigned 16-bit value is read back from its big-endian bytes, whatever follows |
| `Bytes.I16RoundTrip` | include/cassandra/io/buffer_io_base.hpp:50-69 | the same for signed 16-bit values |
| `Bytes.I32RoundTrip` | include/cassandra/io/buffer_io_base.hpp:50-69 | the same for signed 32-bit values |
| `Bytes.I64RoundTrip` | include/cassandra/io/buffer_io_base.hpp:50-69 | the same for signed 64-bit values |
| `Bytes.StringRoundTrip` | include/cassandra/io/string_types.hpp:13-78 | a string comes back if and only if its length is below 65536; otherwise its prefix does |
| `Bytes.LongStringRoundTrip` | include/cassandra/io/list_types.hpp:77-113 | long strings and bytes come back, whatever follows |
| `Bytes.ManyRoundTrip` | include/cassandra/io/list_types.hpp:52-130 | a counted run of elements comes back if each element does |
| `WireBytes.ShortBytes` | include/cassandra/io/buffer_io_base.hpp:50-69 | two bytes are written and read high byte first, signed and unsigned |
| `WireBytes.IntBytes` | include/cassandra/io/buffer_io_base.hpp:50-69 | the same for four bytes |
| `WireBytes.LongBytes` | include/cassandra/io/buffer_io_base.hpp:50-69 | the same for eight bytes |
| `WireBytes.StringRead` | include/cassandra/io/string_types.hpp:13-78 | two bytes of length for [string], four for [long string] and [bytes], and the null value |
| `WireBytes.ListAndMapRead` | include/cassandra/io/map_types.hpp:76-111 | counts of two bytes, elements in order, a key before its value |
| `WireBytes.CutShort` | include/cassandra/io/list_types.hpp:84-95 | a length beyond the end of the buffer is an error, a negative one an empty [bytes] |
| `BufferIO.BufferReader.ReadCell` | include/cassandra/io/list_types.hpp:84-95 | reads [bytes] and moves the offset by exactly its encoding |
| `BufferIO.BufferReader.ReadText` | include/cassandra/io/string_types.hpp:20-28 | reads [string] and moves the offset by exactly its encoding |
| `BufferIO.BufferReader.ReadTextMultiMap` | include/cassandra/io/map_types.hpp:85-93 | the emplacing loop yields the collected map and the exact offset |
| `BufferIO.BufferWriter.WriteBlock` | include/cassandra/io/list_types.hpp:103-112 | appends exactly the [bytes] encoding |
| `BufferIO.BufferWriter.WriteTextMap` | include/cassandra/io/map_types.hpp:104-110 | appends the entries in the order the container iterates |
| `BufferIO.BufferWriter.WriteValues` | src/io/protocol/request_message.hpp:112-119 | appends the count, modulo 65536, and every value |
| `BufferIO.ValuesRoundTrip` | src/io/protocol/request_message.hpp:112-119 | bound values arrive if and only if there are fewer than 65536 |
| `BufferIO.StringListRoundTrip` | include/cassandra/io/list_types.hpp:52-130 | a string list comes back, whatever follows, if and only if it has fewer than 65536 strings, each shorter than 65536 |
| `BufferIO.MapRoundTrip` | include/cassandra/io/map_types.hpp:76-111 | for every iteration order of the entries the same map comes back and exactly its bytes are consumed if and only if the number of entries, every key and every value fit; the value codec is a parameter, so the statement nests |
| `BufferIO.MultiMapRoundTrip` | include/cassandra/io/map_types.hpp:118-131 | the same equivalence for string multimaps, with the bounds written out |
| `BufferIO.CollectFirstWins` | include/cassandra/io/map_types.hpp:88-92 | of entries with the same key the first is kept |
| `BufferIO.EntriesRoundTrip` | include/cassandra/io/map_types.hpp:85-93 | an entry list, repeated keys included, is parsed to the map its emplacement gives if and only if there are fewer than 65536 entries and every key fits, provided that the values themselves read back |
| `BufferIO.EntriesCounted` | include/cassandra/io/map_types.hpp:76-111 | of more than 65535 entries only the first, the size modulo 65536, are read, and the bytes of the others are left behind |
| `ColumnTypes.TypeRoundTrip` | src/io/protocol/column_option.cpp:7-75 | every column type, however nested, is parsed back from its encoding, whatever follows |
| `ColumnTypes.TypeExact` | src/io/protocol/column_option.cpp:7-75 | whatever is parsed is the encoding of the type found, so nothing else is accepted |
| `ColumnTypes.ParseTypeCharacterised` | src/io/protocol/column_option.cpp:7-75 | the parser accepts exactly the encodings, and reads nothing past them |
| `ColumnTypes.PrefixFree` | src/io/protocol/column_option.cpp:7-75 | no type's encoding is a proper prefix of another's |
| `ColumnTypes.ParseColumnOption` | src/io/protocol/column_option.cpp:7-34 | the recursive parser terminates, bytes remaining as measure, and yields the type and offset of `ParseType`, whose codes `WireBytes.TypeRead` and its neighbours pin to literal bytes |
| `ColumnTypes.ParseTupleElements` | src/io/protocol/column_option.cpp:65-75 | the tuple loop terminates and reads exactly the counted types |
| `ColumnTypes.ParseUdtFields` | src/io/protocol/column_option.cpp:53-63 | the field loop terminates and reads exactly the counted names and types |
| `WireBytes.TypeRead` | src/io/protocol/column_option.cpp:9-51 | the codes 0x0000, 0x0020, 0x0021 and 0x0022 as bytes: custom with its class name, list, map (key, then value) and set, whatever follows |
| `WireBytes.TupleRead` | src/io/protocol/column_option.cpp:65-75 | code 0x0031: the number of types, then the types in order |
| `WireBytes.UdtRead` | src/io/protocol/column_option.cpp:53-63 | code 0x0030: keyspace, name, number of fields, and each field's name before its type |
| `WireBytes.NativeRead` | src/io/protocol/column_option.cpp:29-31 | every other code is a type of its own, and nothing further is read |
| `Results.RowsRoundTrip` | src/io/protocol/response_message.hpp:166-203 | for every metadata shape, every nesting of types and every grid, with any bytes after it, a Rows result is parsed to the same flags, paging state, types and grid and consumed exactly |
| `Results.GridValuesAt` | src/io/protocol/response_message.hpp:195-201 | the grid has the shape of the one sent, cell for cell, null and empty cells alike |
| `Results.FlagsMeaning` | src/io/protocol/response_message.hpp:160-187 | each flag bit is set exactly for its metadata shape |
| `Results.ColumnRoundTrip` | src/io/protocol/response_message.hpp:102-113 | a column comes back, with and without a global table specification |
| `Results.PreparedRoundTrip` | src/io/protocol/response_message.hpp:136-153 | the id, partition keys and bind columns come back, whatever follows |
| `Results.ParseRows` | src/io/protocol/response_message.hpp:166-203 | the nested loops build that result and stop at that offset |
| `Results.ParseGrid` | src/io/protocol/response_message.hpp:195-201 | rows_count rows of columns_count cells in order |
| `Results.ParsePrepared` | src/io/protocol/response_message.hpp:136-153 | the loops build that result and stop at that offset |
| `WireBytes.FlagBits` | src/io/protocol/response_message.hpp:160-164 | 0x01 is the global table, 0x02 more pages, 0x04 no metadata, for every flags word |
| `WireBytes.ColumnRead` | src/io/protocol/response_message.hpp:102-113 | keyspace and table unless global, name, type, in this order |
| `WireBytes.TableRead` | src/io/protocol/response_message.hpp:176-187 | the global keyspace before the global table, both before the columns |
| `WireBytes.RowsRead` | src/io/protocol/response_message.hpp:166-203 | for each of the eight flag combinations: flags, column count, paging state, table and columns, row count, rows, in this order |
| `WireBytes.PreparedRead` | src/io/protocol/response_message.hpp:136-153 | id, flags, column count, partition key positions behind their count, table and columns, in this order |
| `WireBytes.NegativeCounts` | src/io/protocol/response_message.hpp:181-201 | a negative row count, key count or, with metadata, column count is an error; a negative count of cells reads none |
| `Frames.HeaderRoundTrip` | src/io/protocol/frame.cpp:6-27 | a header comes back from its nine bytes |
| `Frames.PatchSetsLengthOnly` | src/io/protocol/frame.cpp:16-18 | the back-patch sets the length field and changes no other byte |
| `Frames.UpdateLength` | src/io/protocol/frame.cpp:16-18 | overwrites bytes 5 to 8 in place |
| `Frames.WriteHeader` | src/io/protocol/frame.cpp:6-14 | appends exactly the header's nine bytes |
| `Frames.DecompressUndoesCompress` | src/io/protocol/lz4_utils.cpp:14-67 | the framing around LZ4 loses nothing |
| `Frames.DeframeStream` | src/detail/connection_impl.cpp:348-384 | frames written one after the other are taken off the stream in order |
| `Frames.StreamInjective` | src/detail/connection_impl.cpp:348-384 | no other frames have the same bytes |
| `Frames.DeframeExact` | src/detail/connection_impl.cpp:348-384 | deframing skips no byte and reads none twice |
| `WireBytes.HeaderBytes` | src/io/protocol/frame.cpp:20-27 | version, flags, stream, opcode and length at their bytes, big-endian and signed |
| `WireBytes.RequestHeaderBytes` | include/cassandra/io/protocol/frame.hpp:19-51 | a request frame starts with 0x04, the compression bit, the stream and its opcode, and announces the bytes behind the header |
| `WireBytes.CompressedBytes` | src/io/protocol/lz4_utils.cpp:14-40 | the block behind four bytes of original size |
| `WireBytes.DecompressedSize` | src/io/protocol/lz4_utils.cpp:42-67 | what is decompressed has the size announced, or it is an error |
| `Requests.BodyRoundTrip` | src/io/protocol/request_message.hpp:69-216 | a decoder written from the protocol recovers every QUERY, PREPARE, EXECUTE, BATCH, STARTUP and OPTIONS body if and only if its counts and ids fit their 16-bit fields |
| `Requests.ValuesFlagExact` | src/io/protocol/request_message.hpp:107-111 | the values flag is set exactly when there are values |
| `Requests.Serialize` | src/io/protocol/request_message.hpp:21-44 | the buffer is a frame whose header announces exactly the bytes behind it |
| `Requests.SerializeBody` | src/io/protocol/request_message.hpp:103-216 | each message appends exactly its body |
| `Requests.WriteBatch` | src/io/protocol/request_message.hpp:186-216 | the statement loop writes every statement in order |
| `Requests.RequestUnderstood` | src/io/protocol/request_message.hpp:21-44 | the server understands the frame, compressed or not, if and only if the request fits |
| `Requests.CompressionTransparent` | src/io/protocol/request_message.hpp:21-44 | compressed and plain frames have the same stream, opcode and body and differ in flag and length |
| `Requests.ServerReceivesRequests` | src/detail/connection_impl.cpp:306-319 | the server recovers from the raw bytes every request, in order, with every field |
| `WireBytes.QueryBytes` | src/io/protocol/request_message.hpp:103-120 | QUERY with and without a value, byte for byte |
| `WireBytes.ExecuteBytes` | src/io/protocol/request_message.hpp:152-168 | EXECUTE with and without a value, byte for byte |
| `WireBytes.BatchBytes` | src/io/protocol/request_message.hpp:186-216 | type 0, the statements, consistency and flags 0 |
| `WireBytes.StatementsBytes` | src/io/protocol/request_message.hpp:190-212 | a text and a prepared statement of a batch behind their number, byte for byte |
| `WireBytes.OtherBytes` | src/io/protocol/request_message.hpp:51-136 | PREPARE, OPTIONS and STARTUP, byte for byte |
| `Responses.ReplyParsed` | src/io/protocol/response_message.hpp:29-235 | every reply body is parsed to what it means |
| `Responses.ReplyFrameRead` | src/detail/connection_impl.cpp:321-384 | a reply frame is read with its stream and content, and exactly its bytes |
| `Responses.RepliesRead` | src/detail/connection_impl.cpp:348-384 | repeated reading returns all replies in order, whatever their kinds, with and without compression |
| `Responses.ReceiveFrame` | src/detail/connection_impl.cpp:348-384 | header, direction, body and decompression in this order, with the exact offset |
| `Responses.ParseMessage` | src/detail/connection_impl.cpp:321-346 | the opcode chooses the parser; others fail |
| `WireBytes.ResponseRead` | src/detail/connection_impl.cpp:331-345 | the opcodes 0x00, 0x02, 0x03 and 0x06 with their bodies; any opcode but these and 0x08 is an error |
| `WireBytes.ResultRead` | src/io/protocol/response_message.hpp:214-235 | kind 2 is Rows, 3 Set_keyspace, 4 Prepared, and any other has no payload |
| `WireBytes.ResponseVersion` | src/detail/connection_impl.cpp:324-329 | nothing is taken for a response unless its first byte is 0x84 |
| `WireBytes.ReplyHeaderBytes` | include/cassandra/io/protocol/frame.hpp:19-51 | a response frame starts with 0x84, the compression bit, the stream and its opcode |
| `WireBytes.FlagsIgnored` | src/io/protocol/response_message.hpp:29-37 | the flags of a response make no difference to how it is read |
| `TypedRows.RowsComeBack` | include/cassandra/result_set.hpp:281-292 | rows bound as parameters, stored and returned come back from the response frame as the same rows in the same order |
| `TypedRows.ExtractCells` | include/cassandra/row.hpp:332-343 | positional extraction recovers the row, extra columns ignored |
| `TypedRows.RowToExact` | include/cassandra/row.hpp:420-446 | a row narrower than its type is an error; otherwise it is extracted exactly if each column asked for holds a value of its kind, and gives these in order |
| `TypedRows.WiderRow` | include/cassandra/row.hpp:428-446 | a row of values comes back from its cells whatever further columns there are |
| `TypedRows.ContainerOfParams` | include/cassandra/row.hpp:420-446 | every row of parameters is extracted, with the column-count check passed |
| `TypedRows.ExtractTuple` | include/cassandra/row.hpp:332-343 | the running index reads each column once, in order |
| `TypedRows.BoundExact` | include/cassandra/detail/query_parameters.hpp:51-56 | a slot holds the value written if and only if it was empty or the value is a string |
| `TypedRows.DynamicQueryParameters.Write` | include/cassandra/detail/query_parameters.hpp:99-109 | resizes to the number of arguments and writes each into its own slot |
| `TypedRows.CellRoundTrip` | include/cassandra/io/integral_types.hpp:10-34 | a value comes back from its cell |
| `TypedRows.NullCell` | include/cassandra/io/list_types.hpp:84-95 | a null cell is an error in an integer column and the empty string in a text column |
| `WireBytes.CellBytes` | include/cassandra/io/integral_types.hpp:10-34 | integers of two and four bytes are big-endian two's complement, text is itself, in both directions |
| `WireBytes.LongCellBytes` | include/cassandra/io/integral_types.hpp:10-34 | the same for eight bytes |

## Left out

- Sockets, DNS, TCP connect, deadlines as real time and task scheduling: steps that may happen at any point.
- Cancellation of a calling task while it waits, and memory ordering.
- LZ4 and the LRU cache themselves: an inverse pair, and a map that may lose entries at any Put and between steps.
- Malformed input beyond what the parsers reject: a peer that closes after one to eight bytes of a header is not told
  apart by the driver (src/detail/connection_impl.cpp:355-359) and is a failed read here.
- Schema-change events (src/io/protocol/events/schema_change.cpp:10-27), whose payload the driver parses and nobody uses.
- Floating-point, boolean and one-byte column values: bit copies over the integer codec.
- The switch from error codes to exceptions, configuration, registration, sessions, samples: plumbing.
- Compile-time reflection of row types: a row type is the list of its column kinds.
- Authentication and SSL: no working path in the driver.
- The pool with no connection at all: `Execute` would use a null pointer, which is not modelled.
- Borrowed pointers: nothing is claimed about a connection that a caller still uses when the pool deletes it.
- `Connect` retries and the error counter of `TryCreateConnectionAsync`: nothing in the driver calls it.
- Responses.ReplyParsed: does not cover schema-change results, whose payload is not modelled, nor event frames, which the
  driver rejects by their opcode (src/detail/connection_impl.cpp:343-344).
- Permits.PermitsConserved: the second semaphore, which has no limit, is not modelled.
- StreamIds.StreamPool.Acquire: the wait of up to a second for an id is not modelled; an empty pool fails.
