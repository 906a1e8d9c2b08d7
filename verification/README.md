# RedisLite: a verified model of replication and failover

RedisLite is a replicated key-value server (C++) with a failover controller (Go). This project models, in Dafny, the
parts that carry its promises and proves those promises over all inputs and all runs.

| file | models |
|---|---|
| `Text.dfy` | `std::to_string`, `std::stoi`/`std::stoll`, `toupper` |
| `Resp.dfy` | the RESP2 request parser and encoder, and the append/parse/erase loop of `handle_read` |
| `RespGrammar.dfy` | the requests the parser takes, as a grammar |
| `Backlog.dfy` | the circular replication backlog, as a class over an array |
| `Store.dfy` | the key space with lazy expiry and the active sweep, as a class |
| `Commands.dfy` | command execution |
| `Words.dfy` | SET, DEL and GET in the words a client sends and reads |
| `Rdb.dfy`, `RdbProofs.dfy` | the RDB version 11 codec; round trip and deadline drift |
| `RdbFormat.dfy` | the bytes of a snapshot as numbers, and the forms only other writers use |
| `Replication.dfy` | every step of the server's main and writer thread, on values |
| `Server.dfy` | the server object: methods that update fields in place, proved against those steps |
| `Runs.dfy` | the server state with the history of a run: log, attached replicas, WAITs |
| `Membership.dfy`, `Waiting.dfy`, `Streams.dfy`, `Books.dfy`, `Safety.dfy` | the invariants of every reachable state |
| `Guarantees.dfy` | what they say on the master's side |
| `Answers.dfy` | what clients that WAIT are told |
| `Sessions.dfy` | PSYNC, WAIT, writes and disconnects in the words of the commands |
| `Roles.dfy` | REPLICAOF in the words of the command, and whom a server follows |
| `Followers.dfy` | what a replica makes of its stream, and how its acknowledgements answer WAITs |
| `Positions.dfy` | what a replica's offset is worth: to a WAIT, to a failover, to a sibling |
| `Witnesses.dfy` | concrete runs that show where an expected promise ends |
| `Promoter.dfy`, `Monitor.dfy` | the failover controller |
| `NodeClient.dfy` | how the controller reads a server's replies |

How the pieces fit. `Replication.Step` is the server as a step system: one parsed command, a disconnect, a clock round, a
sweep, the writer's swap under the lock, or one partial `send`. `Servers.Server` is the same code as an object; each method's
postcondition equates its new state with the corresponding function of the old one, for any traffic, and the concrete ring
buffer refines "the newest bytes, oldest first". `Runs.Next` adds history to a step (`NextIsStep` shows it changes nothing else), `Safety.Reachable`
proves the invariant for every finite run from startup as a master or a worker, and `Guarantees` and
`Followers` draw the conclusions for every state such a run leads to (`Safety.Reached`). The replica is the same server in its
worker role: its run is one more run of the step system, with any other proper events between the commands of its stream.

The functions of the step system have statements beside them that do not use them. `Words`, `Sessions`, `Roles` and
`NodeClient` say what a command does in terms of its words and of the bytes a client reads, where a word counts as a number
if it spells one (`Text.Spells`) and as a name in any mix of cases (`Text.Names`); `RdbFormat` and `RespGrammar` do the same
for the two formats; `Promoter.RanksAnswers` and `Monitors.HealthCheckMeans` speak of the texts and results the nodes answered.

A *proper* run (`Membership.Proper`) is the traffic the guarantees speak about: ordinary clients send writes to masters only,
nobody sends writes over a replica's connection, and a `REPLICAOF` that leads to a new master reaches it (whose snapshot has
keys of at most 2^31-1 bytes). A `REPLICAOF` that is refused or changes nothing is ordinary traffic. Membership and the server object do not need it. Stream statements are about one master term: from startup as a master, or from `REPLICAOF NO ONE`, to the
next `REPLICAOF host port`. Clock readings, hash-map iteration orders, fresh ids, checksums, the outcome of a handshake and the
answers of monitored nodes are parameters. A byte is a `char`.

Facts about the code that the model keeps as they are: GETACK frames go to the queues but are counted by nobody on the master,
while a replica counts them after answering, so that a later WAIT can count a replica that has not been sent the write yet
(`CountedTooEarly`; `CountTruthful` says exactly what a count is worth), a failover can prefer the replica that has applied less
(`OutrankedByGetAcks`; `RankedByOffset`), and a sibling can be continued from other data (`EqualOffsetsOtherData`;
`ContinuedSibling`); SET and DEL are published even when they were
answered with an error; a sweep advances the replication offset but not the one INFO reports (`ReportedOffset` says exactly when
they agree); a client's write to a worker is refused but still overwrites the worker's replication offset
(`ReadOnlyWriteMovesOffset` says exactly when); after a master stepped down its
offset is zeroed but its backlog is not, so a later feed lies behind the end, empties the window or shifts what is read
(`AnyFeed`, `FeedReadsRight`); a handshake that fails after FULLRESYNC leaves the announced id and offset behind; replicas that attach to a worker stay attached when it is promoted; a node whose ROLE query fails on recovery keeps its
old role. Because `connect_to_master` is only ever entered with a zero offset, the server itself always asks for a full resync;
CONTINUE is proved for any client that sends a PSYNC.

## Model

| member | source | states |
|---|---|---|
| Text.ParseDec | src/resp_parser.cpp:18-20 | printing a number and reading it back with `stoi`/`stoll` is the identity up to the type's maximum |
| Text.ParseSpelled | src/command.cpp:62-81 | `stoi` and `stoll` give the number a text spells (spaces, a sign, digits, anything), and nothing if the type cannot hold it |
| Text.ParsedIsSpelled | src/command.cpp:62-81 | what they give is spelled; so a text that spells no number is an error |
| Text.UpperNames | src/command.cpp:8-11 | upper-casing makes exactly the spellings of a name equal to it |
| Resp.Parse | src/resp_parser.cpp:6-53 | the scanning loops compute the recursive grammar, with `consumed == 0` for incomplete or malformed input |
| Resp.EncodeArray | src/resp_parser.cpp:61-67 | the appending loop computes the encoding |
| Resp.RoundTrip | src/resp_parser.cpp:6-67 | every command with count and lengths up to 2^31-1, followed by any bytes, parses back and consumes exactly its encoding |
| Resp.ProperPrefixWaits | src/resp_parser.cpp:6-53 | no proper prefix of an encoding is accepted |
| Resp.ParsedExtends | src/resp_parser.cpp:6-53 | bytes arriving later never change a finished parse |
| Resp.ChunkingIrrelevant | src/server.cpp:138-178 | for every byte stream, well formed or not, and every split into chunks, the read loop yields the same commands and the same leftover as parsing it at once |
| Resp.StreamFraming | src/server.cpp:138-178 | a stream of encoded commands cut anywhere yields exactly the commands before the cut; the unfinished one stays |
| RespGrammar.ParsedIsRequest | src/resp_parser.cpp:6-53 | whatever the parser takes off is a request: an asterisk, a count, and as many dollar signs, lengths and strings, each followed by CRLF |
| RespGrammar.RequestParsed | src/resp_parser.cpp:6-53 | every request, followed by any bytes, is taken off whole, with its strings |
| RespGrammar.OnlyArrays | src/resp_parser.cpp:6-16 | nothing that does not begin with an asterisk is parsed |
| Backlog.ReplicationBacklog.constructor | src/replication_backlog.hpp:15-16 | an empty window over a blank ring |
| Backlog.ReplicationBacklog.Feed | src/replication_backlog.hpp:18-43 | any feed, also larger than the ring and at any offset: the ring holds the newest bytes and the window ends behind the data, at most `capacity` wide |
| Backlog.ReplicationBacklog.Contains | src/replication_backlog.hpp:45-47 | true exactly on the window, both ends included |
| Backlog.ReplicationBacklog.Read | src/replication_backlog.hpp:50-76 | returns the newest bytes, as many as lie between the offset and the end, across the wrap |
| Backlog.ReplicationBacklog.SetStart | src/replication_backlog.hpp:79-84 | an empty window that contains exactly its own offset; the old bytes stay in the ring |
| Backlog.FeedTracks | src/replication_backlog.hpp:18-43 | a contiguous feed keeps the ring in step with the whole byte stream |
| Backlog.SeriesOfFeeds | src/replication_backlog.hpp:18-84 | after any series of contiguous feeds the held offsets and what is read from them, in terms of the concatenated feeds |
| Backlog.AnyFeed | src/replication_backlog.hpp:18-76 | after a feed at any offset, also behind the end or past it: the window, when it is empty, and what reading from it gives |
| Backlog.FeedReadsRight | src/replication_backlog.hpp:18-76 | after a feed behind the end, what is read is right if and only if the bytes before the feed are the newest ones in the ring |
| KeyStore.Store.Set | src/store.cpp:3-16 | stores the value and replaces any earlier deadline |
| KeyStore.Store.Get | src/store.cpp:18-28 | an expired key reads as absent before it is swept |
| KeyStore.Store.Del | src/store.cpp:46-46 | removes the key and says whether it was there |
| KeyStore.Store.EvictExpired | src/store.cpp:30-44 | drops and returns exactly the expired keys among the first twenty of the iteration; the others stay |
| KeyStore.SweepsInvisible | src/store.cpp:3-46 | with a monotone clock, sweeps inserted anywhere in a run of SET, DEL and GET never change a GET answer |
| Commands.ScanOptions | src/command.cpp:56-81 | the option loop computes the recursive reading of PX and EX, stopping at the first bad number; `Words` says what it means for a client |
| Commands.ExecuteSet | src/command.cpp:53-88 | the reply and the store of a SET, rejected ones included; `Words` says what a client reads |
| Commands.ExecuteDel | src/command.cpp:90-97 | the counting loop deletes all named keys and reports the count |
| Commands.Execute | src/command.cpp:18-165 | the chain of command handlers computes the reply and the new store of every command, refusals and errors included |
| Commands.HandedOver | src/command.cpp:18-165 | the reply is empty exactly for the commands the server itself completes: PSYNC, and WAIT and REPLICAOF with valid arguments |
| Commands.ReadOnly | src/command.cpp:23-25 | a command that changes a store is a SET or DEL, sent to a master or by the master |
| Commands.SetThenGet | src/command.cpp:53-104 | an accepted SET is read back until its deadline and no other key changes |
| Commands.DeletedCounts | src/command.cpp:90-97 | the count is the number of distinct keys removed |
| Words.SetAndGet | src/command.cpp:53-104 | a SET whose options have numbers and whose last option, if any, asks for a positive time is answered OK; from then on GET gives the value until that time, seconds for EX and milliseconds for PX, has passed, and nil after; other keys read as before; words that are no option are passed over |
| Words.SetExpired | src/command.cpp:83-85 | a SET whose last option asks for zero or less is refused and stores nothing |
| Words.SetNoNumber | src/command.cpp:59-81 | a SET with an option whose word is no 64-bit number is refused and stores nothing |
| Words.SetTooShort | src/command.cpp:54-54 | a SET with fewer than two arguments is refused and stores nothing |
| Words.SomeSetWords | src/command.cpp:56-81 | the three cases are all: every SET with a key and a value divides into options, other words and at most one dangling word, and if all its numbers are numbers, has a last option or none |
| Words.SetExPx | src/command.cpp:53-104 | SET key value EX n, in any spelling of the option, is read back for n times 10^9 ns, with PX for n times 10^6 ns |
| Words.DelAndGet | src/command.cpp:90-104 | DEL reports the number of distinct keys that were there; they read as nil from then on and others as before |
| Words.RefusedText | src/command.cpp:23-25 | a client's write to a worker is answered READONLY and changes nothing |
| Words.EchoText | src/command.cpp:31-34 | ECHO returns its word as a bulk string |
| Rdb.Serialize | src/rdb.cpp:222-309 | the counting and writing loops produce the snapshot of the given iteration order |
| Rdb.Load | src/rdb.cpp:311-387 | the opcode loop leaves the store the recursive reader describes, also when it throws half way |
| RdbProofs.LengthAt | src/rdb.cpp:93-128 | all three length forms read back, up to 2^32-1 |
| RdbProofs.StringAt | src/rdb.cpp:134-177 | any string shorter than 2^32 bytes reads back and the cursor ends behind it |
| RdbProofs.PreambleSkipped | src/rdb.cpp:229-261 | the aux fields, plain and integer-encoded, and the database selector are passed over without effect |
| RdbProofs.RoundTrip | src/rdb.cpp:222-387 | for every store and iteration order, loading a snapshot gives exactly the entries alive at the snapshot whose encoded deadline is ahead at load time, with their values and remaining times |
| RdbProofs.TtlDrift | src/rdb.cpp:264-293 | a deadline moves by more than -2 ms and less than +1 ms; a key with 2 ms left at load time is not lost |
| RdbFormat.LengthForm | src/rdb.cpp:93-103 | a length takes one byte below 64, two below 16384 with the high bits first, otherwise 0x80 and four with the least significant first |
| RdbFormat.EntryForm | src/rdb.cpp:264-293 | an expired entry takes no byte; another one is 0xFC and its deadline in eight bytes, if it has one, 0x00, key and value |
| RdbFormat.DeadlineForm | src/rdb.cpp:264-293 | the deadline is the wall clock plus the remaining time, both in whole milliseconds |
| RdbFormat.SnapshotForm | src/rdb.cpp:222-309 | the whole snapshot: REDIS0011, the aux fields, the database, 0xFB with the numbers of live and of expiring keys, the entries, 0xFF and eight bytes |
| RdbFormat.SecondsForm | src/rdb.cpp:357-361 | 0xFD and four bytes give the next key a deadline in seconds |
| RdbFormat.IntegerForm | src/rdb.cpp:139-177 | strings stored as integers of one, two or four bytes, negative ones included, read as their decimal text |
| RdbFormat.OtherForms | src/rdb.cpp:311-387 | what does not begin like a snapshot loads nothing; 0xFF ends loading whatever follows; an unknown mark stops it with what was read |
| Servers.Server.Propagate | src/server.cpp:735-743 | every queue gets the data appended |
| Servers.Server.Publish | src/server.cpp:168-175 | a write is counted, fed to the backlog at the old offset and fanned out, in either role |
| Servers.Server.SweepTick | src/server.cpp:719-728 | evicts expired keys, then publishes one DEL for each |
| Servers.Server.CountCaughtUp | src/server.cpp:609-615 | the number of replicas whose acknowledgement reached the target |
| Servers.Server.Settle | src/server.cpp:663-691 | answers the WAITs that are due with the current count and keeps the others in order |
| Servers.Server.HandleWait | src/server.cpp:618-660 | answered at once, or GETACK fanned out and parked; `Sessions.WaitWords` says when and with what |
| Servers.Server.HandlePsync | src/server.cpp:408-457 | CONTINUE with the replay, or FULLRESYNC with a snapshot, and a new queue; `Sessions.PsyncWords` says which and with what |
| Servers.Server.RemoveClient | src/server.cpp:576-606 | the client leaves replicas, queues and parked WAITs together |
| Servers.Server.Promote | src/server.cpp:488-521 | ids shift, the offset carries over, the backlog restarts there |
| Servers.Server.Follow | src/server.cpp:524-574 | WAITs answered, replicas dropped, worker role taken, both handshake outcomes |
| Servers.Server.HandleRegular | src/server.cpp:153-175 | dispatch of an ordinary client's command, whatever it is and however a handshake ends |
| Servers.Server.HandleReplica | src/server.cpp:396-406 | an ACK is noted and the parked WAITs are looked at |
| Servers.Server.HandleStream | src/server.cpp:385-393 | stream bytes are counted after the reply was computed; only GETACK is answered |
| Servers.Server.HandleRead | src/server.cpp:133-178 | append, parse, dispatch, erase: the state is the fold of all complete commands, the rest stays buffered, and the loop terminates |
| Servers.Server.Disconnected | src/server.cpp:183-191 | keeps the server's invariant |
| Servers.Server.CheckWaitTimeouts | src/server.cpp:678-691 | expires exactly the WAITs whose deadline is reached |
| Servers.Server.SwapPending | src/server.cpp:767-776 | moves every pending buffer behind its draining buffer |
| Servers.Server.DrainQueue | src/server.cpp:783-795 | whatever the socket accepts, a prefix is sent and the rest stays; an error discards it |
| Runs.NextIsStep | src/server.cpp:133-798 | recording history does not change any step of the server |
| Membership.StepSane | src/server.cpp:408-743 | membership survives every step of either thread, whatever the traffic; roles and offsets survive every proper one |
| Membership.PropagationReachesAll | src/server.cpp:735-743 | a published write is appended to the queue of every attached replica, in either role |
| Waiting.NextKept | src/server.cpp:609-691 | WAIT safety survives every proper step |
| Waiting.AnswersAreTold | src/server.cpp:663-691 | settling appends to each client's output exactly its own answers, in order |
| Streams.AttachedWrite | src/server.cpp:168-175 | one more published write keeps a replica's stream in line with the log |
| Streams.WriterStreams | src/server.cpp:751-798 | no interleaving of swap, partial send and send error breaks the stream invariant |
| Books.NextBooked | src/server.cpp:133-798 | the reported offset, the set of attached replicas and the GETACKs queued for parked WAITs stay as the history says with every proper step |
| Safety.NextInv | src/server.cpp:133-798 | all invariants together survive every proper step |
| Safety.Reachable | src/server.cpp:133-798 | all invariants hold after every proper run from startup |
| Guarantees.MembershipInvariant | src/server.cpp:425-434 | after every run, proper or not, replicas, queues and clients tagged REPLICA agree, without duplicates; parked WAITs have live clients |
| Guarantees.WaitSafety | src/server.cpp:609-691 | parked WAITs are short of a positive target; each accepted WAIT is answered once, parked, or dropped with its client; every recorded answer has the number of replicas whose acknowledgement at that moment reached the target, whatever caused it, which is at least as many as asked for if it was an acknowledgement |
| Answers.AnswersReachClients | src/server.cpp:609-691 | in every run the output of a client that sends nothing but WAITs grows by exactly its answers, in order |
| Sessions.WaitWords | src/server.cpp:618-660 | a WAIT in words: with nothing written it is told the number of replicas; without replicas, or with enough of them acknowledging all that was written, that number; otherwise it is parked with its deadline and every queue gets one GETACK |
| Sessions.WaitRefused | src/command.cpp:153-162 | a WAIT with too few words or without two 32-bit numbers is refused and changes nothing |
| Sessions.AnswersCount | src/server.cpp:609-691 | every answer of every step of every run reports the number of replicas whose recorded acknowledgement reaches its target in that very state, whatever caused it; of all replicas, if nothing was written |
| Sessions.TimeoutsMean | src/server.cpp:678-691 | a clock round removes exactly the parked WAITs whose deadline is reached, each as often as it was parked |
| Sessions.PsyncWords | src/server.cpp:408-457 | a PSYNC in words: the client becomes a replica; it is sent CONTINUE, the current id and the term's bytes from its offset on if it names the current id and an offset the backlog holds, or the old id and the offset at promotion while that is held; FULLRESYNC with the current id, offset and a snapshot otherwise |
| Sessions.PsyncNumbers | src/server.cpp:408-457 | for a printed offset, CONTINUE if and only if |
| Sessions.NeverResumed | src/server.cpp:408-420 | "?", "-1" and words that are no number are never continued |
| Sessions.WritePublished | src/server.cpp:153-175 | a SET or DEL to a master, accepted or not: the client is told the reply, every queue gets the words as they were, both offsets grow by their length |
| Sessions.OnlyAnswered | src/server.cpp:153-175 | any other command the server does not complete itself only adds its reply to the client's output |
| Sessions.DisconnectMeans | src/server.cpp:576-606 | a client that goes away takes its WAITs, its queue and its place among the replicas, and nothing else changes |
| Roles.ReachedAligned | src/server.cpp:488-574 | in every reachable state the server is a worker exactly if it follows someone, and reports that host and port |
| Roles.NoOneWords | src/server.cpp:488-521 | REPLICAOF NO ONE, in any spelling: a worker becomes a master with a fresh id, remembers the old one and the offset reached, goes on from there and keeps its data and replicas; a master just says OK |
| Roles.FollowWords | src/server.cpp:524-574 | REPLICAOF host port with a handshake that goes well: id, offset and data of the master are taken over, parked WAITs are answered, a former master's replicas are dropped |
| Roles.FollowFails | src/server.cpp:524-574 | with a handshake that fails: a master again without replicas, with its data, and with the announced id and offset if there were any |
| Roles.AlreadyConnected | src/server.cpp:524-574 | a worker told to follow the master it follows only says so |
| Roles.ReplicaofRefused | src/command.cpp:137-150 | a REPLICAOF with other than two arguments or without a port from 1 to 65535 is refused and changes nothing |
| Roles.PromotionSeen | src/server.cpp:488-521 | a controller that asks ROLE reads slave before REPLICAOF NO ONE and master after it |
| Guarantees.ReportedOffset | src/server.cpp:168-175 | in every state of a term INFO reports the offset behind the last client write, or the one the term began with; it is the replication offset if and only if the sweep published no DEL since |
| Guarantees.GapFree | src/server.cpp:735-798 | sent, draining and pending bytes are the sync payload plus the frames since; the payload carries the replay, or announces the offset and the snapshot; without GETACKs, replay and frames are the term's byte stream from the replica's offset on |
| Guarantees.AttachedFromStart | src/server.cpp:425-434 | in a term begun at startup every replica is one the stream results are about |
| Guarantees.AttachedAfterPromotion | src/server.cpp:488-521 | after a promotion they miss exactly the replicas that attached to the worker and have stayed |
| Guarantees.PromotionIdentity | src/server.cpp:416-521 | a worker is promoted by REPLICAOF NO ONE and serves any run as master: a PSYNC with the old id continues exactly when it asks for the offset at promotion and at most `capacity` bytes were written since, and the replay is all of them |
| Guarantees.StepIdentity | src/server.cpp:133-798 | no step but a REPLICAOF that promotes or leads to another master changes the role, the two ids, the promotion offset or the backlog's capacity |
| Guarantees.ReadOnlyWriteMovesOffset | src/server.cpp:167-175 | when a client's command leaves a worker's replication offset alone: if and only if it is no write or brings the server's counter to the same value |
| Followers.ChunksGiveFrames | src/server.cpp:133-178 | whatever chunks of its stream reach a worker, it takes off exactly the complete frames |
| Followers.QuietStep | src/server.cpp:133-798 | clients, replicas of the worker, the clock and the writer thread do not touch what a worker has counted, stored and answered |
| Followers.RunFollows | src/server.cpp:133-178 | in any run of a worker with any other proper events in between, the frames taken off the stream decide its offset, data and answers |
| Followers.ExactAcks | src/server.cpp:385-393 | whatever part of its stream was sent to a replica attached by FULLRESYNC, in whatever chunks and whatever else it does, it has applied exactly the complete frames and answered the GETACKs among them, the j-th with the master's offset when it was queued plus 37(j-1) |
| Followers.WaitsAsk | src/server.cpp:643-659 | every WAIT parked since a replica attached has a GETACK of its own in that replica's stream, queued at the WAIT's target |
| Followers.AckArrives | src/server.cpp:396-406 | the acknowledgement's text, parsed and dispatched, sets the replica's offset on the master |
| Followers.AckCounts | src/server.cpp:609-676 | an acknowledgement at or above the target makes the replica count for the WAIT, which stays parked exactly as long as the count is short |
| Followers.WaitRoundTrip | src/server.cpp:618-676 | from a parked WAIT to its answer: once the replica has taken the WAIT's GETACK, its output holds an acknowledgement that, dispatched by the master, makes it count for this WAIT |
| Followers.SnapshotPlusLog | src/server.cpp:441-455 | snapshot plus any prefix of the queued frames holds only keys and values the master had at that log position; a key it lacks was not alive at load time |
| Followers.EndToEnd | src/server.cpp:133-178 | the same for any run of a worker that loaded its snapshot and took the raw bytes sent to it in arbitrary chunks |
| Followers.LackingKeyWasDying | src/rdb.cpp:371-377 | a lacking key had less than 2 ms to live at load time, and none on whole-millisecond clocks |
| Followers.EffectMirrors | src/command.cpp:53-97 | a write executed at different times on master and replica, accepted or rejected, keeps them in step |
| Positions.CountTruthful | src/server.cpp:609-615 | the replica's run ends with a GETACK and the master has recorded its acknowledgement: a WAIT counts the replica if and only if its target is at most the acknowledgement, and truthfully, the worker's data including the write, if and only if it is at most the acknowledgement less 37 per GETACK taken before |
| Positions.RankedByOffset | controller/failover/promoter.go:65-71 | two replicas of one master have applied the log in the order of their offsets less 37 per GETACK taken, if and only if |
| Positions.ContinuedSibling | src/server.cpp:416-438 | a sibling continued by a promoted replica has applied the same part of the log if and only if both took equally many GETACKs |
| Positions.SiblingsAgree | src/server.cpp:416-438 | two replicas at the same log position agree on every key both hold; a key only one holds was not alive when the other loaded its snapshot |
| Witnesses.RefusedWriteMoves | src/server.cpp:167-175 | a reachable worker at offset 5 refuses a client's SET and reports offset 27 |
| Witnesses.SweepLeavesReportBehind | src/server.cpp:719-728 | a reachable master whose reported offset is 20 bytes behind after a sweep |
| Witnesses.CountedTooEarly | src/server.cpp:643-647 | a reachable master that answers a WAIT for one replica at once although no byte of the last SET has been sent to it |
| Witnesses.OutrankedByGetAcks | controller/failover/promoter.go:33-80 | a reachable master with two replicas: the one a failover ranks first lacks a write whose WAIT was answered on the acknowledgement of the other |
| Witnesses.EqualOffsetsOtherData | src/server.cpp:416-438 | a reachable master with two replicas that count the same offset and have applied different parts of the log |
| Promoter.PickBestReplica | controller/failover/promoter.go:33-80 | the candidates that answered, each as often as listed, nobody behind someone who answered with a higher number or with the same and has a smaller address; an error exactly when nobody answered |
| Promoter.RankedByNumbers | controller/failover/promoter.go:33-80 | in terms of the INFO texts: a higher number stands before a lower one, equal numbers in the order of addresses |
| Promoter.WorthOf | controller/failover/promoter.go:47-56 | a printed number counts as itself, a missing field or a text that is no numeral as 0 |
| NodeClient.RanksServers | controller/failover/promoter.go:33-80 | with servers that answer INFO as the server does: nobody stands behind a server with a smaller offset |
| Promoter.SortCandidates | controller/failover/promoter.go:65-71 | sorted by offset descending and address ascending, a permutation |
| Promoter.RankingUnique | controller/failover/promoter.go:65-71 | there is only one sorted permutation |
| Promoter.RankedIndependent | controller/failover/promoter.go:33-80 | the ranking is the same for every listing order of the candidates |
| Promoter.Promote | controller/failover/promoter.go:89-130 | the winner took REPLICAOF NO ONE and was confirmed within three polls; everyone asked before it failed; all were asked if nobody won |
| Promoter.BestReplicaWins | controller/failover/promoter.go:33-130 | nobody wins only if no candidate that answered took REPLICAOF NO ONE and said "master" in one of three polls; the winner did, and no candidate that outranks it by the answered texts did |
| Promoter.Reconfigure | controller/failover/promoter.go:135-157 | one error slot per sibling, and nothing is sent when the master address is malformed |
| Monitors.Monitor.DiscoverTopology | controller/failover/monitor.go:69-98 | roles and liveness as answered; the last master seen is the master |
| Monitors.Monitor.TriggerFailover | controller/failover/monitor.go:198-251 | the controller's records afterwards; with a well-formed winner address exactly everyone alive but the old and the new master is redirected |
| Monitors.Monitor.NodeAnswered | controller/failover/monitor.go:139-178 | recovery, adoption and demotion of a node that answered |
| Monitors.Monitor.NodeMissed | controller/failover/monitor.go:181-193 | counting, declaring dead, failing over; `HealthCheckMeans` says what that does to the records |
| Monitors.Monitor.HealthCheck | controller/failover/monitor.go:136-195 | the results folded in channel order; `HealthCheckMeans` says what each does |
| Monitors.NoneForgotten | controller/failover/monitor.go:209-250 | every ranked candidate but the winner is a sibling; the old and the new master are not |
| Monitors.HealthCheckMeans | controller/failover/monitor.go:136-251 | over every run, for every result: when the streak of failed pings reaches the threshold the node is dead, and if it is the master, the best live slave that answered and took over is the master, if there is one, and nobody else changes; a node that answers is alive, says its role if it was dead, becomes the master if there is none, and follows the master otherwise |
| Monitors.FailoverMeans | controller/failover/monitor.go:198-251 | a failover in terms of the answers: the new master is the best of the nodes that took over; without one nothing but the count changes |
| Monitors.DiscoveredIs | controller/failover/monitor.go:69-98 | every node asked is recorded as it answered; the master is the last one that said so |
| Monitors.FailoverIndependent | controller/failover/monitor.go:209-239 | the same node is elected for every iteration order of the node map |
| Monitors.OneBelievedMaster | controller/failover/monitor.go:136-195 | after a health check whose calls succeed, in any result order, a node that answered and is recorded as master is the master; the master is empty only if no node is recorded as master |
| Monitors.FailureDetection | controller/failover/monitor.go:181-239 | over every run: counters are failure streaks, death needs a streak at the threshold, and a known master is replaced only then, by a node recorded alive and slave |
| NodeClient.ReadRole | controller/failover/client.go:64-98 | splitting into lines and dropping headers gives the role the reply names, and an error for fewer than two values |
| NodeClient.ReadInfo | controller/failover/client.go:102-120 | splitting into lines and at the first colon gives the fields, later ones replacing earlier ones |
| NodeClient.RoleRead | controller/failover/client.go:64-98 | from any server's ROLE reply the controller reads "master" exactly for a master and "slave" for a worker |
| NodeClient.InfoRead | controller/failover/client.go:102-120 | from any server's INFO reply it reads the offset the server reports |
| NodeClient.PingSeen | controller/failover/client.go:44-50 | a live server's answer to PING contains what the controller looks for |

## Left out

- Sockets, epoll, signals, DNS, `accept` and the blocking handshake: system calls; the handshake's outcome is a parameter.
- Reuse of a file descriptor while the writer thread still holds a queue: sent bytes are attributed to the queue, not to the descriptor.
- Removal of a client because a send failed inside the WAIT loops, and partial sends to ordinary clients: replies count as delivered.
- Backlog.ReplicationBacklog.constructor: capacity zero is excluded, because the source then divides by zero.
- Followers.ExactAcks: about replicas attached by FULLRESYNC, the only sync the server itself asks for; a foreign client that is continued is covered by `GapFree` up to what it is sent.
- Followers.WaitRoundTrip: speaks of acknowledgements that fit in 64 bits.
- Monitors.Monitor.HealthCheck: starts with no failover in progress, which always holds because one goroutine does all the work.
- Monitors.OneBelievedMaster: assumes that a node configured with the empty address, which the controller uses for "no master", never answers.
- 64-bit overflow of offsets, of `EX` times 1000 and of deadlines far in the future: computed exactly; the snapshot theorems ask for deadlines that fit in 64 bits.
- The CRC64 of a snapshot: any eight bytes, since the loader never checks them.
- Randomness of replication ids: the promotion theorem asks for a new id different from the old one.
- Update in place of `pending_waits_` by iterator: the list is rebuilt and assigned; each client's read buffer lives in a dictionary beside its record.
- The controller's connections, the single 4096-byte read of a reply, `net.SplitHostPort` and `ReplicaOf`: oracles; of a ROLE reply only the role is read, which is all the controller uses.
- NodeClient.InfoRead: the second id, which comes from another server, is a single line.
- Sessions.PsyncWords, Sessions.PsyncNumbers: about a master; what a worker answers a PSYNC is covered by `HandlePsync`.
- Logging, configuration and environment parsing, containers and infrastructure: no logic to prove.
