# rfrp: the tunnel, proved

rfrp is a reverse-proxy tunnel. Users connect to ports the server opens on behalf of a client; every
such stream is cut into frames tagged `(proxy_id, conn_id)`, multiplexed over one encrypted
connection, and forwarded by the client to an internal service it dials. This project models that
machinery in Dafny and proves what it promises, for every configuration, every interleaving and
every failure the code reacts to.

## What is modelled

**The tunnel as one state machine.** `Tunnel` holds the server's main loop, one accept loop per
proxy, a read and a write task per connection on either side, the two frame queues with their
encoders and wires, and the client's registration, main loop and heartbeat. Each `await` point is a
separate step, so any task may run between any two awaits of another; queues block when full, and
sockets, dials, wires and encoders may fail at any step. `Link` is one direction of the tunnel
(rfrp_proto/src/coalesce.rs), `Writer` the flush-when-drained write task. Histories (what each
socket read and wrote, what each link carried, what became of each data frame) are part of the
state; no guard looks at them. `Invariant` states the inductive invariant, `KeepStructure`,
`KeepRegistration`, `KeepAckOrder`, `KeepDownstream`, `KeepUpstream` and `KeepPorts` prove that
every step keeps it, and `Theorems`, `Completeness`, `Limits`, `Drops`, `Answers`, `Heartbeats`,
`Lifecycle`, `Progress`, `RegistrationRun`, `EarlyData` and `Exactness` draw the conclusions;
`StepFrames` says once what each task's steps leave alone. `Scenarios` and `Conversation` build
concrete runs: that data does get through, both ways, and that some things one might hope for do
fail.

**The main loops with their real tables.** `ServerSession` and `ClientSession` model every
`Arc<DashMap>` as an object, so "the cache holds the object the table holds" is a statement about
identity. They are proved to behave like plain loops on flat tables, and `Refinement` proves that
the main loops inside the tunnel model are those plain loops, from their start, in every run.

**The frame pipeline.** `Flate` has the two chunked DEFLATE loops over an engine that may consume
and emit any amount per call; `Crypto` the session cipher with its counter nonces and trailer;
`Codec` the encoder and decoder with reused buffers, proved equal to pure functions of frame, key
and counter. `CodedLink` is one direction of the tunnel down to its bytes, proved to refine the link
of frames, and `TunnelBytes` carries that over to every run of the tunnel. DEFLATE, AES-256-GCM,
SHA-256 and MessagePack are parameters with stated laws; `ToySuite.ToyIsLawful` gives a concrete
instance of all of them at once, so the laws can be met.

**The small protocols.** `Handshake` is the nonce exchange, as the two routines over fragmented
streams and as a two-party protocol; `Keepalive` is the heartbeat timing over real time.

`dafny verify dfyconfig.toml` checks the whole project.

## Assumptions

- Both peers run this code; each wire is FIFO and loses nothing until it is cut.
- Fewer than 2^64 connections are accepted per proxy and fewer than 2^64 messages encrypted per
  cipher. Both counters are modelled with their wrap-around.
- MessagePack reads back what it wrote except the skipped `addr`; DEFLATE inflates what it deflated
  and, on a complete stream, each engine call without an end makes progress; AES-GCM opens exactly
  what was sealed. The hash is any function.
- The tunnel model takes every frame to serialise within 64 MiB; `CodedLink.BytesRefineFrames` says what
  the peer makes of one that does not.
- A port is held by one listener at a time. A BufWriter has 8 KiB and touches its socket only to make
  room, to pass on a chunk of that size or to flush; one read yields at most 64 KiB (this last bound is
  used for the runs that are shown to exist, and nowhere else).
- Numbers inside frames are unbounded here. The ids the program puts there are shown to stay below
  16 and 2^64.

## Where the code does less than one might expect

- `addr` is not serialised, so it is blank in whatever the server holds and echoes
  (`Frames.InitConfig`, `Codec.RoundTrip`, `Theorems.NoCrosstalk`).
- A client gives up if a user of an earlier proxy speaks before the last acknowledgement.
  `EarlyData.EarlyDataExactly` says for which configurations this can happen: exactly those of two or
  more proxies whose first asks for a free port of 1024 or above. `Scenarios.EarlyDataEndsRegistration` is
  the run, and `Answers.RegistrationAnswers` shows that this is the only surprise.
- A read task's clean-up removes whatever its key maps to: `Scenarios.StaleCleanupRemovesNewer`
  shows it taking a newer connection's entry, `Limits.CleanupTakesOther` says exactly in
  which states and `Exactness.StaleCleanupExactly` for which configurations. The stream theorems hold
  regardless.
- Nothing checks that the proxies of a configuration ask for different ports, or for one the server
  itself does not use. Such a configuration passes validation and is never served:
  `Exactness.ForwardingExactly`. It is stated for a server that is still up, because teardown frees the
  ports one after the other and may let the last registration through.
- The comment on the server's timeout calls 90 seconds comfortably larger than the ping interval;
  `Keepalive.NeverExpires`, `Keepalive.ServerSlackIsNeeded` and `Keepalive.ClientSlackIsNeeded` give
  the exact amount of delay either side tolerates.

## Model

| member | source | states |
|---|---|---|
| `Theorems.StepKeepsInv` | rfrp_client/src/run_proxy.rs:152-430 | every step of every task on either node keeps the invariant that spans both nodes, both queues and both wires |
| `Theorems.Always` | rfrp_server/src/run_proxy.rs:55-206 | the invariant holds in every state any run reaches, and the client's configuration never changes |
| `Theorems.StreamToServices` | rfrp_client/src/run_proxy.rs:246-274 | in every run the payloads that reached the client for a connection are a prefix of the user's chunks; each went to internal connection i exactly when it lies in i's stretch, that stretch is a contiguous piece of the user's stream in order, i's socket holds a prefix of it, and stretches of successive connections do not overlap |
| `Theorems.NoCrosstalk` | rfrp_client/src/run_proxy.rs:225-254 | every internal connection was dialled at a text that is the configured ip of its own proxy, a colon and digits that read as the configured port; the server's listener of that id serves that same entry, and its socket holds only bytes of the one user it was opened for |
| `Theorems.StreamToUser` | rfrp_server/src/run_proxy.rs:159-195 | in every run what was queued and what was written to a user is a prefix of one in-order merge of outputs of internal connections opened for that user |
| `Theorems.StreamToUserSingle` | rfrp_client/src/run_proxy.rs:390-427 | if only one internal connection was ever opened for a user, the user's bytes are a prefix of that connection's output |
| `Theorems.Causality` | rfrp_proto/src/frame_handle.rs:96-117 | every data frame the client ever queued names a connection the server had already accepted and filed, and was produced by an internal connection opened for it |
| `Theorems.RegistrationAgreement` | rfrp_client/src/run_proxy.rs:64-148 | a forwarding client has at most 16 proxies, its map has exactly the keys 0..n-1 with the i-th configured entry under i, and the server bound listener i for that entry on an unprivileged port; until the server tears the session down every one of these listeners still accepts, each on a port of its own |
| `Theorems.AllServed` | rfrp_proto/src/frame_handle.rs:47-79 | the same of the server as soon as every registration has been acknowledged, whatever became of the client since |
| `KeepPorts.Keeps` | rfrp_proto/src/frame_handle.rs:47-79 | every step keeps it that no two listeners of a session hold the same port and that a bound listener goes only at teardown |
| `Theorems.AckOnceBeforeData` | rfrp_proto/src/frame_handle.rs:37-79 | no two successful acknowledgements name the same proxy, there are never more answers than registrations read, and every data frame is queued behind its proxy's acknowledgement |
| `Theorems.ClientNeverSurprised` | rfrp_client/src/run_proxy.rs:225-294 | the next frame a forwarding client reads is data of a registered proxy or a pong: the unknown-proxy, Register and RegisterAck branches are unreachable |
| `Theorems.ServerNeverSurprised` | rfrp_server/src/run_proxy.rs:141-195 | the next frame the server reads is a registration, a ping or data of an accepted connection, and no registration once the client forwards: the pong and RegisterAck branches are unreachable |
| `Theorems.ChunkAccounting` | rfrp_proto/src/frame_handle.rs:140-173 | each chunk read from a user is, in order, in exactly one place: settled at the client, in its hands, on the wire, lost, with the encoder, queued, pending or dropped; write tasks conserve bytes and no queue exceeds 256 |
| `Theorems.ResponseAccounting` | rfrp_server/src/run_proxy.rs:174-195 | each chunk read from an internal service is, in order, in exactly one place: queued to the user, refused by the server, in its hands, on the wire, lost, with the encoder, queued, pending or dropped; something is refused only if the user's route or receiver is gone |
| `Theorems.ResponsesAreMerge` | rfrp_server/src/run_proxy.rs:174-187 | the data frames the server has read for a connection interleave, in order, prefixes of what its internal connections put out |
| `Theorems.QueuedIsPrefix` | rfrp_server/src/run_proxy.rs:174-195 | what was queued to a user, and what its socket got, is a prefix of what the server read for it, even after a refused send |
| `Completeness.NothingMissingForServices` | rfrp_client/src/run_proxy.rs:256-274 | when nothing of a user was given up and nothing of it is under way, the services opened for it have received, one after the other, exactly the bytes the user sent, whatever other users are doing |
| `Completeness.NothingMissingForUser` | rfrp_server/src/run_proxy.rs:174-187 | when no response for a user was refused, as while it is routed and received, and nothing is under way back to it, its socket holds exactly a merge of everything its services put out, whatever other users are doing |
| `Completeness.AllHanded` | rfrp_client/src/run_proxy.rs:308-357 | the stretches of a connection's successive internal connections cover its arrivals without a gap if none was dropped |
| `Limits.RoutingTableBound` | rfrp_proto/src/frame_handle.rs:83-133 | in every run free plus held permits of a proxy equal 1024, every routed connection holds a permit or is the one accepted last, and a routing table has at most 1025 entries |
| `Limits.ProxyIds` | rfrp_server/src/run_proxy.rs:114-139 | the id counter equals the number of proxies and is at most 16, ids are positions, and the known connections are exactly the accepted ones |
| `Limits.ClientTable` | rfrp_client/src/run_proxy.rs:316-357 | a table entry is always the newest internal connection of its key with its read task still running, a dial that completes never finds its key taken, and a payload being sent goes to the newest connection |
| `Limits.CleanupTakesOther` | rfrp_client/src/run_proxy.rs:422 | a clean-up always leaves its key unfiled, and takes another connection's entry exactly when the key was filed again for a newer one |
| `Limits.HandlesExist` | rfrp_server/src/run_proxy.rs:174-187 | every handle a task holds across an await refers to a connection, proxy or configuration that exists |
| `Limits.GoneStaysGone` | rfrp_proto/src/frame_handle.rs:96-117 | whatever follows a reachable state, a removed route or dropped receiver never returns, internal connections keep key and address, and no socket's stream is rewritten |
| `Drops.NothingDroppedForLackOfRoom` | rfrp_client/src/run_proxy.rs:256-274 | every step that gives up data has a reason other than a full queue: for a chunk a closed channel or wire, a failed or aborted encoder, a failed dial or a registering client; for bytes of a write task a failed write, its last flush or an aborted listener; for a response a missing route or a closed receiver |
| `Answers.EveryRegisterAnsweredOnce` | rfrp_server/src/run_proxy.rs:112-140 | while tunnel and server are up, the answers queued equal the registrations read, but for the one still due |
| `Answers.AnswersMatch` | rfrp_proto/src/frame_handle.rs:42-76 | in every run the j-th answer the server queued echoes the j-th registration it read; a success names proxy j, a rejection names 0 |
| `Answers.RegistrationAnswers` | rfrp_client/src/run_proxy.rs:83-113 | what a client waiting for its i-th answer reads next is that answer, naming id i of a bound listener if it is a success, or data of a proxy before the i-th |
| `Answers.NoPongYet` | rfrp_client/src/run_proxy.rs:165-178 | no pong is ever queued before the client forwards |
| `Heartbeats.EveryPingAnsweredOnce` | rfrp_server/src/run_proxy.rs:141-148 | in every run pongs queued match pings read, counting the one being queued; only a server that gave up on a shut tunnel leaves one unanswered |
| `Lifecycle.ReadersGoOn` | rfrp_client/src/run_proxy.rs:390-422 | in every run every step moves each read task, on either side, as its loop does: it reads on after every chunk it could queue, which is then in the tunnel's history, and leaves its loop only at the end of its socket or because the tunnel is closed |
| `Lifecycle.LoopsGoOn` | rfrp_server/src/run_proxy.rs:112-158 | a main loop ends only when stopped between frames, the server's also when it cannot queue a pong but not when it cannot queue a rejection, the client's also when its answer is no success; neither starts again |
| `Lifecycle.ChannelClosesExactly` | rfrp_client/src/run_proxy.rs:363-383 | a connection's write task sees its channel closed exactly when it has drained it and neither the table nor the main loop has a sender of it |
| `Lifecycle.EncoderClosesExactly` | rfrp_proto/src/coalesce.rs:28-40 | an encoder ends of its own accord exactly when its queue is drained and its main loop, its listeners and all read tasks that could queue a frame are over |
| `Lifecycle.LinksStayOpen` | rfrp_client/src/run_proxy.rs:296-301 | a tunnel queue is closed only by its encoder's end, the client's also when a forwarding client stops, and then always; neither is reopened |
| `Progress.NothingIsStuck` | rfrp_proto/src/frame_handle.rs:87-203 | in every run every task of either node can go on, by success or by failure, unless it waits for room in a full queue, a frame, a permit or a chunk; the wire may be cut anywhere, sending, dialling and binding may fail |
| `Scenarios.DeliveryHappens` | rfrp_client/src/run_proxy.rs:320-383 | for every configuration of at most 16 proxies on different ports from 1024, every proxy of it and every chunk one read can yield, some run brings the bytes of a user of that proxy to the socket of the service at its configured address |
| `Conversation.AnyConversation` | rfrp_client/src/run_proxy.rs:246-427 | for every such configuration and proxy, whatever a user and its service say to each other, chunk by chunk and in any order, some run brings exactly that to either socket through one internal connection dialled at the configured address |
| `Conversation.ResponseHappens` | rfrp_client/src/run_proxy.rs:390-412 | a service that answers in any number of chunks is heard in full through the connection that carried the question |
| `Exactness.ForwardingExactly` | rfrp_proto/src/frame_handle.rs:36-79 | whatever ports others hold, some run gets a client through registration with the server still up if and only if it has at most 16 proxies, each on a port of its own that is at least 1024 and free |
| `Exactness.DeliveryExactly` | rfrp_client/src/run_proxy.rs:320-357 | bytes of a user of proxy p can reach an internal service if and only if the configuration can be so served and p's configured address can be reached |
| `Exactness.StaleCleanupExactly` | rfrp_client/src/run_proxy.rs:421-422 | some run reaches, with the server still up, a clean-up that takes another connection's entry if and only if the configuration can be so served and some configured address can be reached |
| `Scenarios.StaleCleanupRemovesNewer` | rfrp_client/src/run_proxy.rs:421-422 | for every such configuration and proxy and every chunk that one read can yield and the 8 KiB buffer cannot hold, a run in which an old read task's clean-up removes the entry of a newer connection that is open and being read |
| `EarlyData.EarlyDataExactly` | rfrp_client/src/run_proxy.rs:106-113 | whatever ports others hold, some run has data reach the client while it registers if and only if the configuration has two or more proxies and the first asks for a port that is at least 1024 and free |
| `EarlyData.EarlyDataIsFatal` | rfrp_client/src/run_proxy.rs:106-113 | in every run, a client that read data while it registered has ended, and its first proxy had been bound |
| `Scenarios.EarlyDataEndsRegistration` | rfrp_client/src/run_proxy.rs:106-113 | for every list of two or more proxies whose first asks for port 1024 or above, a run with an intact tunnel in which early data ends the client after its first acknowledgement |
| `Link.StepInv` | rfrp_proto/src/coalesce.rs:26-39 | every step of encoder and wire, a failed send and the end for want of senders included, keeps the history equal to delivered, in flight, lost, held and queued frames in order, never exceeds 256 queued, and never reopens the queue |
| `Link.PushInv` | rfrp_proto/src/coalesce.rs:26 | queueing into a link that has room keeps that equation |
| `Link.DeliveredIsPrefix` | rfrp_proto/src/coalesce.rs:32-39 | what the peer has read is a prefix of what was queued, without the skipped fields |
| `Writer.StepInv` | rfrp_proto/src/frame_handle.rs:185-203 | every step of the write task conserves the queued bytes, extends the socket's bytes and never reopens the channel |
| `Writer.SocketIsPrefix` | rfrp_client/src/run_proxy.rs:363-383 | whatever failed, the socket holds a prefix of the queued payloads in order |
| `Writer.DrainedIsComplete` | rfrp_proto/src/frame_handle.rs:195-200 | blocked on an empty channel with no failed flush, the socket holds all of them: no worse than an unbuffered writer |
| `Writer.LoopSteps` | rfrp_proto/src/frame_handle.rs:185-203 | the task flushes exactly when it has written a chunk and sees the channel empty, leaves its loop exactly on a failed write or a closed channel and never on a failed flush, and ends only behind the last flush |
| `Writer.NeverStuck` | rfrp_proto/src/frame_handle.rs:185-203 | a running task that has something to do can do it without a failure, the last flush of what is buffered included |
| `ServerSession.Session.Lookup` | rfrp_server/src/run_proxy.rs:162-172 | the cached lookup returns the very object the routing map holds, or nothing where it holds nothing |
| `ServerSession.Session.SpawnProxy` | rfrp_server/src/run_proxy.rs:126-139 | a new task gets the next id and a fresh empty table, filed under an id that was free, and every earlier task and entry stays |
| `ServerSession.Session.OnFrame` | rfrp_server/src/run_proxy.rs:111-196 | the turn decides like the loop without cache, objects or counter, changes the view like it, and a forwarded payload goes to the channel filed for its connection |
| `ServerSession.Session.Accept` | rfrp_proto/src/frame_handle.rs:113-117 | the accept loop's insert through its own handle adds exactly that route to the session's view |
| `ServerSession.Session.Close` | rfrp_proto/src/frame_handle.rs:172-173 | a read task's removal through its own handle removes exactly that route |
| `ServerSession.Serve` | rfrp_server/src/run_proxy.rs:55-197 | for any sequence of frames and table edits the session with cache and shared tables takes the decisions of the plain one and ends in its view |
| `ServerSession.ProxyCap` | rfrp_server/src/run_proxy.rs:112-124 | for any frames a session has at most 16 proxies |
| `ClientSession.RegisterAll` | rfrp_client/src/run_proxy.rs:67-148 | stop-and-wait: it succeeds exactly if every reply read is a RegisterAck with its success flag set; otherwise nothing is sent behind the first registration that is not so answered, which itself is sent unless it could not be queued; the map holds exactly the acknowledged ids with their own entries |
| `ClientSession.Successes` | rfrp_client/src/run_proxy.rs:81-147 | the replies before it are acknowledgements with the success flag, and the one behind them, if any, is not |
| `RegistrationRun.RegistrationIsPlain` | rfrp_client/src/run_proxy.rs:67-148 | in every run the tunnel's client has queued, counted and filed what RegisterAll sends, counts and files on the replies it got, and it forwards only after a success for every proxy |
| `ClientSession.Session.MapFor` | rfrp_client/src/run_proxy.rs:233-244 | the cached per-proxy map is the object filed for that proxy, created on first use without changing what the table shows |
| `ClientSession.Session.OnFrame` | rfrp_client/src/run_proxy.rs:217-254 | one turn up to its next await acts like the loop on one flat table |
| `ClientSession.Session.OnDialled` | rfrp_client/src/run_proxy.rs:327-357 | the Occupied arm is taken exactly when the flat table has the key; otherwise the new channel is filed as on the flat table |
| `ClientSession.Session.OnSent` | rfrp_client/src/run_proxy.rs:256-265 | a failed send removes exactly its key |
| `ClientSession.Session.OnCleanup` | rfrp_client/src/run_proxy.rs:388-422 | a read task's clean-up through the handle it captured, however long ago, removes exactly its key from the session's table, whoever filed it |
| `ClientSession.PlainAlways` | rfrp_client/src/run_proxy.rs:308-357 | for any events, a key being dialled is not filed, every entry is the latest channel opened for its key, and a channel in use is the one filed for its key if any is |
| `ClientSession.Forward` | rfrp_client/src/run_proxy.rs:150-296 | for any interleaving of frames, dial and send results and clean-ups the session with nested maps and cache shows the flat table's state and never meets a taken key |
| `Refinement.ServerTakes` | rfrp_server/src/run_proxy.rs:111-196 | the tunnel's server takes the decision of the plain session and reaches its next view |
| `Refinement.ServerRunIsPlain` | rfrp_server/src/run_proxy.rs:76-197 | in every run the server side of the tunnel is the plain session fed with that run's events |
| `Refinement.ClientSessionIsPlain` | rfrp_client/src/run_proxy.rs:150-296 | in every run, once registration is over, the client side of the tunnel is the plain loop started with the client's map of proxies and no connections, fed with that run's events |
| `Refinement.ClientRunIsPlain` | rfrp_client/src/run_proxy.rs:183-296 | from any state in which it forwards, in every continuation, the client side goes on as the plain loop |
| `Frames.InitConfig` | rfrp_config/src/config_info/base_types.rs:71-77 | the server entry and every client entry get a text that is their ip, a colon and digits that read as their port, and nothing else changes |
| `Frames.DecimalReads` | rfrp_config/src/config_info/base_types.rs:72-74 | the formatted number has digits only, no leading zero, and reads back as the number |
| `Frames.HeartbeatsRecognised` | rfrp_proto/src/frame_types.rs:39-62 | heartbeats are known by their command alone, the two kinds are never mistaken, and both survive the wire |
| `Flate.CompressInto` | rfrp_proto/src/compress.rs:6-29 | for every engine chunking and any earlier state of buffer and compressor the buffer ends as the compressed form; the loop terminates and never stalls |
| `Flate.DecompressInto` | rfrp_proto/src/compress.rs:31-65 | for every chunking it terminates; it succeeds exactly on a complete stream of at most 64 MiB and then yields that stream's output; a longer one is a bomb, a cut one a bomb or a stall; the buffer never exceeds the limit by more than 8192 bytes |
| `Crypto.NonceLayout` | rfrp_proto/src/crypto.rs:48-53 | a nonce is the 4-byte prefix followed by the counter, most significant byte first |
| `Crypto.BigEndianDigits` | rfrp_proto/src/crypto.rs:52 | byte i of the 8 is the low byte of the counter shifted right by 7 - i bytes |
| `Crypto.NoncesDistinct` | rfrp_proto/src/crypto.rs:49-53 | two encryptions of one cipher share a nonce exactly when their counters coincide modulo 2^64 |
| `Crypto.TrailersDistinct` | rfrp_proto/src/crypto.rs:48-79 | the nonces found in the trailers of two messages of one cipher differ before its counter wraps |
| `Crypto.OpenSealed` | rfrp_proto/src/crypto.rs:81-102 | the trailer split recovers exactly the appended nonce and tag, and the message opens to its plaintext |
| `Crypto.OpenedWasSealed` | rfrp_proto/src/crypto.rs:81-102 | whatever opens is a sealed message with its own nonce in the trailer |
| `Crypto.Cipher.EncryptInPlace` | rfrp_proto/src/crypto.rs:69-79 | the buffer ends as the pure sealed message for the current counter, which advances by one modulo 2^64 |
| `Crypto.Cipher.Encrypt` | rfrp_proto/src/crypto.rs:63-67 | the copying form yields the same message |
| `Crypto.Cipher.Decrypt` | rfrp_proto/src/crypto.rs:81-102 | decrypting a copy gives the pure verdict and plaintext for every byte string |
| `Crypto.Cipher.DecryptInPlace` | rfrp_proto/src/crypto.rs:104-148 | decrypting in place gives the same verdict and plaintext as the copying form for every byte string, and says what a failure leaves in the buffer |
| `Crypto.EncryptAll` | rfrp_proto/src/crypto.rs:48-61 | the k-th message of a fresh cipher is sealed under counter k |
| `Codec.RoundTrip` | rfrp_proto/src/frame_decode.rs:19-28 | decoding an encoded frame yields the frame with its address blanked if its serialised form is within 64 MiB, and a decompression error otherwise |
| `Codec.EncodedCarriesCounter` | rfrp_proto/src/crypto.rs:48-79 | the last 28 bytes of a frame's message begin with the cipher's prefix and then the counter it was made under, most significant byte first |
| `Codec.DecodesExactly` | rfrp_proto/src/frame_decode.rs:19-28 | whatever the bytes, they decode to a frame if and only if they were sealed under the key, hold a complete stream of at most 64 MiB and this reads as that frame |
| `Codec.ErrorsExactly` | rfrp_proto/src/frame_decode.rs:25-27 | each error has its one cause: nobody with the key sealed the message, short ones included; its stream is incomplete, corrupt or too long; its bytes are no frame |
| `Codec.WriteFrame` | rfrp_proto/src/frame_encode.rs:13-21 | however the serialiser cuts its writes, the buffer gains exactly the serialised frame |
| `Codec.EncodeEncrypted` | rfrp_proto/src/frame_encode.rs:37-52 | whatever went through buffer and compressor before, the output is the pure wire form, with the cipher's counter in its trailer, and the counter advances |
| `Codec.WriteTask` | rfrp_proto/src/coalesce.rs:28-40 | frames go out in queue order until the first failed send, message k with counter k in its trailer and no two with the same nonce |
| `Codec.DecodeEncrypted` | rfrp_proto/src/frame_decode.rs:19-28 | whatever went through buffer and decompressor before, the result is the pure decoding of the bytes |
| `Codec.DecodeAll` | rfrp_client/src/run_proxy.rs:204-216 | one decompressor and one buffer over any messages, good or bad, decode each as if alone |
| `Codec.SendAndReceive` | rfrp_proto/src/coalesce.rs:28-40 | what one session's write task sends before its first failed send, the peer decodes to the same frames, blanked, wherever they fit the limit |
| `CodedLink.BytesRefineFrames` | rfrp_proto/src/coalesce.rs:26-39 | the link of frames and the link of encrypted messages allow the same runs of queueing, sending, failing, cutting and reading; message k is the wire form of the k-th frame with counter k in its trailer, no two of the first 2^64 carry the same nonce, and what the peer decodes k-th is the frame the link delivers k-th, or a decompression error if it does not fit the limit |
| `CodedLink.Transport` | rfrp_proto/src/coalesce.rs:28-40 | the write task and the reader, run on the frames a link took from its queue, produce that link's messages and the frames it delivered |
| `TunnelBytes.TunnelOverBytes` | rfrp_proto/src/coalesce.rs:28-40 | in every run of the tunnel and for any keys, each main loop has read what decoding the peer's encrypted messages gives, message k being the k-th frame sent, with counter k in its trailer and a nonce of its own |
| `Handshake.KeyInputInjective` | rfrp_proto/src/crypto.rs:26-36 | two triples of token and nonces give the same hash input exactly when they are equal |
| `Handshake.KeyInputLayout` | rfrp_proto/src/crypto.rs:26-31 | what is hashed is the token, the 17 bytes rfrp-handshake-v1, the client's nonce and the server's nonce |
| `Handshake.Socket.ReadExact` | rfrp_proto/src/handshake.rs:17-24 | under every fragmentation it succeeds exactly if enough bytes come, and buffer plus remaining stream is the stream it began with |
| `Handshake.ServerHandshake` | rfrp_proto/src/handshake.rs:11-41 | a key exactly if 32 bytes come and 32 can be written; it is the hash of token, those bytes and its own nonce; nothing is written before the read, and the stream stands behind byte 32 |
| `Handshake.ClientHandshake` | rfrp_proto/src/handshake.rs:43-72 | the client's counterpart, which writes before it reads |
| `Handshake.Handshakes` | rfrp_proto/src/handshake.rs:11-72 | fed with each other's nonce and frames in any fragments, both succeed with one key and have exactly the frames left to read |
| `Handshake.StepInv` | rfrp_proto/src/handshake.rs:11-72 | every read, write, frame or failure of either side keeps what each stream consists of |
| `Handshake.Agreement` | rfrp_proto/src/handshake.rs:11-72 | in every run in which both sides finish they hold the same key for any hash, and each reader stands exactly where the peer's frames begin |
| `Handshake.HandshakeCompletes` | rfrp_proto/src/handshake.rs:11-72 | for any nonces some run finishes on both sides |
| `Handshake.OneSidedSuccess` | rfrp_proto/src/handshake.rs:26-40 | for any nonces some run gives the server a key while the client fails |
| `Keepalive.NeverExpires` | rfrp_server/src/run_proxy.rs:76-95 | if acknowledgement, jitter and ping delays stay below 60 seconds together the server never times out, and if jitter, ping and pong do the client never does |
| `Keepalive.AnyFrameResets` | rfrp_client/src/run_proxy.rs:182-202 | whatever the bounds, a side that handled any frame, a heartbeat or not, does not expire within the next 90 seconds |
| `Keepalive.SilenceExpires` | rfrp_server/src/run_proxy.rs:76-95 | a side that hears nothing for 90 seconds has expired |
| `Keepalive.ServerSlackIsNeeded` | rfrp_server/src/run_proxy.rs:32 | for all bounds without that slack some run lets the server's 90 seconds expire |
| `Keepalive.ClientSlackIsNeeded` | rfrp_client/src/run_proxy.rs:27-33 | for all bounds without its slack some run lets the client's 90 seconds expire |

## Left out

- AES-GCM, SHA-256, DEFLATE and MessagePack internals: library code, present as parameters with laws.
- The length-delimited codec and its frame size limit (rfrp_proto/src/lib.rs): a wire is a FIFO of frames.
- Liveness under backpressure: the main loops await full per-connection queues, so that something does happen depends on users and services reading; `Progress.NothingIsStuck` says only that it can.
- Release of resources at the end of a session: the code only aborts listeners and clears a map.
- Socket options, logging, command line, JSON loading, the reconnect delay, the server's client limit and configuration checks: small, without a property that spans operations.
- Quality of random numbers, and collisions between the two sides' nonce prefixes.
- Crypto.Cipher.DecryptInPlace: stands for both in-place forms, which differ only in the buffer type.
- Crypto.Cipher.EncryptInPlace: stands for both in-place forms, which differ only in the buffer type.
- Keepalive.NeverExpires: timing is a separate model of the forwarding phase, not combined with the tunnel's queues; the delay bounds are its parameters.
- Tunnel steps read and write whole values between two awaits; memory-ordering effects inside DashMap and the channels are not modelled.
