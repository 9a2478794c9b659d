# remotecmd-cli: a verified model of the relay, the file pipeline and the updater

remotecmd-cli runs commands and copies files on remote machines. Daemons on the targets and
clients connect to one relay, the hub, over WebSockets. This project models the parts of it
that hold state and proves what they promise.

* **The file pipeline.** `Senders` cuts a file into chunks and writes a header and a payload
  for each. The hub re-addresses them (`Forwarding`). `WriteQueue` and `RelayClients` are the
  asynchronous write queue of the target's connection, with its byte codec (`FrameCodec`), and
  `QueueReading` is what the other end can have read, also once a write has failed.
  `DaemonModel` and `TargetDaemons` are the daemon's table of live transfers, its one slot for
  the payload that comes next, and its files. `Reassembly`, `ParallelCopies`, `SpoiltTransfers`
  and `LegacyTransfers` say what comes out of the daemon, `EndToEnd` and `ParallelEndToEnd` what
  comes out of the whole way.
* **The hub.** `RelayModel` gives every handler as a function from its part of the tables to
  the new tables and what is sent; `RelayServers` has the handlers as methods that change the
  tables in place, proved equal to these functions, and `Serving` runs them from the start,
  which is a run of the hub. `Orders`, `Commands`, `Requests`, `RequestEnds`, `FanOut`,
  `LateResults`, `BatchValues`, `BatchReplies`, `Names`, `Tunnels`, `Pairing`, `Access` and
  `CleanUp` are about every run of the hub: any events of any connections, in any order. A handler is one step; the fan-out of a batch is two, because the
  code lets go of its lock before it stores the batch's counter, and so is the rejection of a
  peer, because its listener is taken out and put back under two locks. What is sent on a
  connection is logged together with the request, batch, listener or tunnel on whose behalf it
  is sent. The contract of a handler in `RelayServers` says that the method and its loops make
  of the tables what the function of `RelayModel` says, and the function mostly reads like the
  handler. Such rows are there for what stands on them: `Serving.Serve`, through which every
  theorem about runs holds of the server; `Orders`, `Commands`, `Requests` and `BatchReplies`,
  which say what is sent in terms of the messages that came in alone; and the loops of `CloseTunnels`, `Unregister`,
  `TimeOut` and `SendMultiResult`, whose functions take the whole table at once, and of
  `HandleExecuteMulti`.
* **Inputs.** `Scenes` and `EndScenes` put short runs together, for inputs on which a promise
  fails and for runs that meet all that a theorem asks for: `OneByteUpload`, `TwoStreams`,
  `OvertakenUpload`.
* **Smaller cores.** `PairRetry` is the daemon's pairing loop, `Versions` and `UpdatePlan` the
  choice of what to install and restart, `Install` the swap of a binary and its rollback over a
  file system every step of which may fail.

Code that changes state is modelled by classes and loops (`RelayClient`, `RelayServer`,
`TargetDaemon`, `FileSystem`, `Machine`, the senders); their contracts tie the new
state to functions, and the theorems are about those functions. Histories in the models (every
request issued, every tunnel opened, and so on) are never read by the code they describe.

Where the code does not keep a promise, the project says exactly when it does:

* a unit can overtake the queue (`OrderKeptIffNoOvertaking`: the order is kept if and only if
  none did; `OvertakingBreaksACopy` is a copy spoilt so), because any file result closes the
  daemon's queue, whatever else is under way, although relay_client.go:71-72 says that all
  chunks have been forwarded by then;
* a parallel stream that is announced after all earlier ones are done truncates the file
  (`AllInFileIffNoneLate`, with a run in `TwoStreamsAreCopied`): the file is the source if and
  only if every chunk that was lost so consists of zeros (`ParallelCopyDelivered`), and its
  clients are told that all went well (`EachStreamIsToldGood`). They are told so on every stream
  also if the destination cannot be created at all, because a parallel copy does not report it;
* a streaming sender equals the buffered one if and only if the announced size reaches into
  the last chunk (`StreamingRefinesBufferedIff`); a file that ends with a full chunk short of
  the announced size is never finished (`StreamedEndsFinalIff`), and neither is an empty one
  (`EmptyFileStalls`);
* a transfer whose chunks all come as base64 text is written in full and never answered, because
  only the header of a binary chunk tells it its id (`TextIsNeverAnswered`; its last chunk is
  answered under its id if and only if such a header came before: `TextAnsweredIff`);
* a result that comes before a batch's counter is stored closes the batch at once
  (`EarlyResultNamesAllIff`, with a run in `RaceLosesATarget`);
* a client is told twice about a transfer if and only if it was answered and one of its chunks
  cannot be forwarded when the request is no longer open: then the handler reports the chunk all
  the same (`EachRequestEndsOnce`, with a run in `ToldTwice`);
* the hub takes whoever speaks under a tunnel's id and is not its client for its daemon, whether
  or not it has the secret, although relay_tunnel.go:60-62 speaks of the other side: the client
  gets exactly what the daemon said if and only if nobody else spoke (`TunnelCarries`, with a run
  in `ThirdConnectionIsHeard`);
* the handler of a rejected peer puts its listener back over a newer one, and puts back one whose
  connection has ended: the newest listener of a code waits if and only if it is neither answered
  nor held, no older one was put back over it and its connection did not end
  (`NewestListenerWaitsIff`, with a run in `OlderListenerReturns`);
* a rollback loses the binary if and only if its rename succeeds, if there is anything to rename,
  and its copy fails (`RestartHelper`, with a run in `RollbackLosesTheBinary`);
* a second registration on one connection leaves the first name behind
  (`SecondRegistrationLeavesTheFirst`), and a connection that never registered is never
  cleaned up (`CleanedUpIff`);
* the pairing loop sends up to 352 times in 24 hours, not about 290 as the comment at
  daemon.go:438 says, and more than that if the code's file is dated 15 seconds or more in the
  future (`AtMost352Iff`);
* versions that do not parse are like all others, so that the order is a strict weak order on
  those that parse only (`StrictlyWeaklyOrderedIff`);
* a forced update moves a binary backwards if the release is older (`BackwardsOnlyByForce`).

Reading order: `Basics`, `Protocol`, `RelayQueue`, `QueueReading`, `Senders`, `Daemon`,
`Reassembly`, `SpoiltTransfers`, `LegacyTransfers`, `Parallel`, `Hub`, `RelayServer`, `Serving`,
`Requests`, `FanOut`, `LateResults`, `Names`, `Orders`, `Scenes`, `Tunnels`, `Pairing`, `Access`,
`Pipeline`, `Commands`, `BatchValues`, `BatchReplies`, `RequestEnds`, `EndToEnd`, `ParallelEnd`, `EndScenes`, `OneByteUpload`, `TwoStreams`, `OvertakenUpload`, `PairRetry`,
`Versions`, `UpdatePlan`, `Install`.

## Model

| member | source | states |
|---|---|---|
| `FrameCodec.DecodeEncode` | relay_client.go:34-57 | for all three tags the writer reads back the frame that was queued, if and only if a pair's header is shorter than 2^32 bytes |
| `FrameCodec.LengthRoundTrip` | relay_client.go:41-41 | the four big-endian bytes hold a length modulo 2^32 |
| `RelayClients.PackPair` | relay_client.go:144-153 | filling the buffer by index gives the encoding of header and payload |
| `RelayClients.PackTagged` | relay_client.go:96-100 | the buffer of a tagged frame is its encoding |
| `RelayClients.AsQueuedIs` | relay_client.go:40-57 | what the writer makes of a frame: the unit that was queued, or, for a header of 2^32 bytes or more, one cut elsewhere |
| `RelayClients.RelayClient.StartWriter` | relay_client.go:30-69 | the writer is started once: it never starts again after the queue was closed |
| `RelayClients.RelayClient.CloseWriter` | relay_client.go:73-81 | no more is queued, and what is queued stays to be written |
| `RelayClients.RelayClient.Send` | relay_client.go:83-87 | a synchronous send is a run of the queue machine in which the mutex is taken past the queue |
| `RelayClients.RelayClient.SendRawHeaderAndBinary` | relay_client.go:139-168 | a chunk is queued whole if the queue is open and has room, and reported as failed if the writer has stopped; if not it is written at once, header and payload under one lock; a header too long for its length field is queued as the writer will read it |
| `RelayClients.RelayClient.SendRawBytes` | relay_client.go:92-111 | the same for a binary frame |
| `RelayClients.RelayClient.SendRawJSON` | relay_client.go:115-134 | the same for a text frame |
| `RelayClients.RelayClient.DrainOne` | relay_client.go:34-65 | one turn of the writer is a run of the queue machine; a stopped writer throws the frame away |
| `RelayClients.RelayClient.Drain` | relay_client.go:33-67 | left alone, the writer empties the queue and, unless a write fails, the wire grows by exactly the queued units in order |
| `WriteQueue.AdjacentAlways` | relay_client.go:30-69 | in every interleaving of senders, writer, closing and failing writes the wire holds whole units in the order of the mutex, but for one cut short at the end |
| `WriteQueue.HeadersKeepTheirPayloads` | relay_client.go:136-168 | in every interleaving a chunk header on the wire is directly followed by its own payload, unless it is the very last message |
| `WriteQueue.InOrderWithoutOvertaking` | relay_client.go:139-157 | the units of a kind are written in the order of the calls if none of that kind overtook another |
| `WriteQueue.OrderKeptIffNoOvertaking` | relay_client.go:153-167 | that order is kept if and only if no sender went past the queue while a unit of the kind waited in it |
| `WriteQueue.DrainedQueueIsFirstInFirstOut` | relay_client.go:33-67 | once drained, the wire is exactly the calls in order, provided nothing overtook |
| `WriteQueue.SendIsARun` | relay_client.go:160-167 | a whole call, with its lock, writes and failures, is a run of the fine-grained machine |
| `WriteQueue.DrainIsARun` | relay_client.go:34-65 | so is a whole turn of the writer |
| `QueueReading.ReadInOrder` | relay_client.go:34-65 | whatever fails: what the other end has read of a kind is the start of what was handed over of it, in order, if none of that kind overtook another |
| `QueueReading.PipelineWasHanded` | relay_client.go:139-168 | nothing is written or waits that was not handed over, and no more of any kind than was |
| `QueueReading.FailedSendIsNotRead` | relay_client.go:160-167 | if a write failed in a call for a unit of a kind, the other end never reads all that was handed over of that kind |
| `QueueReading.QueuedTooLateIsNotRead` | relay_client.go:153-157 | the same if a call queued its unit when the writer had stopped, and so reported its error |
| `Chunking.ChunksAreCounted` | filetransfer_chunk.go:161-166 | there are as many chunks as announced, one for an empty payload |
| `Chunking.ChunksJoin` | filetransfer_chunk.go:168-184 | the chunks concatenate to the payload |
| `Chunking.ChunkAt` | filetransfer_chunk.go:168-184 | where each chunk lies in the payload; all but the last are full |
| `Chunking.ChunkData` | filetransfer_chunk.go:171-184 | the loop gives these chunks |
| `Chunking.OneStreamPerChunk` | filetransfer_stream.go:88-89 | each chunk index is sent by exactly one stream, the one with its remainder |
| `Chunking.StripeAscends` | filetransfer_stream.go:88-100 | a stream sends ascending indexes, and exactly its last one is the one after which no index of its own is left |
| `Chunking.StreamsAllFinishIff` | filetransfer_stream.go:88-100 | every stream has a chunk, and so a final one, if and only if there are at least as many chunks as streams |
| `Chunking.ChooseStreams` | filetransfer.go:140-164 | the number of streams by setting or size; the automatic choice never exceeds the number of chunks |
| `Chunking.AutoStreamsAllFinish` | filetransfer.go:150-160 | the choice by size never exceeds the number of 2 MiB chunks |
| `Senders.SendFileFramesWithSize` | filetransfer_stream.go:295-365 | writes the announcement and every chunk's header and payload, up to the first write that fails |
| `Senders.SendFileStreaming` | filetransfer_stream.go:181-283 | writes the same for the chunks that it reads, for every announced size; if a write fails it says how many bytes and chunks were sent in whole |
| `Senders.SendStream` | filetransfer_stream.go:84-132 | a parallel stream writes the chunks of its stripe up to the first write that fails and the first chunk behind the end of the file; it succeeds if and only if it meets neither |
| `Senders.SucceedsIff` | filetransfer_stream.go:321-364 | a sender that wrote its script up to the first failing write reports success if and only if none of its writes fails, which is if and only if all of it is on the wire |
| `Senders.InFileIff` | filetransfer_stream.go:89-98 | no chunk of a stream's stripe is empty when it is read if and only if each starts before the end of the file |
| `Senders.StreamingRefinesBufferedIff` | filetransfer_stream.go:196-262 | for all contents, sizes and chunk sizes: both senders send the same if and only if the announced size reaches into the last chunk and not past a full one |
| `Senders.StreamingRefinesBuffered` | filetransfer_stream.go:181-365 | a file that keeps its size is sent alike by both, empty files and exact multiples included |
| `Senders.StreamedEndsFinalIff` | filetransfer_stream.go:196-262 | for all contents, sizes and chunk sizes: only the last header can be final, and it is, unless the file ends with a full chunk short of the announced size; then no header is |
| `Senders.ShrunkFileNeverFinishes` | filetransfer_stream.go:196-262 | such a file: one byte left of two is sent without any final chunk |
| `Senders.BufferedItemsAreThePayload` | filetransfer_stream.go:295-365 | as many headers as announced, only the last one final, and the payloads concatenate to the file |
| `Senders.StripeItemsAre` | filetransfer_stream.go:84-132 | a stream sends the chunks that a sequential sender sends under the same indexes |
| `TargetDaemons.TargetDaemon.BeginChunkedTransfer` | daemon_filetransfer.go:91-145 | the table, the open files and the disk after an announcement, for sequential and parallel transfers |
| `TargetDaemons.TargetDaemon.FindSharedFile` | daemon_filetransfer.go:106-118 | the walk over the table finds the file that a live stream of the same destination has open |
| `TargetDaemons.TargetDaemon.HandleHeader` | daemon_filetransfer.go:147-163 | a chunk's header fills the slot with its transfer, or is answered with an error |
| `TargetDaemons.TargetDaemon.HandleLegacy` | daemon_filetransfer.go:165-184 | a base64 chunk is stored, and reported under the id that binary headers set |
| `TargetDaemons.TargetDaemon.HandleBinaryChunk` | daemon_filetransfer.go:186-221 | a payload goes, unpacked, to the transfer in the slot, which is emptied |
| `TargetDaemons.TargetDaemon.WriteChunkData` | daemon_filetransfer.go:226-257 | a chunk goes into the file at its offset, or into the buffer |
| `TargetDaemons.TargetDaemon.FinishReassembly` | daemon_filetransfer.go:267-299 | how each kind of transfer ends and what is answered |
| `TargetDaemons.TargetDaemon.Dispatch` | daemon.go:144-243 | one frame of the read loop changes the daemon as its specification says |
| `DaemonModel.ReceiveKeepsWf` | daemon_filetransfer.go:91-307 | every frame keeps the table, the slot and the open files consistent; live streams of one destination share one file |
| `Reassembly.ForeignUnit` | daemon_filetransfer.go:91-307 | frames of transfers to other destinations leave a transfer's entry, answers and destination alone |
| `Reassembly.TransferDelivered` | daemon_filetransfer.go:91-299 | for every interleaving: nothing is answered before all chunks have come, then one answer, good exactly if the destination can be created, and the file holds exactly the bytes sent |
| `SpoiltTransfers.SpoiltTransferFails` | daemon_filetransfer.go:199-216 | for every interleaving: if a chunk cannot be unpacked nothing is answered before it, it and each chunk behind it are answered with an error, never well, and what came before it stays in the file |
| `SpoiltTransfers.UnknownModeFails` | daemon_filetransfer.go:309-327 | a transfer in any other mode ends with an error, and nothing is written |
| `LegacyTransfers.TextIsNeverAnswered` | daemon_filetransfer.go:165-184 | for every interleaving: a transfer that comes as base64 text alone gets no answer under its id, though its destination holds exactly its bytes; the report goes out under the empty id and the transfer stays in the table |
| `LegacyTransfers.TextAnsweredIff` | daemon_filetransfer.go:157-184 | the last base64 chunk of a transfer is answered under its id if and only if a binary chunk of it has come before |
| `LegacyTransfers.BadTextIsRefused` | daemon_filetransfer.go:148-175 | text that cannot be decoded ends its transfer with an error; a chunk of an unknown transfer is answered with one; neither touches a file or another transfer |
| `ParallelCopies.WriteOverlays` | daemon_filetransfer.go:226-245 | a write at index times chunk size changes that chunk of the file and nothing else |
| `ParallelCopies.IndexesDiffer` | filetransfer_stream.go:88-89 | no two chunks of a copy have the same place |
| `ParallelCopies.AllInFileIffNoneLate` | daemon_filetransfer.go:106-130 | every delivered chunk is in the file if and only if no stream was announced after all those before it were done |
| `ParallelCopies.InFileIffNotLost` | daemon_filetransfer.go:106-130 | a delivered chunk is in the file if and only if it did not come before a stream that was announced when all before it were done |
| `ParallelCopies.ParallelCopyDelivered` | daemon_filetransfer.go:106-145 | for every interleaving of all streams, each gets one good answer, and the file equals the source if and only if each chunk that was written before a stream came late consists of zeros; so it does if none came late |
| `RelayModel.NextAbout` | relay.go:290-344 | what a step adds to what was sent on someone's behalf; each part of the hub sends only for its own |
| `RelayServers.RelayServer.HandleRegister` | relay_handler.go:23-64 | the names table, the connection and the replies after a registration, refused, replacing or new |
| `RelayServers.RelayServer.HandleExecute` | relay_handler.go:67-107 | a request that is forwarded is in the table, and one that cannot be is taken out and answered; what is sent is in `Orders.ForwardedOrRefused` and `Commands.CommandGoesOutAndBack` |
| `RelayServers.RelayServer.HandleFileTransfer` | relay_handler.go:111-165 | the same, with a route for the chunks |
| `RelayServers.RelayServer.HandleFileChunk` | relay_handler.go:170-217 | a chunk is dropped, forwarded as one unit, or ends its transfer |
| `RelayServers.RelayServer.HandleOldFileChunk` | relay_handler.go:218-238 | the same for base64 chunks |
| `RelayServers.RelayServer.HandleStreamChunk` | relay_handler.go:242-251 | streamed output goes to the client under its own id |
| `RelayServers.RelayServer.HandleEnd` | relay_handler.go:255-335 | stream_end, result and file_transfer_result close the request and go to its client, as `Requests.RequestConserved` says |
| `RelayServers.RelayServer.HandleSubResult` | relay_handler.go:272-300 | a sub-result counts its batch down and closes it at zero; what the reply then says is in `BatchReplies.ReplySaysWhatCame` |
| `RelayServers.RelayServer.SendMultiResult` | relay.go:348-364 | the reply has the results of the batch's targets |
| `RelayServers.RelayServer.HandleExecuteMulti` | relay_multi.go:10-88 | the loop's results, subs and forwards for every target |
| `RelayServers.RelayServer.ArmBatch` | relay_multi.go:90-100 | the count is stored, or the batch answered at once |
| `RelayServers.RelayServer.TimeOut` | relay_multi.go:100-126 | the timer closes the batch, deletes its subs and fills in what is missing |
| `RelayServers.RelayServer.HandlePairListen` | relay_handler.go:339-351 | a listener is tabled |
| `RelayServers.RelayServer.HandlePair` | relay_handler.go:355-394 | a listener is consumed and answered; one whose key check fails is left in the hand of the handler, under no code |
| `RelayServers.RelayServer.PutBackListener` | relay_handler.go:376-380 | that handler tables it again, over whatever stands under its code by then |
| `RelayServers.RelayServer.HandleDisconnect` | relay_handler.go:398-421 | a disconnect is forwarded and confirmed |
| `RelayServers.RelayServer.HandleTunnelOpen` | relay_tunnel.go:17-58 | a session is tabled and forwarded, and taken out if that fails |
| `RelayServers.RelayServer.HandleTunnelRelay` | relay_tunnel.go:63-81 | data goes to the daemon if the client sent it, and to the client if anyone else did |
| `RelayServers.RelayServer.HandleTunnelClose` | relay_tunnel.go:84-105 | the session is removed and the other end told |
| `RelayServers.RelayServer.CloseTunnels` | relay.go:386-401 | the loop that deletes from the map it walks removes exactly the connection's tunnels and tells each other end once, in whatever order |
| `RelayServers.RelayServer.Unregister` | relay.go:366-411 | the loops give exactly the tables without the connection |
| `RelayServers.RelayServer.Ended` | relay.go:241-245 | only a connection that registered is unregistered |
| `RelayServers.RelayServer.End` | relay.go:241-245 | the end of a connection is one step of the hub |
| `RelayServers.RelayServer.Dispatch` | relay.go:280-345 | the read loop's dispatch, with the gate for connections without the secret |
| `Serving.SoundStep` | relay.go:280-345 | every step keeps what the handlers rely on: names are held, and chunks routed, for connections that were made, and no id stands for two things |
| `Serving.Happen` | relay.go:170-345 | whatever a goroutine meets, what the server's methods make of its tables is one step of the hub |
| `Serving.Serve` | relay.go:170-345 | from its start, through any calls in any order, the server goes through a run of the hub, so that all that holds in every run holds of it |
| `CleanUp.UnregisterIsExact` | relay.go:366-411 | no request, listener or tunnel mentions the connection any more, its name is free if it was its own, all other entries are untouched, and each severed tunnel's other end got exactly one close |
| `CleanUp.CleanedUpIff` | relay.go:241-245 | after the end of a connection no request, listener or tunnel mentions it if and only if it had registered or none did before |
| `Access.OrdersNeedTheToken` | relay_handler.go:67-127 | a step sends a command, a transfer, a disconnect or a tunnel only for a connection that may act as a client, only to the holder of the name asked for, and only with that holder's token |
| `Access.ChunksFollowTheirAnnouncement` | relay_handler.go:170-238 | in every run a chunk is sent only by the connection that announced its transfer, and only to the target it was announced to |
| `Orders.ForwardedOrRefused` | relay_handler.go:67-165 | an execute, a transfer, a disconnect or a tunnel is passed on, as it is but for its id, to who holds the name, if and only if its sender may act as a client and has the token; its sender is told of a failure, under its own id, if and only if that is so or the forward fails, and of success only for a disconnect that was forwarded |
| `Orders.ChunkForwardedOrRefused` | relay_handler.go:170-238 | a chunk with a route is passed on with its payload, as it is but for its id; its sender is told of a failure if and only if the forward or the read of the payload fails |
| `Orders.PeerIsAnswered` | relay_handler.go:355-394 | a peer is confirmed if and only if its code is waited for and its key is right, after the listener has been given its token and name; one with a wrong key is refused and nobody else told; one with an unknown code is not answered |
| `Orders.RegistrationIsAnswered` | relay_handler.go:23-64 | a registration is confirmed if and only if it is accepted, after the one that loses the name has been told |
| `Orders.BatchIsFannedOutOrRefused` | relay_multi.go:10-30 | a batch sends nothing but commands, or its sender is told under its id that it was not taken |
| `Orders.OffendersAreCutOff` | relay.go:280-290 | in every run a connection that acts as a client though it may not, or asks for a name that it may not have, is told so and never heard again; any other stays up |
| `Requests.IdsAlwaysOwn` | relay_handler.go:67-165 | in every run open requests are as they were issued, no id stands for two things, and chunks are routed for transfers only |
| `Commands.CommandGoesOutAndBack` | relay_handler.go:67-107 | in every run the target of an accepted command is sent just this command, once and under an id that is no other message's; its client is told what comes in under that id, as it came, under its own, or one failure if the forward failed; of a transfer the target is sent the announcement first |
| `Requests.TracksAlways` | relay_handler.go:242-335 | in every run what a client got is what came in under its request's id, up to the first message that ends it: each piece of output and the outcome as they came, under the client's own id |
| `Requests.RequestConserved` | relay_handler.go:67-107 | in every run a forwarded request is open, answered or lost; its client alone gets its stream chunks in order and then at most one answer, with the text and the outcome that came in |
| `Requests.CommandsAreLostByTheirClient` | relay.go:374-378 | a command's request is lost only by the end of the connection that made it |
| `RequestEnds.EachRequestEndsOnce` | relay_handler.go:170-238 | in every run a client is told at most once that a chunk failed; a request is lost because its client was told so or because its connection ended; it is told twice, by an answer and such an error, if and only if it was answered and at some step one of its chunks failed, by its forward or the read of its payload, when the request was no longer open |
| `RequestEnds.ToldTwice` | relay_handler.go:202-214 | a run in which a client is told twice |
| `FanOut.LoopIs` | relay_multi.go:39-88 | after the loop every target is in the results or has a live sub, and the handler's count is the live subs plus the failed forwards |
| `FanOut.BatchesAlwaysOk` | relay_multi.go:28-126 | in every run, with counter and timer as separate steps, the accounting holds for every batch |
| `FanOut.AnsweredOnceAndAccounted` | relay_multi.go:88-126 | each batch gets at most one reply, and while it is open its counter is the number of live subs and failed forwards, and its timer runs |
| `BatchReplies.TargetsAreSent` | relay_multi.go:39-88 | in every run each target that is connected and whose token the sender has is sent the batch's command, once, under the id handed out for it; no other target is sent anything |
| `BatchReplies.CountsIff` | relay_handler.go:272-290 | the results that a batch takes are those that come in under an id handed out for one of its targets, with the command forwarded, as the first under that id and before the reply |
| `BatchReplies.ReplySaysWhatCame` | relay.go:348-364 | in every run the one reply to a batch says of each name what the last such result for it said, as it came, whether the last result or the timer closed the batch; and if none came, that it failed, with the reason: not connected, wrong token, forward failed, or timed out |
| `LateResults.AlwaysSubOf` | relay_multi.go:61-66 | in every run an id that was handed out for a batch's target is no request's and no other batch's, for ever |
| `LateResults.SubResultsSendOnlyTheReply` | relay_handler.go:272-311 | in every run a message under such an id touches no request, and sends something if and only if it is the result that closes its batch; then that is the batch's one reply |
| `LateResults.LateResultsAreSilent` | relay_handler.go:276-311 | in every run, once a batch is closed no message under any of its ids adds anything to what is sent |
| `LateResults.SilentAfterTheTimeOut` | relay_multi.go:100-126 | so in every run from the moment its timer has fired: the batch is closed by then, whether by the timer or before it |
| `FanOut.AtomicFanOutNamesAllTargets` | relay_multi.go:28-126 | with fan-out as one step the reply names exactly the targets, by the last result or by the timer, and no sub refers to a closed batch |
| `FanOut.EarlyResultNamesAllIff` | relay_multi.go:88-90 | a result before the count is stored closes the batch; the reply names all targets if and only if no other was outstanding |
| `FanOut.RaceLosesATarget` | relay_multi.go:88-90 | a run in which the reply names one target of two |
| `Names.NamesFollowTheLog` | relay_handler.go:38-60 | in every run a name is held by the latest connection to register it, unless that ended with it as its last name |
| `Names.HeldByTheLatestIfItIsThere` | relay.go:370-372 | under one name for each connection: exactly as long as that connection is there; the end of a replaced one changes nothing |
| `Names.SecondRegistrationLeavesTheFirst` | relay_handler.go:57-59 | a run after which a name stands for a connection that has ended |
| `Names.TokenChangesIff` | relay_handler.go:39-59 | a held name's token changes exactly when its holder registers another name with another token |
| `Names.TokenIsKept` | relay_handler.go:39-48 | under one name for each connection it never changes |
| `Tunnels.CarriesAlways` | relay_tunnel.go:17-105 | in every run what was sent for a tunnel is its opening and what anyone said under its id while it was open |
| `Tunnels.TunnelCarries` | relay_tunnel.go:17-105 | the daemon gets exactly, in order, what the client said between open and close, and there is at most one close; the client gets exactly what the daemon said, and one of the two has closed, if and only if no third connection spoke under the id |
| `Tunnels.ThirdConnectionIsHeard` | relay_tunnel.go:71-80 | a run in which a connection that is neither end is passed on to the client |
| `Pairing.NewestListenerWaits` | relay_handler.go:339-394 | if every rejected listener is put back before anything else is done: in every run a code's table entry is its newest listener, exactly until that is answered or cut off |
| `Pairing.PairDonesAnswerListens` | relay_handler.go:384-389 | pair_done messages inject into the pair_listen messages of their code |
| `Pairing.EachListenerIsSomewhere` | relay_handler.go:339-394 | in every run, with a rejection as two steps, each pair_listen is in exactly one of four places: it waits, it is held by the handler of a rejected peer, it was answered, or it was dropped from the table by a newer one, by an older one put back, or with its connection |
| `Pairing.NewestListenerWaitsIff` | relay_handler.go:360-382 | in every run a code's newest listener waits if and only if it is neither answered nor held, and while it waited no older one was put back over it and its connection did not end |
| `Pairing.OlderListenerReturns` | relay_handler.go:370-381 | a run in which an older listener is put back over a newer one |
| `Pairing.ValidPeerPairs` | relay_handler.go:360-394 | in every run a peer that is not rejected answers the listener that waits for its code, which has not been answered before, with its one pair_done, which has the peer's token and name; and the peer is told so |
| `Forwarding.UploadIsForwardedInOrder` | relay_handler.go:111-238 | in every run a target gets under an upload's request exactly the first messages of its client, re-addressed and in order, all of them unless a forward failed |
| `Forwarding.BrokenStops` | relay_handler.go:195-202 | once the client's connection has broken behind a header, the upload has no route and what was passed on stops short of what had come |
| `EndToEnd.ScriptIsRead` | relay_handler.go:170-217 | the hub reads a sender's frames as one message for each chunk with its own payload, if no chunk is empty |
| `EndToEnd.EmptyFileStalls` | filetransfer_stream.go:211-226 | of an empty file only the announcement gets through |
| `EndToEnd.OwnRead` | relay_client.go:139-168 | what the daemon has read of an upload is the start of its plan, in order: all that was forwarded once it has read everything, and not all if a call for it failed |
| `EndToEnd.ReadInTurn` | relay_client.go:139-168 | an upload's units come to the daemon in turn among all others, also on a connection that fails |
| `EndToEnd.UploadArrives` | daemon_filetransfer.go:91-299 | from hub run, queue run and daemon, while no other transfer has the destination: nothing is answered before all has come, then one answer is sent and the destination holds exactly the bytes; wherever the connection fails |
| `EndToEnd.ClientIsToldTheTruth` | relay_handler.go:170-335 | by the answer and by errors for chunks together the client is told at most one thing, under its own id, also when its connection breaks between a header and its payload; it is told OK only if its file is there, byte for byte, and not OK only if a forward or the read of a payload failed or the destination cannot be created |
| `EndToEnd.CompleteUploadIsReported` | relay_handler.go:318-335 | a complete upload that was read and whose answer has come back has been reported exactly once |
| `EndToEnd.FileIsAnUpload` | filetransfer_stream.go:295-365 | a file that is not empty is an upload of that kind, and what is delivered are its bytes |
| `ParallelEndToEnd.CopyReadInTurn` | relay_client.go:139-168 | each stream's units come to the daemon in that stream's order, all other units being foreign to the copy |
| `ParallelEndToEnd.ParallelUploadArrives` | daemon_filetransfer.go:106-145 | from hub run, queue run and daemon: each stream of a whole parallel copy is answered well, and the destination holds the source if and only if every chunk lost to a late stream consists of zeros |
| `ParallelEndToEnd.EachStreamIsToldGood` | relay_handler.go:318-335 | each stream's client is then told exactly once that all is well, also when a late stream has spoilt the file |
| `OneByteUpload.OneByteIsCopied` | relay_handler.go:111-335 | a run in which a file of one byte meets, as listed, every hypothesis of the end-to-end theorems, and its client is told OK once |
| `TwoStreams.TwoStreamsAreCopied` | filetransfer_stream.go:84-132 | two runs of a two-stream copy that meet every hypothesis, with the second stream on time and late: the file is the source exactly in the first, and both clients are told OK in both |
| `OvertakenUpload.OvertakingBreaksACopy` | relay_handler.go:318-335 | a run in which one upload's result closes the queue and another's last chunk overtakes its first: its client is told OK, and the file holds the last chunk only |
| `PairRetry.PairRetryLoop` | daemon.go:439-477 | for all delays the loop ends and sends no more often than undisturbed, and as often without delays |
| `PairRetry.LaterIsFewer` | daemon.go:459-468 | being later never makes it send more |
| `PairRetry.AtMost352Iff` | daemon.go:427-477 | at most 352 sends if and only if the code is not dated 15 seconds or more ahead; the bound is reached |
| `Versions.VersionNumbers` | daemonversion.go:46-61 | the loop reads up to three numbers, or fails |
| `Versions.VersionLess` | daemonversion.go:67-78 | the comparison is the order by numbers, then prerelease before release |
| `Versions.StrictWeakOrder` | daemonversion.go:63-78 | a strict weak order on versions that parse, as in section 11 of Semantic Versioning 2.0.0, with prerelease identifiers not compared |
| `Versions.StrictlyWeaklyOrderedIff` | daemonversion.go:63-78 | any set of strings is strictly weakly ordered if and only if all of them parse or none is less than another |
| `Versions.UnparseableIsLikeEverything` | daemonversion.go:69-71 | three strings that are not |
| `Versions.WrittenIsRead` | daemonversion.go:44-61 | three numbers written with dots, a v or not before and a suffix or not behind, are read back |
| `Versions.WrittenAreOrdered` | daemonversion.go:63-85 | written versions are ordered by their three numbers in turn, then prerelease before release; build metadata makes no difference |
| `UpdatePlan.GroupByExe` | procupdate.go:315-324 | the groups are the processes of each binary, each binary once |
| `UpdatePlan.GatheringPermutes` | procupdate.go:315-324 | the groups together are a permutation of the processes |
| `UpdatePlan.Machine.ProcUpdate` | procupdate.go:338-387 | a check changes nothing and reports work exactly if a real run does something; a real run does the plan, binary by binary, up to the first install that fails, and is well exactly if all its restarts are |
| `UpdatePlan.PlanDone` | procupdate.go:338-372 | what the actions of a run, done in order, make of each process: once restarted it runs what was installed before |
| `UpdatePlan.NothingToDoIff` | procupdate.go:340-353 | there is nothing to do if and only if no process runs, or the run is not forced and each binary is not older than the release and is what its processes run |
| `UpdatePlan.SecondRunIsEmptyIff` | procupdate.go:338-372 | after a whole run a second, not forced, has nothing to do if and only if each process whose restart failed runs what is on disk all the same |
| `UpdatePlan.StoppedRunIsResumed` | procupdate.go:357-363 | a run that gave up at an install is taken up by the next exactly where it stopped |
| `UpdatePlan.BackwardsOnlyByForce` | procupdate.go:340-344 | however far a run comes, a binary moves backwards if and only if the run is forced, comes to it and installs an older release |
| `UpdatePlan.ProcessBackwardsIff` | procupdate.go:346-350 | a process moves backwards if and only if it is restarted and ran something later than what is then on disk |
| `Install.FetchChecksums` | update.go:203-211 | the loop's map has, for each name, what the last line about it says |
| `Install.EntryIff` | update.go:203-211 | for all lines and names: the entry of a name is the hash, in lower case, on the last line with two fields whose second is the name, with or without a star; there is none if and only if there is no such line |
| `Install.WrittenLinesAreRead` | update.go:204-210 | a line as sha256sum writes it, for text or binary files, gives the entry of its name and leaves all others alone, and a line without two fields leaves all alone |
| `Install.VerifyChecksum` | update.go:219-243 | a file that can be read is accepted if and only if its hash is the asset's entry and a whole digest |
| `Install.CopyFile` | update.go:422-447 | the destination is the whole copy or what it was, whatever fails |
| `Install.InstallRelease` | update.go:367-419 | it succeeds if and only if the download is written, can be read, matches the release's digest and runs, and both steps of the backup and the swap go well; the path always names the old bytes or bytes with that digest; an error leaves the old ones, success the new ones with the old in the backup |
| `Install.RestartHelper` | restarthelper.go:78-100 | a failed start restores the backup if and only if the rename of the failed binary and the copy both succeed, and leaves nothing under the path if and only if the rename succeeds and the copy fails, and what was there if the rename fails |
| `Install.RollbackLosesTheBinary` | restarthelper.go:78-100 | a file system on which the rollback leaves no binary |
| `Install.UpdateAndRestart` | restarthelper.go:78-100 | install, failed start and rollback restore the original bytes; with every step going well the path has the new bytes if and only if they match, run and come up |

## Left out

- RelayServers.RelayServer.HandleSubResult: a pointer to a connection is its number, and an entry of multiPending a value in the map; the handler that writes to an entry after it left the map is modelled by the map alone.
- RelayServers.RelayServer.HandleExecute: that the request is tabled before it is forwarded, which the method does but its contract does not say; and the text after "failed to forward command: ", the write error's; the same goes for the other failed forwards. Error texts are pinned only where they are the reason in a batch's reply.
- RelayServers.RelayServer.HandleFileTransfer: starting the target's writer is a step of the queue machine.
- RelayServers.RelayServer.HandleEnd: closing the daemon's write queue after a file result is a step of the queue machine, which may close the queue at any time.
- TargetDaemons.TargetDaemon.BeginChunkedTransfer: fileReassembly keeps its fields as one record, and the file is opened before the record is made.
- TargetDaemons.TargetDaemon.WriteChunkData: a write to an open file succeeds; errors of the disk in the middle of a transfer, after which the code buffers and still reports success, are not modelled.
- TargetDaemons.TargetDaemon.FinishReassembly: unpacking a tar archive is one write of the destination; entries inside it are not modelled.
- TargetDaemons.TargetDaemon.Dispatch: a file_transfer that is not chunked changes nothing in the model; in the code it writes its destination, so the theorems take no such message to a transfer's destination to be foreign to it.
- RelayServers.RelayServer.Unregister: closing the connection's own write queue.
- EndToEnd.ClientIsToldTheTruth: the report of a call that queues its unit is taken to be about the writer as it is then; in the code the writer may stop between the two.
- UpdatePlan.Machine.ProcUpdate: a restart that succeeds is at once; an installed release reports its own tag.
- Senders.SendFileStreaming: errors of reading the file are not modelled, nor is waiting for the result after the last chunk.
- Senders.SendStream: the same, and errors of opening the file and of seeking in it.
- Install.InstallRelease: the branch for Windows, which moves the running binary aside first, and finding the asset for the platform.
- RelayClients.RelayClient.Drain: the writer's goroutine reads the queue's field without a lock when it starts to range over it; if closeWriter has set the field to nil by then, it would wait for ever and what is queued be lost. The model's writer has the queue from its start, and drains it.
- RelayClients.RelayClient.SendRawHeaderAndBinary: sending on a channel that is closed at the same moment.
- WebSocket, TCP, HTTP and TLS, pings and deadlines: connections are ordered channels whose writes may fail.
- gzip, tar, base64 and JSON: opaque; unpacking undoes packing. `marshalWithinLimit` is not modelled.
- The width of integers: counts and offsets are unbounded.
- The unlocked write to subToMulti during the fan-out, as a data race.
- `lastBinaryRoute`: nothing sets it, so binary frames outside a chunk are dropped.
- Running commands, signals, process scans, services: calls into the system.
- The file_transfer that is not chunked: one message, handled by its own goroutine.
- The daemon's reconnection in run(), which starts with a new connection and an empty table.
- Tunnels through tunnel.go and tunnel_daemon.go: only the hub's session is modelled.
- The command line, help, configuration, health tables, MCP and feedback: easy members or input and output.
