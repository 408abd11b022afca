# Streams, limits and bridges: a Dafny model

The project models five parts of the service kit and proves what they promise about whole
streams and whole runs.

* **Event streams** (HTML Standard, sections 9.2.5 and 9.2.6). Two Go printers, a Go pull parser
  and a TypeScript push parser. `SsePrinter`, `SseReader` and `SseParser` hold the classes, each
  method proved against a function; `SseStream` says without loops what repeated reads return;
  `SseGrammar` says, by the grammar of the standard, what each parser makes of every stream;
  `SseChunks`, `SseAgreement`, `SseGoRoundTrip`, `SseTsRoundTrip` and `SseStreamEvents` hold the
  other theorems.
* **Resumption** (HTML Standard, section 9.2.4). `EventStore` and `SseClient` model the two ends,
  `Resumption` the protocol between them, byte by byte: a publisher, the printed stream, a
  connection that may break after any byte, the push parser, a client that comes back with its
  last event id.
* **Limiters.** `RateLimiter` (token buckets whose idle entries are evicted and come back full)
  and `ConnLimiter` (add, check, undo on one counter, any number of threads).
* **gRPC over WebSocket.** `GrpcBridge` interleaves the forwarder goroutine with the event loop
  over one queue, `Envelope` models the envelope and the TypeScript client, `EndToEnd` puts them
  together, and `WsLoop` is the timed event loop around a connection.
* **LSP framing** (LSP 3.17, Base Protocol, Header Part). `LspFraming`, and `LspHeaders` for the
  header part by its grammar.

`Text` and `Decimal` hold the shared facts: first index, split and join, print and parse of
decimals.

State that the source updates in place is a class, and each method says its whole new state in
terms of a function of the old one. Where threads interleave, the model is a machine of atomic
steps with a theorem over every run, and the class beside it shows that each method, run without
interruption, is a run of those steps. What the theorems say has happened in a run is read off
the steps themselves, not off records that the machine keeps. Every lemma carries `{:induction false}`: a proof says
itself where it uses induction.

## What the proofs show about the code

* A round trip holds *if and only if* every printed text can be carried by a line. For the Go
  reader that means: no LF in event, id or comment, no CR at the end of a field or data line, no
  NUL in an id (`RoundTripExactly`). For the push parser, no CR at all and
  no LF outside the data (`ArriveExactly`).
* The push parser strips a byte order mark only if it lies wholly inside the first chunk. That is
  the one way in which chunking can be observed (`ChunkInvarianceExactly`).
* A reset that consumes leftover text differs from a final line feed exactly when the leftover
  ends in a CR that shows: in a comment, a retry, an unknown or a colonless line
  (`ConsumeIsALineEnd`).
* The two parsers see the same lines if and only if every CR belongs to a CRLF
  (`LinesAgreeExactly`). They then dispatch the same messages if and only if no event with data
  has a good id followed, as its last id line, by one with a NUL (`TwoParsersAgree`): there the
  pull reader keeps the earlier id. `LoneCrDisagrees` and `NulIdDisagrees` give such streams. The
  comments of `ReadEvent` quote the standard on lone CRs; the code does not end lines there, and
  the model follows the code.
* Cut after any byte, a stream gives the pull reader the messages that arrived whole and then,
  with the error, what the remaining lines of the next one say. No line is missing or cut short
  there exactly when at most the two line feeds at the message's end are lost (`CutConnection`,
  `PartialExactly`).
* Deleting idle rate limiter entries cannot be observed if `PerKeyPerSec * KeyLimiterTTL >=
  PerKeyBurst` or nothing is ever swept, and for a limiter without a global rate only then: the
  run that tells the difference sweeps at the ticks of the cleanup (`UnobservableExactly`).
* A positive global rate below one a second rejects every request, because the bucket holds the
  whole part of the rate (`FractionalRate`).
* `ReadFrame` reports a plain `io.EOF` also when the stream ends inside a header, although its
  comment reserves that for an empty reader; with bytes left over, exactly then (`EofExactly`).

## Model

| member | source | states |
|---|---|---|
| SseParser.SplitLines | clients/typescript/src/sse-parser.ts:206-243 | CR, LF and CRLF each end a line; what may still grow, including a CR at the very end, is left over |
| SseParser.LinesOfConcat | clients/typescript/src/sse-parser.ts:206-243 | cutting a text anywhere, even between CR and LF, and carrying the leftover in front of the rest gives the same lines |
| SseParser.EventSourceParser.Feed | clients/typescript/src/sse-parser.ts:100-110 | a chunk changes the closure's variables and makes the callbacks that its complete lines say |
| SseParser.EventSourceParser.ParseLine | clients/typescript/src/sse-parser.ts:112-135 | a blank line dispatches, a colon line is a comment, any other is a field up to its first colon; what that is, for every line the grammar allows, is said by `SseGrammar.LineReads` |
| SseParser.EventSourceParser.ProcessField | clients/typescript/src/sse-parser.ts:137-170 | the last event and id win, data lines pile up, a NUL clears the id, a bad retry or unknown field is an error |
| SseParser.EventSourceParser.DispatchEvent | clients/typescript/src/sse-parser.ts:172-185 | an event without data is dropped, and nothing carries over to the next event |
| SseParser.EventSourceParser.Reset | clients/typescript/src/sse-parser.ts:187-197 | afterwards the parser is as good as new, and a consumed leftover line has been parsed once |
| SseChunks.ResetStartsOver | clients/typescript/src/sse-parser.ts:187-197 | whatever is fed after a reset gives what it gives a new parser; without `consume`, or without a leftover, the reset itself reports nothing |
| SseGrammar.EveryLineParses | http/sse_reader.go:139-154 | every non-blank line is one the grammar makes: a comment, a field with a colon and perhaps a space, or a bare name |
| SseGrammar.OnlyOneParse | http/sse_reader.go:139-154 | and in one way only |
| SseGrammar.LineReads | http/sse_reader.go:125-154 | both parsers take a line apart as the grammar put it together: the name, and the value exactly, with or without the optional space |
| SseGrammar.BlockMeans | http/sse_reader.go:156-219 | the event the pull reader makes of any block: the last type, all data joined by LF, the last id without a NUL, the last retry that is a numeral in range, the last comment |
| SseGrammar.BlockIsPushed | clients/typescript/src/sse-parser.ts:112-185 | the callbacks the push parser makes of any block: those of its lines in order, then its event if it has data, with the last type, the last id unless it holds a NUL, and all data joined by LF |
| SseGrammar.MarkedStream | http/sse_reader.go:84-93 | a stream of blocks after the bytes EF BB BF is read by both parsers, wherever its chunks are cut after the mark, as just those blocks |
| SseGrammar.PlainStream | http/sse_reader.go:83-193 | the same without a mark |
| SseChunks.ChunkInvariance | clients/typescript/src/sse-parser.ts:100-110 | for every way of cutting a stream that does not cut a leading byte order mark short, callbacks and final variables are those of feeding it whole |
| SseChunks.ChunkInvarianceExactly | clients/typescript/src/sse-parser.ts:101-109 | for a fresh parser this holds if and only if the first chunk does not cut a leading byte order mark short |
| SseChunks.SurvivingMarkShows | clients/typescript/src/sse-parser.ts:101 | a mark that is cut short always changes what the stream reports |
| SseChunks.CutStream | clients/typescript/src/sse-parser.ts:100-110 | a parser that has seen less of a stream has made a prefix of its callbacks |
| SseChunks.LeftoverIsNoLine | clients/typescript/src/sse-parser.ts:206-243 | what is left over never holds a complete line |
| SseChunks.ConsumeIsALineEnd | clients/typescript/src/sse-parser.ts:187-190 | a reset that consumes leftover text reports what a final line feed would have, if and only if the leftover has no CR at its end or is an event, data or id field with a colon |
| SseReader.IsAllDigits | http/sse_reader.go:223-233 | true exactly of non-empty strings of ASCII digits |
| SseReader.SSEEventReader.ReadEvent | http/sse_reader.go:83-193 | the event, the error and the bytes left over, for every input and every state of the mark flag |
| SseStream.BlocksKeepLines | http/sse_reader.go:95-193 | the blocks of a stream are non-empty runs of non-blank lines and together hold every such line once, in order |
| SseStream.DrainMeansBlocks | http/sse_reader.go:95-193 | from inside any block, repeated reads return one event for each closed block, then the open one with the error |
| SseStream.StreamMeaning | http/sse_reader.go:71-83 | repeated reads of any stream return exactly the events its blocks stand for |
| SseStream.ReadConsumesPrefix | http/sse_reader.go:95-193 | a read takes bytes from the front only and leaves the others as they were |
| SseStream.ReadAll | http/sse_reader.go:40-51 | the documented loop ends, consumes everything, and collects exactly the events of the closed blocks |
| SseAgreement.LinesAgreeExactly | http/sse_reader.go:97-117 | both parsers see the same lines if and only if every CR belongs to a CRLF |
| SseAgreement.PushMeaning | clients/typescript/src/sse-parser.ts:112-185 | for any stream, lone CRs included, and any chunking that leaves a leading mark whole, the push parser dispatches one message for each of its closed blocks with data |
| SseAgreement.MessagesAgreeExactly | clients/typescript/src/sse-parser.ts:145-147 | from the same blocks both make the same messages if and only if no block with data has a good id before a last id line with a NUL |
| SseAgreement.TwoParsersAgree | http/sse_reader.go:83-193 | if every CR belongs to a CRLF, then under any chunking that leaves a leading mark whole the push parser dispatches exactly the messages of the data-bearing events the pull reader returns, if and only if no event with data has a good id before a last id line with a NUL |
| SseAgreement.LoneCrDisagrees | http/sse_reader.go:109-114 | the lines are not all: on any data line with a lone CR inside it the messages differ too |
| SseAgreement.NulIdDisagrees | clients/typescript/src/sse-parser.ts:145-147 | streams on which the condition fails: any good id, then any id with a NUL, then data |
| SsePrinter.ResponseWriter.WriteMessage | http/sseconn.go:221-265 | what a message appends to the response: a comment alone, a bare retry alone, data with its fields, or nothing; an encoding error writes nothing |
| SsePrinter.ResponseWriter.WriteStreamEvent | http/streamable.go:203-222 | what a stream event appends to the response: its data split into lines, from the codec, or from `json.Marshal` when that fails, or empty when both fail |
| SsePrinter.PrintersAgree | http/streamable.go:201-202 | for an event with data the second printer writes what the first one does |
| SsePrinter.MessageTextIs | http/sseconn.go:222-262 | the bytes of every message, field by field in the order they are written |
| SsePrinter.DataTextIs | http/sseconn.go:255-260 | each line of the data is one data line |
| SsePrinter.StreamEventTextIs | http/streamable.go:204-220 | the bytes of every stream event: data from the codec if it has them, from `json.Marshal` only if it fails |
| Text.SplitJoin | http/sseconn.go:256-258 | lines joined by LF split back into the same lines |
| Text.JoinSplit | http/sse_reader.go:211-219 | data split into lines joins back into the same data |
| Decimal.AtoiPrint | http/sseconn.go:250-252 | a printed number parses back to itself if it fits the machine's integer, and to an error if not |
| Decimal.NoLeadingZero | http/sseconn.go:250-252 | a printed number has no leading zero |
| Decimal.LeadingZeros | http/sse_reader.go:177-179 | a digit string is some zeros followed by the numeral of its value |
| Decimal.AtoiSigned | http/lsp_framing.go:61-67 | digits, perhaps after a sign, are a number if it fits 64 bits |
| Decimal.AtoiOnlySigned | http/lsp_framing.go:61-64 | and nothing else is |
| SseGoRoundTrip.ReadableRoundTrip | http/sseconn.go:221-265 | messages whose texts a line can carry come back in order, silent ones skipped, and then nothing |
| SseGoRoundTrip.RoundTripExactly | http/sseconn.go:221-265 | and that is the case if and only if every message is such a message |
| SseGoRoundTrip.CutConnection | http/sse_reader.go:78-82 | cut after any byte, the events without error are those of the messages that arrived whole, and the one with the error is what the remaining lines of the next message say |
| SseGoRoundTrip.PartialExactly | http/sse_reader.go:78-80 | those are all the lines of that message if and only if at most its two last line feeds are lost, and then the event is the whole message |
| SseStreamEvents.EventsReadBackExactly | http/streamable.go:203-222 | stream events come back in order, those without data too if they have a type or id, and nothing else, if and only if a line can carry every printed text |
| SseStreamEvents.EventsArriveExactly | http/streamable.go:203-222 | under any chunking the push parser dispatches the events with data and drops the others, if and only if it can carry the texts of those with data |
| SseTsRoundTrip.ArriveExactly | http/sseconn.go:221-265 | under any chunking the push parser makes exactly the callbacks of the messages and ends idle, if and only if no printed text holds a CR, LF or NUL it cannot carry |
| SseTsRoundTrip.CutConnection | clients/typescript/src/sse-client.ts:213-218 | a connection cut after any byte has delivered a prefix of what was sent |
| EventStore.MemoryEventStore.constructor | http/event_store.go:77-85 | a bound that is not positive becomes 1000 |
| EventStore.MemoryEventStore.Store | http/event_store.go:89-108 | the stream grows by the event and keeps its end; other streams keep everything |
| EventStore.MemoryEventStore.Replay | http/event_store.go:113-139 | everything after the first event with that id, or everything if there is none |
| EventStore.MemoryEventStore.Trim | http/event_store.go:142-147 | the stream is gone, the others are untouched |
| EventStore.StoreRefinesHistory | http/event_store.go:87-108 | after any run over any streams, each holds exactly the end of its own history since its last trim, up to the bound |
| EventStore.ReplayFromHistory | http/event_store.go:110-139 | with distinct ids, replay for the event at position p returns the history from p + 1, or from the oldest one kept |
| EventStore.ReplayUnknown | http/event_store.go:45-48 | an id that was never stored replays everything that is kept |
| EventStore.AtomicIDGen.Next | http/idgen.go:25-27 | the ids are the decimal numerals of 1, 2, 3 and so on |
| SseClient.SSEClient.HandleEvent | clients/typescript/src/sse-client.ts:188-209 | an event with an id moves the last event id, one without leaves it; a named event goes to the named handler and to it alone |
| SseClient.LastIdIsKept | clients/typescript/src/sse-client.ts:189-192 | after any callbacks the id, and the header of the next request, is that of the last event among them that has one |
| SseClient.NoIdIsForgotten | clients/typescript/src/sse-client.ts:189-192 | and the one the client had if none has |
| SseClient.SSEClient.ReadStream | clients/typescript/src/sse-client.ts:183-217 | however the stream comes in, the client ends with the id of the callbacks it causes |
| SseClient.SSEClient.ConnectHeader | clients/typescript/src/sse-client.ts:104-108 | the header is the last event id, and is missing if there is none or it is empty |
| Resumption.RunKeeps | http/event_store.go:28-54 | what every step of the protocol keeps, from any history and any id the client has saved: the store holds the end of the history, the wire holds what was sent and not read, the client's id is that of the last event it heard |
| Resumption.NothingTwice | http/event_store.go:28-54 | in every run the client hears a strictly increasing sublist of the events after its saved id, each unaltered and none twice |
| Resumption.HistoryIs | http/idgen.go:15-27 | the history is exactly what was published, with the ids 1, 2, 3 and on |
| Resumption.StepsMove | http/event_store.go:28-36 | connections open and close, and bytes arrive in the order they were sent, as many as asked for |
| Resumption.ResumesExactly | http/event_store.go:42-49 | a new connection resumes right after the last event heard if and only if no more were missed than the store keeps |
| Resumption.NothingMissed | http/event_store.go:28-54 | if that is so at every reconnection, the client has at all times heard, without a gap, what came after its saved id |
| Resumption.CaughtUp | http/event_store.go:28-54 | and once it has read everything sent to it, all of it |
| RateLimiter.NewRateLimiter | middleware/ratelimit.go:47-62 | no limiter exactly when both limits are off, and then every request would have passed |
| RateLimiter.RateLimiter.GetKeyLimiter | middleware/ratelimit.go:64-76 | the key's own bucket, full if the key is new, with the time of this request noted |
| RateLimiter.RateLimiter.Allow | middleware/ratelimit.go:94-105 | the new buckets and the answer, as `AdmissionLaw` says them |
| RateLimiter.AdmissionLaw | middleware/ratelimit.go:94-105 | a request passes if and only if the global bucket, if any, and the key's bucket, if any, each hold a whole token; it then costs each of them one; a global rejection costs nobody anything, and other keys are never touched |
| RateLimiter.AnswerExactly | middleware/ratelimit.go:94-105 | in every run that is the answer to every request |
| RateLimiter.GlobalRejectionIsFree | middleware/ratelimit.go:98-100 | in every run, without a request that the global limit rejected every other answer is the same |
| RateLimiter.FillsExactly | middleware/ratelimit.go:55-57 | an idle bucket fills at its rate until it is full |
| RateLimiter.StartsFull | middleware/ratelimit.go:47-62 | the global bucket starts with the whole part of its rate, and every key with its burst |
| RateLimiter.UnseenIsFull | middleware/ratelimit.go:64-73 | a key that is not in the cache has all its tokens |
| RateLimiter.SweepLaw | middleware/ratelimit.go:78-91 | a sweep deletes exactly the entries idle for longer than the TTL and changes nothing else |
| RateLimiter.RateLimiter.Cleanup | middleware/ratelimit.go:78-91 | exactly the entries idle for longer than the TTL are deleted, in whatever order the map is walked |
| RateLimiter.EvictionUnobservable | middleware/ratelimit.go:64-105 | if an idle entry refills within the TTL, or there is no TTL, every answer in every run, whenever the sweeps come, is that of a limiter that never deletes a key |
| RateLimiter.UnobservableExactly | middleware/ratelimit.go:64-105 | for a limiter by key alone, over the runs that sweep at every multiple of the TTL and only then, this holds if and only if rate times TTL is at least the burst or there is no TTL |
| RateLimiter.EvictionShows | middleware/ratelimit.go:78-91 | otherwise draining a key just before the first tick, and a second burst after the second, tell the two apart |
| RateLimiter.KeyAdmissionBound | middleware/ratelimit.go:94-105 | under the same condition, in every window of every run one key is admitted at most its burst plus rate times the window |
| RateLimiter.GlobalAdmissionBound | middleware/ratelimit.go:55-57 | in every window of every run all keys together are admitted at most the whole part of the global rate plus rate times the window |
| RateLimiter.FractionalRate | middleware/ratelimit.go:55-57 | with a positive global rate, and keys off or with some burst, nothing ever passes if and only if that rate is below one |
| ConnLimiter.StepKeeps | middleware/connlimit.go:42-52 | each add, check, undo and finish keeps the counter equal to the requests in flight and the admitted ones within the limit |
| ConnLimiter.LimitHolds | middleware/connlimit.go:42-52 | in every interleaving at most max requests are served, the counter is those serving plus those backing out, and it is zero exactly when all have finished |
| ConnLimiter.TurnedAwayExactly | middleware/connlimit.go:43-48 | in every interleaving a request is turned away if and only if at least max others were in flight at its add |
| ConnLimiter.NewConnLimiter | middleware/connlimit.go:22-27 | no limiter for a limit that is not positive |
| ConnLimiter.Active | middleware/connlimit.go:30-35 | the number of requests in flight; zero for a nil limiter |
| ConnLimiter.ConnLimiter.Enter | middleware/connlimit.go:43-49 | undisturbed, a request is admitted exactly when the counter was below the limit, and a rejected one leaves the counter as it was |
| ConnLimiter.ConnLimiter.Leave | middleware/connlimit.go:50-51 | a served request gives its place back |
| GrpcBridge.RunKeeps | grpcws/bidi_stream.go:43-113 | what every step of forwarder, handler and ping timer keeps |
| GrpcBridge.ForwarderTrace | grpcws/server_stream.go:43-71 | in every run the forwarder's part of the queue, by what Recv returned: a data envelope for each response in order, then stream_end after EOF, an error envelope after an encoding error, and after a failure one exactly if the stream was not cancelled when the context was looked at; MsgsSent is the number of data envelopes or one more |
| GrpcBridge.CancelIsSilent | grpcws/server_stream.go:50-59 | a Recv failure after a cancel is not reported: nothing but the responses before it is ever queued |
| GrpcBridge.ServerStreamTrace | grpcws/server_stream.go:74-90 | in a server stream nobody but the forwarder queues anything except pings, and nothing is sent to gRPC |
| GrpcBridge.HandlerTrace | grpcws/bidi_stream.go:74-113 | in every run gRPC is sent the decodable data messages in arrival order, one Send each, CloseSend is called once for each end_send, the error envelopes are the complaints of decoding, Send and CloseSend in order, an idle handler has counted the successful Sends, pings are numbered 1, 2, 3 and on, and the stream is cancelled exactly if somebody cancelled it |
| GrpcBridge.DataTrace | grpcws/bidi_stream.go:61-70 | in every run the data envelopes in the queue are the responses received, in order |
| GrpcBridge.EndIsLast | grpcws/bidi_stream.go:43-49 | at most one stream_end is queued and no data after it |
| GrpcBridge.StreamConn.SendPing | grpcws/conn.go:204-211 | one call queues the next ping, and is the ping steps of the machine |
| GrpcBridge.StreamConn.HandleMessage | grpcws/bidi_stream.go:74-113 | what one call sends, queues, counts and returns for each kind of message and each outcome, and that it is the handler steps of the machine |
| GrpcBridge.StreamConn.ForwardResponses | grpcws/bidi_stream.go:43-71 | for any results of Recv: a data envelope for each response up to the first other result, then what that one calls for, and that this is the forwarder steps of the machine |
| Envelope.GRPCWSClient.HandleRawMessage | clients/typescript/src/base-client.ts:166-212 | for any codec, what each kind of frame makes the client call and send, pongs included |
| Envelope.GRPCWSClient.HandleEnvelopeMessage | clients/typescript/src/grpcws-client.ts:272-298 | each kind of envelope reaches its own handler and no other |
| Envelope.EnvelopeReaction | clients/typescript/src/grpcws-client.ts:272-310 | which handler, with what, for every value |
| Envelope.FrameReaction | clients/typescript/src/base-client.ts:166-233 | a ping in a text frame is answered with its id and reported, or throws on a closed socket; every other frame is what the codec makes of it |
| Envelope.GRPCWSClient.Send | clients/typescript/src/grpcws-client.ts:134-140 | an open socket is sent the payload in an envelope; a closed one nothing, and the call throws |
| Envelope.GRPCWSClient.EndSend | clients/typescript/src/grpcws-client.ts:147-149 | an open socket is sent an end_send envelope |
| Envelope.GRPCWSClient.Cancel | clients/typescript/src/grpcws-client.ts:155-157 | an open socket is sent a cancel envelope |
| Envelope.EnvelopeArrives | grpcws/conn.go:32-37 | what each envelope of the server makes the client do, whatever its payload looks like |
| Envelope.WrappedArrives | grpcws/conn.go:57-61 | a payload the client wraps is the data the server unwraps |
| Envelope.EncodeDecode | grpcws/conn.go:56-67 | the server reads back every envelope it can write |
| Envelope.EncodeExactly | grpcws/conn.go:31-37 | what the server writes: the type, and every other field exactly if it is not zero |
| Envelope.DecodeExactly | grpcws/conn.go:56-61 | which values are no envelope, and what each envelope holds |
| Envelope.PongArrives | clients/typescript/src/base-client.ts:231-233 | a pong is read as one, with the id of the ping it answers |
| EndToEnd.PayloadsArriveInOrder | clients/typescript/src/grpcws-client.ts:272-298 | in every run onMessage has been given a prefix of the response payloads, and the pongs are 1, 2, 3 and on, a prefix of the pings |
| EndToEnd.EndMeansAll | grpcws/server_stream.go:45-49 | onStreamEnd is called only after Recv has returned EOF, and then onMessage has been given every response |
| EndToEnd.RequestsArriveInOrder | grpcws/bidi_stream.go:76-106 | gRPC is given the requests the application sent, in order, closed for sending once for each endSend, and cancelled if the application cancelled |
| WsLoop.WSHandleConn | http/ws.go:127-197 | the hooks called and the time and reason of the exit, for every order of ticks and reads |
| WsLoop.HookProtocol | http/ws.go:131-196 | on every run the hooks called, one by one: OnStart, then for each event taken a ping for a ping tick, OnTimeout for a late pong tick, HandleMessage for a message, OnError for an error and nothing else, then OnClose if the loop returns; only OnStart and OnClose if OnStart failed |
| WsLoop.ExitsExactly | http/ws.go:153-196 | the loop is left at the first event that should end the connection, for its reason, and at no other |
| WsLoop.DeadPeerIsDropped | http/ws.go:158-167 | with an ideal pong ticker and OnTimeout true, a peer silent since time L is dropped by L plus two periods |
| WsLoop.SilenceBeforeTimeout | http/ws.go:158-167 | the heartbeat ends a connection only after more than a period without any read result |
| LspFraming.FrameStream.WriteFrame | http/lsp_framing.go:19-26 | the length in decimal, a blank line and the body are appended |
| LspFraming.FrameStream.ReadFrame | http/lsp_framing.go:38-82 | the body or the error, and the bytes left over, for every stream |
| LspFraming.FrameReadsBack | http/lsp_framing.go:28-82 | whatever the body holds, whatever follows, and with any other headers around the length, a frame is read back and nothing after it is consumed |
| LspHeaders.HeaderIsRead | http/lsp_framing.go:41-81 | for any header lines, with the name in any mixture of cases and any spaces around it and the number, ended by LF or CRLF: the last length counts, none at all is an error, and too few bytes are told from none |
| LspHeaders.SpelledFrame | http/lsp_framing.go:60-81 | a frame under any such header is read back and nothing after it is consumed |
| LspHeaders.BadLength | http/lsp_framing.go:61-67 | a length that is no number, or negative, is reported as such, with its text or value |
| LspHeaders.NoColon | http/lsp_framing.go:53-56 | a line without a colon is malformed |
| LspHeaders.FoldExactly | http/lsp_framing.go:60 | the names that count are the 14 letters of Content-Length, each in either case |
| LspHeaders.TrimExactly | http/lsp_framing.go:57-58 | spaces, those outside ASCII too, are trimmed at both ends, and nothing else |
| LspFraming.FramesReadBack | http/lsp_framing.go:19-82 | the frames of any list of bodies are read back exactly, then the end of the stream |
| LspFraming.CutFrames | http/lsp_framing.go:35-82 | a stream of frames cut at any byte yields exactly its complete frames and then the error that fits the cut |
| LspFraming.EofExactly | http/lsp_framing.go:35-45 | that error is a plain EOF at the end of a frame, and with bytes left over if and only if the cut falls strictly inside a header |

## Left out

Assumptions and abstractions:

- Characters: a byte and a UTF-16 unit are both a `char`; UTF-8 decoding, and the mark a TextDecoder strips by itself, are not modelled.
- Numbers in JavaScript: `parseInt` and ping ids are exact, so rounding above 2^53 is not modelled; nor is the wrap-around of the 64-bit counters.
- JSON: a text is identified with the tree it denotes, and its numbers are integers; the case-insensitive keys of `encoding/json`, and protojson itself, are not modelled. The stand-in for a codec is a function the theorems quantify over, or an outcome a step or frame carries. A codec given to the TypeScript client turns frames into such trees, and what it makes of the envelopes sent is not modelled.
- Callbacks: `onComment` is always given, and handlers that throw or call back into the parser or the client are not modelled.
- Stored data: events are values, so sharing of the `Data` bytes between caller, store and replay is not captured.
- golang.org/x/time/rate: the token bucket contract over reals, with a fresh bucket full. Looking up a key and taking its token is one step.
- Writers: one FIFO with a single consumer; `Stop`, and sends after it, are not modelled.
- Resumption: the store is not wired to a server in the repository. The model is the composition the store's contract asks for (http/event_store.go:28-36), for one stream without Trim, with subscription and replay in one step. A saved id is that of some event published before; whether a request without the header is replayed to is a parameter.
- Interleaving: the gRPC bridge and the connection limiter run as machines of atomic steps on values; their classes cover calls that are not interrupted.
- WSHandleConn: time is real and each event carries the moment it is handled. Read deadlines are not modelled.
- ReadFrame: a huge Content-Length is read like any other; running out of memory is not modelled.
- Bodies longer than the machine's largest integer are excluded from the framing theorems, as no Go slice is that long.

Statements weaker than they might be:

- RateLimiter.UnobservableExactly: the only-if half is for a limiter without a global rate, because a global limit can reject the very requests that would tell the two apart.
- SseStreamEvents.EventsArriveExactly: types and ids of events without data are taken to hold no line ends; such text can smuggle in whole lines, which may or may not be reported.
- SseAgreement.TwoParsersAgree: for streams with lone CRs the two sides make messages of different lines; what each makes of them is stated (`PushMeaning`, `StreamMeaning`), but no simpler test for when these happen to coincide.
- SseGoRoundTrip.PartialExactly: says when all lines are left, not when a message that has lost a line reads the same without it, as empty data at its end does.
- ConnLimiter.LimitHolds: fairness is not claimed, and requests that back out may cause others to be rejected; the protocol promises no more.
- EndToEnd.PayloadsArriveInOrder: the client has its default JSON codec, the socket is open and auto-pong is on; a null payload arrives as `undefined`, because the envelope leaves it out.

Not modelled, as it would add only easy members:

- The `Send*` helpers, `SSEServe` and the lifecycle fields of `BaseSSEConn`; `SSEHub`; single responses.
- Unary client streams (`grpcws/client_stream.go`), metrics timestamps, logging.
- Ping and error payloads of `BaseConn` outside gRPC; codecs.
- Guards, CORS, origin and client-address checks, authentication, health, request ids, body limits, and the demo programs.
