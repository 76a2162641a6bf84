# Arnelify Broker: a verified model of UMQT and RPC

Arnelify Broker moves bytes between processes in two ways. **UMQT** sends a message to one of the servers of a
topic over UDP with four kinds of datagram: `i` invites every server, `v` volunteers, `_` carries the data, `x`
acknowledges it. **RPC** pairs requests with responses inside one process, over a table of waiting callers, and
hands the result to C++ as a C string. Both speak the frame `<jsonLen>+<binLen>:<json><bin>`.

The model has four layers, and each upper layer uses the theorems of the one below, so that what is proved about
messages is proved about bytes.

* **Text and frames.** `Common`, `Utf8`, `Decimal` and `Json` hold the concrete encodings (a printer and a parser
  for JSON with its nesting limit, decimal numerals, UTF-8); `JsonText` says which texts the parser accepts.
  `Framing` is the incremental decoder as a value, for any header reader; `LengthHeader` says, byte for byte, which
  length headers it takes, and `Decoding` what it does with whole, pipelined, truncated, chunked and bad frames.
  `Headers` gives the two headers and `HeaderSizes` their lengths; `UmqtRequest.UMQTReq` and `RpcRequest.RPCReq` are
  the mutable decoders, proved equal to `Framing`. `ForeignFrames` covers frames the program does not write itself.
* **UMQT.** `UmqtWire` has the messages and what a receiver with a finite buffer makes of their bytes. `UmqtNode` has
  one process, one step per lock section, wake-up or `send_to`; `UmqtProcess.UMQT` is that process as a class over
  real bytes, each method proved to be its step. `UmqtSystem` puts processes on a network that may lose, duplicate
  and reorder datagrams but not forge them. `UmqtClient`, `UmqtInvariant` and `UmqtHistory` carry the invariants;
  `UmqtSafety`, `UmqtOrigins`, `UmqtHandling`, `UmqtRefinement`, `UmqtLiveness`, `UmqtServers` (which servers a send
  reads, and that each can win) and `UmqtOneShot` (unreliable sends) the results, with the schedules of
  `UmqtSchedules` and the concrete runs of `UmqtWitness`.
* **RPC.** `Rpc` is the state machine of callers, the `MAP` table, channels and spawned consumers; `RpcProcess` is
  the same as a class over real frames; `RpcRegistrations` has what `on` leaves registered, `RpcTheorems` the results
  about requests and correlation, `RpcResponses` those about responses.
* **The border to C++.** `Reply` frames a result and models `deserialize` with its own parser; `Ffi` and
  `StreamRegistry` model the stream ids and the registry behind the callbacks; `FfiWitness` has a run in which the
  ids clash.

A datagram network is the log of everything ever sent; a delivery picks any entry, so nothing can be forged and
anything can be lost, repeated or overtaken. Timers are steps that may happen whenever their task waits. A tokio
`Notify` is one stored permit. A reachable state is one that some run of freshly started processes ends in.

## Where the code does not do what one may expect

* Reading a frame in pieces is only right for some cuts: `read_body` may take the JSON a second time, or take JSON
  bytes for the binary part. `Decoding.Chunked` gives the exact condition, `UmqtWire.TwoPiecesMisread` an instance.
* A decoder that is kept across frames recovers from a bad length header, but not from bad JSON or a missing key: it
  keeps `has_meta`, so it takes the next frame's length header for a body, or fails forever on the same text
  (`Decoding.RecoversIff`, `UmqtWire.NextFrameIsLost`). The broker itself uses a new decoder per datagram.
* A data datagram cut by `block_size` is usually dropped, but when the cut lies inside the JSON and leaves at least as
  many JSON bytes as the payload has, the acceptor takes those bytes for an unreliable message with an empty topic
  and id (`UmqtWire.ReceiveCut`, `UmqtWire.MisreadWindow`, `UmqtWitness.TenBytesMisread`).
* A frame that announces no JSON is answered without any header fields: as an unreliable message without id and
  topic, or as a request with id 0 (`LengthHeader.EmptyJson`, `ForeignFrames.HeaderlessFrame`). A decoder kept after
  one that announces no bytes either never answers again.
* A server does not remove duplicates: a handler runs once per arrival (`UmqtHandling.HandledPerArrival`,
  `UmqtWitness.FreshSendHandledTwice`). The acknowledgement goes out before the handler is looked up.
* A reliable `send` elects the first server that answers, whether or not the data fits that server's buffer; if it
  does not, the call never returns (`UmqtLiveness.NeverStuckIff`, `UmqtWitness.TwoThousandBytesStrand`). The same
  happens to data beyond the 65507 bytes of a UDP payload, however large the buffers (`UmqtWitness.BeyondUdpStrands`).
* An RPC request for a topic without a consumer is dropped silently, and so is one whose payload nests more than 126
  deep (127 still passes the `from_str` of `rpc_send`); the caller waits forever (`RpcTheorems.ReturnsIff`,
  `RpcTheorems.NoConsumerHangs`, `RpcTheorems.DeepPayloadHangs`).
* Responses are lost in the same two ways: when the action pushes before `on` has registered the `res:` topic, which
  it does after the `req:` topic, and when the pushed payload nests more than 126 deep. The caller then waits until
  another push lands, if one ever does (`RpcResponses.PushSettlesIff`, `RpcResponses.WaitingReturnsIff`,
  `RpcResponses.EarlyResponseIsLost`, `RpcResponses.DeepResponseIsLost`).
* A response whose bytes contain a zero becomes a null pointer, and an exception in C++ (`Reply.ReplyRoundTrip`). The
  echo example of the repository's README holds for all bytes in Rust (`RpcTheorems.Echo`), but in C++ only without
  zero bytes (`Ffi.CppEcho`).
* After 2^32 callbacks the stream ids repeat; a callback that still runs then loses its id to the new one, and what it
  pushes answers another caller (`Ffi.InsertIff`, `FfiWitness.ClashIsReachable`).

## Model

| member | source | states |
|---|---|---|
| Common.Position | native/src/transport/umqt.rs:174-175 | the delimiter scan finds the first occurrence or none |
| Decimal.ParseShow | native/src/transport/umqt.rs:152-167 | a printed number parses back to itself exactly when it fits the target width, else parsing fails |
| Utf8.DecodeEncode | native/src/transport/umqt.rs:202-208 | `from_utf8` recovers every string from its bytes |
| Utf8.EncodeDecode | native/src/transport/umqt.rs:202-208 | `from_utf8` accepts nothing but the encoding of what it gives: no replacement characters, no overlong forms |
| Utf8.KnownEncodings | native/src/transport/umqt.rs:367-371 | the bytes of four characters of one to four bytes |
| Json.FromBytesToBytes | native/src/transport/umqt.rs:202-216 | a JSON value is read back from its own serialised bytes if and only if it nests less deeply than the parser allows: 127 containers for `serde_json` (`native/Cargo.toml`, no `unbounded_depth`), 1000 levels for jsoncpp |
| JsonText.AcceptedIff | native/src/transport/umqt.rs:210-216 | bytes without a backslash are read as a value exactly if they are that value's own bytes and it nests less deeply than the limit: no other spelling, leading zero, stray comma or trailing text |
| Json.TrailingTextIsRefused | native/src/transport/umqt.rs:210-216 | text after a value is refused, escapes or not |
| JsonText.EscapesRead | native/src/transport/umqt.rs:210-216 | an escaped slash and four hexadecimal digits of either case are read as their character; the numbers of surrogates are refused |
| JsonText.EscapesAre | native/src/transport/umqt.rs:368 | how each character is printed inside a string |
| JsonText.IntegersRead | native/src/transport/umqt.rs:210-216 | every integer from the smallest `i64` to the largest `u64` is read exactly |
| Json.LastBinding | native/src/transport/umqt.rs:226-229 | of several bindings of a key the last one counts |
| Json.ToBytesNoZero | native/src/lib.rs:568-579 | serialised JSON never contains a zero byte |
| Headers.ReadUmqtText | native/src/transport/umqt.rs:218-229 | the four fields a UMQT header is written with are the four fields read out of it |
| Headers.ReadRpcText | native/src/rpc/main.rs:165-194 | request id (any `u128`) and payload survive the RPC header if and only if the payload nests at most 126 deep; otherwise the text is refused as JSON |
| Headers.IdOfShowIff | native/src/transport/umqt.rs:376 | an id printed in decimal is the id `parse().unwrap_or(0)` finds if it is below 2^128, else 0 is found |
| Headers.IdOfIs | native/src/transport/umqt.rs:376 | any id field reads as the value of its digits after an optional sign, if they are a 128-bit number, else as 0 |
| Headers.UmqtMessageIff | native/src/transport/umqt.rs:202-229 | a JSON value is a message exactly when it nests less than 128 deep and is an object with the four keys; values of the wrong kind read as empty or false |
| Headers.RpcMessageIff | native/src/rpc/main.rs:165-194 | a JSON value is a message exactly when it nests less than 128 deep and is an object with the three keys; an id that is no string of digits reads as 0 |
| Headers.DigitTextIsNumber | native/src/transport/umqt.rs:210-224 | a text that starts with a digit is never a header, so a length header is never taken for one |
| HeaderSizes.UmqtTextSize | native/src/transport/umqt.rs:574-586 | the exact length of a UMQT header |
| HeaderSizes.RpcTextSize | native/src/rpc/main.rs:265-274 | the exact length of an RPC header |
| Framing.MetaLength | native/src/transport/umqt.rs:176-186 | no length header exceeds 42 bytes, so an honest frame never meets the 8192 limit |
| Framing.MetaRead | native/src/transport/umqt.rs:138-199 | the length header is taken off whatever follows it, with both lengths right, because the first `:` and the first `+` are its own |
| LengthHeader.ParseLengthIs | native/src/transport/umqt.rs:145-167 | a length is read exactly from a decimal numeral of at most 2^64 - 1 with an optional sign, as its value |
| LengthHeader.WithoutPlus | native/src/transport/umqt.rs:139-143 | a `:` without a `+` before it fails as missing plus, empties the buffer and changes nothing else |
| LengthHeader.WithPlus | native/src/transport/umqt.rs:145-199 | with a `+` before the `:`, the decoder goes on with the values of both parts exactly if both are numerals; otherwise it fails, empties the buffer and keeps the first length if that was one |
| LengthHeader.MissingPlusIff | native/src/transport/umqt.rs:139-143 | the missing-plus failure strikes exactly in front of a length header whose first `:` has no `+` before it |
| LengthHeader.BadMetaIff | native/src/rpc/main.rs:108-130 | the bad-meta failure strikes exactly in front of a length header with a `+` of which one part is no numeral |
| LengthHeader.EmptyJson | native/src/transport/umqt.rs:201-246 | a frame that announces no JSON is answered with its bytes and the header fields left as they were; one that announces nothing leaves a decoder that never answers |
| Framing.MetaWaits | native/src/transport/umqt.rs:174-186 | an incomplete length header waits and changes nothing |
| UmqtRequest.UMQTReq.constructor | native/src/transport/umqt.rs:83-108 | a new decoder is the idle decoder with blank fields |
| UmqtRequest.UMQTReq.Add | native/src/transport/umqt.rs:110-112 | a block is appended and nothing else changes |
| UmqtRequest.UMQTReq.ReadMeta | native/src/transport/umqt.rs:138-170 | exactly the specified header step, with its four failures and the first length kept when the second fails |
| UmqtRequest.UMQTReq.ReadHeader | native/src/transport/umqt.rs:173-199 | waits, fails or goes on exactly as specified; a failure empties the buffer |
| UmqtRequest.UMQTReq.ReadBody | native/src/transport/umqt.rs:172-247 | the whole new decoder state and the answer are those of the specified decoder, in every branch |
| UmqtRequest.UMQTReq.ReadBlock | native/src/transport/umqt.rs:249-259 | the same for `read_block` |
| UmqtRequest.UMQTReq.Reset | native/src/transport/umqt.rs:261-279 | everything but the buffered bytes is blank again |
| RpcRequest.RPCReq.constructor | native/src/rpc/main.rs:63-83 | a new decoder is the idle decoder with id 0 and the empty context |
| RpcRequest.RPCReq.ReadMeta | native/src/rpc/main.rs:101-133 | exactly the specified header step |
| RpcRequest.RPCReq.ReadBody | native/src/rpc/main.rs:135-211 | the same decoder as UMQT's with the RPC header reader, in every branch |
| RpcRequest.RPCReq.ReadBlock | native/src/rpc/main.rs:213-223 | the same for `read_block` |
| RpcRequest.RPCReq.Reset | native/src/rpc/main.rs:225-240 | the context is empty again, the request id and the buffered bytes stay |
| Decoding.RoundTrip | native/src/transport/umqt.rs:172-259 | one frame followed by any bytes gives the message with its header and binary, and leaves exactly those bytes |
| Decoding.Pipeline | native/src/transport/umqt.rs:249-279 | n frames and any tail: n messages in order, then exactly a reader of the tail |
| Decoding.PipelineAll | native/src/transport/umqt.rs:249-279 | n frames drained with `reset` in between give exactly the n messages and end empty and waiting |
| Decoding.ReadBlockIdempotent | native/src/transport/umqt.rs:249-259 | between completion and `reset` further calls change nothing and answer the same |
| Decoding.FailureCases | native/src/transport/umqt.rs:172-247 | what each failure leaves behind, for every decoder state |
| Decoding.MetaTooLongIff | native/src/transport/umqt.rs:174-187 | the limit strikes exactly a buffer of more than 8192 bytes without any `:` |
| Decoding.BadMessageSticks | native/src/transport/umqt.rs:218-224 | after a missing key every later read fails the same way, whatever is added |
| Decoding.HeaderFailureRecovers | native/src/transport/umqt.rs:189-199 | after a failed length header the next frame is read as if nothing had happened |
| Decoding.RecoversIff | native/src/transport/umqt.rs:189-224 | a decoder kept after any failure reads the next frame right if and only if the failure was one of the length header, for every reader that accepts no text starting with a digit |
| UmqtWire.UmqtRecoversIff | native/src/transport/umqt.rs:189-224 | the same for `UMQTReq`, every state and every message |
| RpcWire.RpcRecoversIff | native/src/rpc/main.rs:152-186 | the same for `RPCReq` |
| UmqtWire.NextFrameIsLost | native/src/transport/umqt.rs:201-224 | two concrete frames, `1+0:x` and `2+0:{}`, after either of which any next frame is lost |
| ForeignFrames.UmqtFrame | native/src/transport/umqt.rs:201-246 | a datagram with any JSON value for a header is a message exactly if the value is an object with the four keys that nests less than 128 deep; every prefix but `i`, `v` and `x` makes it data |
| ForeignFrames.RpcFrame | native/src/rpc/main.rs:164-211 | a frame with any JSON value for a header reaches the consumers exactly if the value is an object with the three keys that nests less than 128 deep |
| ForeignFrames.HeaderlessFrame | native/src/rpc/main.rs:164-211 | what the two receivers make of a frame that announces no JSON |
| Decoding.Truncated | native/src/transport/umqt.rs:173-246 | a proper prefix of a frame never fails, and is answered if and only if the cut lies inside the JSON with at least as many JSON bytes as the non-empty binary has |
| Decoding.FinishUndrained | native/src/transport/umqt.rs:201-246 | the outcome for every number of pending bytes once the lengths are known |
| Decoding.Chunked | native/src/transport/umqt.rs:172-259 | reading after each chunk waits until the last and then gives the one-shot result if and only if every cut is safe |
| Decoding.ChunkedNoBinary | native/src/transport/umqt.rs:201-236 | without a binary part every cut is safe |
| Decoding.ChunkingFails | native/src/transport/umqt.rs:238-244 | an unsafe first cut makes the first read answer with JSON bytes as binary and no header fields |
| UmqtWire.TwoPiecesMisread | native/src/transport/umqt.rs:201-246 | a concrete valid data frame that is misread in two pieces |
| UmqtWire.OnTheWire | native/src/transport/umqt.rs:361-371 | every datagram byte by byte: both lengths, the four keys in order, the letter of the kind, the bytes |
| UmqtWire.ReceiveWhole | native/src/transport/umqt.rs:339-356 | a datagram that fits UDP and the block buffer is received as the message that was sent |
| UmqtWire.ReceiveCut | native/src/transport/umqt.rs:339-356 | exactly when a cut datagram is answered at all, and then with what |
| UmqtWire.ControlCutIsDropped | native/src/transport/umqt.rs:339-348 | control frames are prefix-free: cut short they are dropped |
| UmqtWire.DataCutAfterJsonIsDropped | native/src/transport/umqt.rs:238-246 | a data frame cut after its JSON is dropped, not delivered short |
| UmqtWire.MisreadWindow | native/src/transport/umqt.rs:339-348 | a buffer that took the invite misreads the cut data exactly in one window of sizes: at least ten payload bytes and at most 18 bytes more than the invite |
| UmqtWire.SmallFits | native/src/transport/umqt.rs:339-340 | an explicit bound on id, topic and bytes under which a message fits UDP and a buffer |
| UmqtProcess.BuildFrame | native/src/transport/umqt.rs:404-409 | the buffer built by three appends is the frame of header and bytes |
| UmqtProcess.SendTo | native/src/transport/umqt.rs:437-439 | `send_to` puts out the datagram, or nothing when it exceeds the 65507 bytes of a UDP payload; the error is ignored |
| UmqtProcess.UMQT.constructor | native/src/transport/umqt.rs:300-326 | a new process is the initial process with `block_size_kb * 1024` bytes of buffer, its maps in order |
| UmqtProcess.UMQT.AddServer | native/src/transport/umqt.rs:513-518 | the address is appended to the servers of the topic, nothing else changes, and the maps stay in order |
| UmqtProcess.UMQT.On | native/src/transport/umqt.rs:527-531 | the topic has a handler, nothing else changes, and the maps stay in order |
| UmqtProcess.UMQT.Begin | native/src/transport/umqt.rs:535-560 | `send` remembers the servers of the topic as they are now (all of them: `UmqtServers.ServersRead`); without any it changes nothing; with a fresh id the maps stay in order |
| UmqtProcess.UMQT.InsertJob | native/src/transport/umqt.rs:561-565 | the lock section that stores the bytes, as the step of the verified process; maps and permits stay in order for every request |
| UmqtProcess.UMQT.InsertDiscovery | native/src/transport/umqt.rs:567-572 | the lock section that registers the discovery notifier; an unreliable send goes straight to its loop; maps and permits stay in order |
| UmqtProcess.UMQT.InsertSent | native/src/transport/umqt.rs:610-615 | the lock section that registers the sent notifier; maps and permits stay in order |
| UmqtProcess.UMQT.InsertFinish | native/src/transport/umqt.rs:617-622 | the lock section that registers the finish notifier; maps and permits stay in order |
| UmqtProcess.UMQT.Tick | native/src/transport/umqt.rs:630 | a tick starts a new round of invitations; maps and permits stay in order |
| UmqtProcess.UMQT.SendInvite | native/src/transport/umqt.rs:574-602 | the next server of the round gets the bytes of the invite of this request, unless they exceed UDP; maps and permits stay in order |
| UmqtProcess.UMQT.Discovered | native/src/transport/umqt.rs:596-629 | the discovery permit is consumed; an unreliable send returns, a reliable one waits for its finish |
| UmqtProcess.UMQT.Finished | native/src/transport/umqt.rs:638-640 | the finish permit is consumed and `send` returns |
| UmqtProcess.UMQT.Receive | native/src/transport/umqt.rs:339-355 | what a fresh decoder makes of the part of a datagram that fits the buffer |
| UmqtProcess.UMQT.AcceptVote | native/src/transport/umqt.rs:375-385 | a vote takes the discovery notifier with a permit, or is ignored |
| UmqtProcess.UMQT.AcceptAck | native/src/transport/umqt.rs:444-454 | an acknowledgement takes the finish notifier with a permit, or is ignored |
| UmqtProcess.UMQT.Accept | native/src/transport/umqt.rs:342-478 | from the received bytes to the answer bytes and the new maps, for all four kinds and for junk; from an honest peer the maps stay in order |
| UmqtProcess.UMQT.TakeJob | native/src/transport/umqt.rs:387-417 | the job leaves the map as the data message of the vote; an unreliable one is spawned |
| UmqtProcess.UMQT.GetSent | native/src/transport/umqt.rs:419-442 | the sent notifier stays in the map and the retransmitter is spawned |
| UmqtProcess.UMQT.DropSent | native/src/transport/umqt.rs:456-460 | the sent notifier leaves the map with a permit |
| UmqtProcess.UMQT.Dispatch | native/src/transport/umqt.rs:480-488 | the handler of the topic runs if there is one |
| UmqtProcess.UMQT.Transmit | native/src/transport/umqt.rs:413-438 | the spawned task sends the data; a one-shot task ends with it |
| UmqtProcess.UMQT.Stop | native/src/transport/umqt.rs:434-436 | the sent permit ends the retransmitter |
| UmqtClient.DoKeepsClientOk | native/src/transport/umqt.rs:533-639 | every step of every task of a process keeps the shape of its maps and permits for every request |
| UmqtClient.AcceptVoteKeeps | native/src/transport/umqt.rs:375-385 | the first vote moves the request to the acceptor without breaking the shape |
| UmqtClient.AcceptAckKeeps | native/src/transport/umqt.rs:444-454 | so does the first acknowledgement |
| UmqtClient.AcceptKeepsClientOk | native/src/transport/umqt.rs:342-478 | whatever an honest peer sends, the acceptor keeps the shape for every request |
| UmqtInvariant.StepKeepsInv | native/src/transport/umqt.rs:328-495 | every step of the network of processes keeps the whole invariant, and calls, senders, receipts and the log only grow |
| UmqtInvariant.ExecKeepsInv | native/src/transport/umqt.rs:678-694 | hence every run does |
| UmqtInvariant.VoteIsHonest | native/src/transport/umqt.rs:359-374 | a vote in the network comes from a server that was invited for that request and echoes the invite |
| UmqtInvariant.AckIsHonest | native/src/transport/umqt.rs:462-478 | an acknowledgement in the network comes from the elected server, which has received the data |
| UmqtSystem.SpawnIsFresh | native/src/transport/umqt.rs:411-442 | a sender is only spawned for a request that has none |
| UmqtSafety.CausalChain | native/src/transport/umqt.rs:359-478 | before every acknowledgement the log holds, in order, invite, vote and data of the same request between the same two processes, and its sender has received exactly that data |
| UmqtSafety.ReliableDelivery | native/src/transport/umqt.rs:533-639 | when a reliable send has returned, exactly one of its servers was chosen, that server received exactly the sent topic and bytes, whole, and no data for the request went anywhere else |
| UmqtSafety.SingleWinner | native/src/transport/umqt.rs:375-442 | all data ever sent for one request is the same datagram to one address among the servers `send` read |
| UmqtSafety.UnreliableAtMostOnce | native/src/transport/umqt.rs:411-417 | an unreliable send puts its data on the network at most once in any run |
| UmqtSafety.DatagramBelongs | native/src/transport/umqt.rs:361-366 | every datagram carries the id, flag and topic of its send, and only data carries its bytes |
| UmqtSafety.HandlerInput | native/src/transport/umqt.rs:339-489 | a handler runs for its own topic at the process elected for a call, on what its buffer made of exactly that call's data: the whole, or in a narrow window of sizes the first bytes of its header |
| UmqtSafety.MapShape | native/src/transport/umqt.rs:560-622 | membership in the four maps is, in every reachable state, a function of where `send` stands, who has won and which notifiers fired |
| UmqtSafety.OpenRequestIsComplete | native/src/transport/umqt.rs:560-622 | while an invite may be in flight and the request is undiscovered, its job and, if reliable, both notifiers are registered |
| UmqtSafety.NoEarlyReturn | native/src/transport/umqt.rs:394-427 | the acceptor never finds the job or the sent notifier missing |
| UmqtSafety.NoLostWakeup | native/src/transport/umqt.rs:429-460 | after the first acknowledgement the finish permit waits or `send` has returned, and the sent permit waits or the retransmitter has stopped, however early it came |
| UmqtSafety.ReturnedLeavesNothing | native/src/transport/umqt.rs:375-460 | a returned send is in none of the four maps, but for the section the acceptor is in |
| UmqtSafety.KeysAreLive | native/src/transport/umqt.rs:560-639 | every key of the four maps is an unreturned send or the request the acceptor is handling |
| UmqtOrigins.Registrations | native/src/transport/umqt.rs:497-531 | after any run the servers of a topic are those added, in order, and the handled topics those registered |
| UmqtOrigins.CallsBegun | native/src/transport/umqt.rs:533-560 | every call was opened by a `send` of the run with its own arguments and uses servers registered for its topic |
| UmqtOrigins.DatagramOrigin | native/src/transport/umqt.rs:574-579 | every datagram goes back to a `send` and an `add_server` of the run; data carries that send's bytes |
| UmqtOrigins.HandlerOrigin | native/src/transport/umqt.rs:339-488 | every handler run, misread datagrams included, goes back to an `on`, an `add_server` and the `send` whose data its input was made of |
| UmqtServers.ServersRead | native/src/transport/umqt.rs:535-544 | a `send` reads all servers its process has added for the topic so far, in order, and keeps to them and to its own arguments in every continuation |
| UmqtServers.BeginsIff | native/src/transport/umqt.rs:535-544 | a `send` gets going exactly if its process has added a server for the topic and its id, a 128-bit number, is new |
| UmqtServers.ElectableIff | native/src/transport/umqt.rs:359-385 | who can win a call, in terms of the run: exactly the running processes added for the topic before the `send` whose buffer takes the invite, if the client's takes the vote |
| UmqtServers.EveryServerCanWin | native/src/transport/umqt.rs:596-640 | each server added before a reliable `send` can be the one that receives the message and lets it return, whatever was added before or after it and whoever is down, if the message is small enough for both buffers |
| UmqtServers.SecondServerWins | native/src/transport/umqt.rs:596-640 | a concrete run: the first of two servers is down, the second receives the message and the send returns |
| UmqtOneShot.EndedIffSent | native/src/transport/umqt.rs:411-417 | in every reachable state the task of an unreliable send has ended if and only if its datagram is in the log, with the call's id, topic and bytes and addressed to the winner, if UDP can carry it |
| UmqtOneShot.UnreliableDelivers | native/src/transport/umqt.rs:411-417 | from every reachable state, while some server can win an unreliable send and its buffer takes the data, a constructed schedule of internal steps puts the datagram on the network, has that server receive it whole, and handle it if it has a handler for the topic |
| UmqtOneShot.UnreliableCanBeHandled | native/src/transport/umqt.rs:480-488 | over whole runs: a small unreliable message to a server and a handler registered before the `send` can be handled, whatever else was registered or sent |
| UmqtHandling.HandledPerArrival | native/src/transport/umqt.rs:462-488 | a handler runs at most once per arrival of its message, and exactly once per arrival when registered: duplicates are not removed |
| UmqtHandling.DuplicateIsHandledTwice | native/src/transport/umqt.rs:462-488 | delivering one logged data datagram twice to a registered handler runs it exactly two times |
| UmqtHandling.UnreliableHandledPerDelivery | native/src/transport/umqt.rs:411-417 | an unreliable message is handled no more often than the network delivers its one datagram |
| UmqtRefinement.Refines | native/src/transport/umqt.rs:328-639 | every step is one step of the request Pending, Assigned, Received, Completed, or leaves it alone; phases never go backwards |
| UmqtLiveness.Complete | native/src/transport/umqt.rs:429-461 | a constructed schedule of the steps processes and network take by themselves (no new call, no registration) completes any open reliable send with an able server |
| UmqtLiveness.CompletesIff | native/src/transport/umqt.rs:624-638 | a reliable send can still return if and only if the chosen server, or while none is chosen some server that can win, can take part in the whole exchange |
| UmqtLiveness.NeverStuckIff | native/src/transport/umqt.rs:359-417 | every continuation of a reliable send can still be completed if and only if some server can win it and every server that can win it can also complete it; servers that are down do no harm |
| UmqtLiveness.UnreliableReturnsIff | native/src/transport/umqt.rs:592-607 | an unreliable send can return, and after every continuation still can, if and only if some server can win it |
| UmqtLiveness.ChosenIsElectable | native/src/transport/umqt.rs:375-385 | whoever won had taken the invite, and the client its vote |
| UmqtLiveness.NothingSetsBack | native/src/transport/umqt.rs:328-639 | no step increases either component of what is left of a send, and nothing is left exactly when it has returned |
| UmqtLiveness.OverflowNeverReturns | native/src/transport/umqt.rs:339-348 | a send whose data overflows the winner's buffer never returns |
| UmqtWitness.FreshSendCompletes | native/src/transport/umqt.rs:497-640 | from freshly started processes, adding a server and sending any bytes small enough for both buffers extends by internal steps to a run in which the send returns |
| UmqtWitness.FreshSendStrands | native/src/transport/umqt.rs:339-385 | any server whose buffer takes the invite but not the data can win, and then the send never returns |
| UmqtWitness.TwoThousandBytesStrand | native/src/transport/umqt.rs:339-385 | a concrete run: two thousand bytes to a process with one kilobyte of buffer |
| UmqtWitness.BeyondUdpStrands | native/src/transport/umqt.rs:437-439 | a concrete run: 65500 bytes with a buffer of 64 kilobytes are too large for UDP, and the send never returns |
| UmqtWitness.FreshSendHandledTwice | native/src/transport/umqt.rs:462-488 | from freshly started processes, any reliable message small enough for both buffers can be handled twice |
| UmqtWitness.TenBytesMisread | native/src/transport/umqt.rs:339-489 | a concrete run in which a handler for the empty topic gets ten bytes of a header for a payload |
| RpcWire.DecodeEncode | native/src/rpc/main.rs:165-194 | a consumer gets exactly the id, payload and bytes that were framed if the payload nests at most 126 deep, and refuses the frame otherwise |
| RpcWire.OnTheWire | native/src/rpc/main.rs:608-620 | every frame byte by byte: both lengths, the four keys in order, the payload, the id in quotes, the bytes |
| RpcProcess.BuildFrame | native/src/rpc/main.rs:265-277 | the buffer built by appends is the frame of the message |
| RpcProcess.ReadFrame | native/src/rpc/main.rs:552-559 | what a fresh decoder makes of a frame |
| RpcProcess.Process.constructor | native/src/rpc/main.rs:461-498 | a new process has no consumers, callers or tasks |
| RpcProcess.Process.OnRequests | native/src/rpc/main.rs:505-549 | the request consumer is registered under `req:` and answers under `res:`; nothing else is taken away (`RpcRegistrations.Registrations`) |
| RpcProcess.Process.OnResponses | native/src/rpc/main.rs:551-583 | the response consumer is registered under `res:` |
| RpcProcess.Process.Begin | native/src/rpc/main.rs:586-595 | `send` starts with its own arguments |
| RpcProcess.Process.Register | native/src/rpc/main.rs:597-606 | the caller enters `MAP` before anything is produced |
| RpcProcess.Process.Produce | native/src/rpc/main.rs:486-496 | the topic's consumer is spawned with the frame, or the frame is dropped |
| RpcProcess.Process.SendRequest | native/src/rpc/main.rs:608-626 | the request frame goes to the producer under `req:` |
| RpcProcess.Process.Push | native/src/rpc/main.rs:264-280 | a push goes out under the stream's own topic and request id |
| RpcProcess.Process.RunTask | native/src/rpc/main.rs:514-578 | a spawned consumer decodes its frame and starts the action, or removes the caller from `MAP` and answers it |
| RpcProcess.Process.Receive | native/src/rpc/main.rs:628 | `send` returns what the channel holds |
| Rpc.StepKeepsInv | native/src/rpc/main.rs:486-584 | every step of callers, consumers and actions keeps the invariant of the call table |
| Rpc.ExecKeepsInv | native/src/rpc/main.rs:486-629 | hence every interleaving does |
| RpcRegistrations.Registrations | native/src/rpc/main.rs:476-484 | after any run an object has a request consumer for exactly the topics its `on` registered one for, answering under `res:` of the same name, and a response consumer for exactly those its `on` registered one for |
| RpcRegistrations.NothingElse | native/src/rpc/main.rs:580-583 | the table has no other entries |
| RpcTheorems.RequestTasks | native/src/rpc/main.rs:608-626 | in any run every request task of a call carries the arguments of the `send` that opened it, flag included, under the `req:` topic |
| RpcTheorems.ProduceSpawns | native/src/rpc/main.rs:486-496 | the hand-over of a request spawns exactly one task with that frame if `on` has registered the topic on the same object earlier in the run, and otherwise nothing |
| RpcTheorems.PushSpawns | native/src/rpc/main.rs:264-280 | a push spawns exactly one response with the id and `res:` topic of the call its action was started for if `on` has registered that topic, and otherwise nothing |
| RpcTheorems.Origins | native/src/rpc/main.rs:264-315 | every call goes back to a `send` of the run and every response to a push of the run, contents included |
| RpcTheorems.Correlation | native/src/rpc/main.rs:551-628 | a channel gets at most one message, pushed by an action started for that very call with its own arguments; a call is in `MAP` exactly while registered and unanswered |
| RpcTheorems.InvokedAtMostOnce | native/src/rpc/main.rs:486-496 | a call starts at most one user action in any run, on its own arguments |
| RpcTheorems.Echo | native/src/rpc/main.rs:586-629 | in every interleaving of any number of sends with echoing actions, every send that returns returns its own payload and bytes |
| RpcTheorems.AnswerAccepted | native/src/rpc/main.rs:505-584 | a constructed schedule of the serving side (consumers run, the response topic is registered, the action pushes) answers any accepted request with a readable payload |
| RpcTheorems.ReturnsIff | native/src/rpc/main.rs:486-496 | possibility at the hand-over of the request: some continuation returns the call if and only if `on` has registered its topic on the same object earlier in the run and its payload nests at most 126 deep; what becomes of the response is `RpcResponses` |
| RpcTheorems.RespondedReturns | native/src/rpc/main.rs:551-578 | once a response is spawned, running it and receiving is all that is needed |
| RpcResponses.StepAnswers | native/src/rpc/main.rs:264-315 | a caller stops being unanswered exactly by a push of its own action whose response topic has a consumer at that moment and whose payload nests at most 126 deep |
| RpcResponses.PushSettlesIff | native/src/rpc/main.rs:486-496 | after a push for a waiting caller that nothing else will answer, running what is spawned returns the call if and only if `on` had registered the response side of the topic by then and the pushed payload nests at most 126 deep; otherwise nothing but another push that lands can |
| RpcResponses.WaitingReturnsIff | native/src/rpc/main.rs:551-628 | over whole runs: a waiting call returns by running what is spawned if and only if at some step its action pushed a payload that nests at most 126 deep and `on` had registered the response side of its topic before that step |
| RpcResponses.SettlesIff | native/src/rpc/main.rs:551-628 | a waiting caller returns without further pushes if and only if it is answered or a readable response for it is left to run |
| RpcResponses.EarlyResponseIsLost | native/src/rpc/main.rs:580-583 | a concrete echoing run: the action pushes between the two registrations of `on`, and the caller waits although both topics end up registered |
| RpcResponses.DeepResponseIsLost | native/src/rpc/main.rs:551-576 | a concrete run: a pushed payload of 127 nested arrays is lost although its topic has a consumer |
| RpcTheorems.NoConsumerHangs | native/src/rpc/main.rs:486-496 | a concrete call on a topic nobody registered never returns |
| RpcTheorems.DeepPayloadHangs | native/src/rpc/main.rs:164-179 | a concrete call with 127 nested arrays never returns, although its topic has a consumer |
| Reply.BuildReply | native/src/lib.rs:564-581 | the reply is the frame of context and bytes, or null when that holds a zero byte |
| Reply.ReplyIsNull | native/src/lib.rs:576-579 | a reply is null exactly when the bytes contain a zero byte |
| Reply.ReplyRoundTrip | src/rpc/main.hpp:46-67 | `deserialize` returns exactly the pair that was framed, or throws: for a zero byte, for a length beyond `int`, or for a context too deep for jsoncpp; never a truncated pair |
| Ffi.IdsInOrder | native/src/lib.rs:250-251 | the ids count up from 1 one by one and go from the largest `i32` to the smallest |
| Ffi.SameIdIff | native/src/lib.rs:356 | two tickets of the wrapping counter share an id exactly when they are a multiple of 2^32 apart |
| Ffi.StepKeepsRegistry | native/src/lib.rs:352-390 | without id clashes every step keeps the registry exactly the live callbacks with their own streams |
| Ffi.InsertIff | native/src/lib.rs:358-362 | registering a callback keeps that if and only if no live callback has its id |
| Ffi.InsertWithClash | native/src/lib.rs:358-362 | on a clash the running callback's id leads to the other callback's stream |
| FfiWitness.ClashIsReachable | native/src/lib.rs:352-390 | a run of 2^32 + 1 callbacks reaches a clash while the first still runs, and its next push is answered to the last call instead of its own |
| Ffi.PushIsOwn | native/src/lib.rs:434-449 | a push by a live callback goes out on the stream of its own request |
| Ffi.PushAnswersOwnRequest | native/src/rpc/main.rs:520-541 | that push spawns one response if and only if the `res:` topic of the callback's call has a consumer; the response carries the callback's own request id, that topic and what was pushed, and nothing else changes |
| Ffi.LatePushIsDropped | native/src/lib.rs:440-448 | before the counter wraps, a push after the callback has returned does nothing |
| Ffi.RegistryAlways | native/src/lib.rs:352-390 | the registry is right along every run without clashes, and empty when no handler runs |
| Ffi.NoClashBeforeWrap | native/src/lib.rs:250-251 | a run that draws at most 2^32 ids has no clash |
| Ffi.Refines | native/src/lib.rs:405-450 | every run with foreign handlers is a run of RPC, and an echoing one is an echoing one |
| Ffi.CppEcho | native/src/lib.rs:520-586 | with echoing C++ handlers every send hands its C++ caller exactly its own payload and bytes, or the exception for a zero byte or an oversized length |
| StreamRegistry.Streams.constructor | native/src/lib.rs:250-251 | over a fresh process the counter starts at 1 and the registry is empty: the initial state of the verified border |
| StreamRegistry.Streams.Draw | native/src/lib.rs:356 | drawing an id is the entering step of the callback; the n-th id is that of ticket n, over the wrap from the largest `i32` to the smallest |
| StreamRegistry.Streams.Insert | native/src/lib.rs:358-362 | registering is the registering step of the callback; a registry in order stays in order if and only if no live callback has the id |
| StreamRegistry.Streams.Push | native/src/lib.rs:434-449 | a push by id is the pushing step of the callback; for a live callback of a registry in order it is a push on its own stream in the underlying process |
| StreamRegistry.Streams.Remove | native/src/lib.rs:387-389 | removing is the leaving step of the callback |

## Left out

- UmqtProcess.UMQT.Accept: takes `recv_from`, the decoder and the first lock section or `send_to` of the arm as one step; the receipt touches nothing shared, so a later section only looks like a later delivery.
- UmqtProcess.UMQT.AddServer: an address is an opaque number; name resolution and its error message are not modelled.
- UmqtLiveness.CompletesIff: says that a completing schedule exists, not that a fair scheduler or a real network finds one; time and probability are not modelled.
- RpcTheorems.ReturnsIff: is about possibility, its schedule lets the action push a response, which user code decides; what a given push achieves is stated exactly in `RpcResponses`.
- Reply.ReplyRoundTrip: reads the JSON with the model's parser under jsoncpp's default limit of 1000 levels; the leniency of jsoncpp (comments, trailing text, widths of numbers) is not modelled.
- Notifiers: a `Notify` is the permit of its request id, so the aliasing of the `Arc`s is not modelled; `UmqtSystem.SpawnIsFresh` shows one sender per request.
- Request ids: assumed distinct within a process (a nanosecond clock draws them); two processes may draw the same id.
- Lengths: assumed to be 64-bit `usize` values (`Sized`).
- JSON text: whitespace, fractions, exponents, `-0`, integers beyond 64 bits, surrogate escapes, and the reordering of a payload's object keys by `serde_json`; such text is outside the printed form.
- Error values: the kinds and messages of `std::io::Error` are merged into one constructor per branch.
- `start` and `stop`: binding, shutdown and cancelling the acceptor at an await point end a run; calling `send` before `start` exits the process.
- Send failures: a `send_to` that fails for another reason than its size is a datagram that is never delivered; a `recv_from` error changes nothing.
- Address of an answer: a reply goes to the source address of the datagram, taken to be the address the client sends from.
- Custom transports: `set_producer` and `set_consumer` of RPC; the default in-process producer is modelled, RPC over UMQT is not composed.
- Runtime threads: four workers blocked by nested `send` calls from inside actions can starve; scheduling is not modelled.
- Foreign arguments: pointers, C string lifetimes, UTF-8 and JSON checks of arguments, `c_int` truncation of lengths and the creation and destruction of handles.
- C++ adapters: the static maps of actions, consumers and producers in the headers.
- TLS, compression, loggers and option parsing: unused or without content.
