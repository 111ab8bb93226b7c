# ProtoSocket-RS core, modelled in Dafny

ProtoSocket-RS is a small TCP message server written in Rust. Each connection
carries length-delimited frames. Each frame holds a protocol-buffer
`MessageTransport` envelope: an optional `Any` payload (type URL plus bytes)
and an optional acknowledgement id. This project models the sequential logic
of the server and proves properties of it:

- `decimal.dfy` (module `Decimal`): the decimal text of a `u16` port, with its parser, the round trip and the digit bounds.
- `server_socket.dfy` (module `ServerSocket`), for `src/server_socket.rs`:
  - `SocketOptions` and the address text `get_socket_address` builds.
  - `ChannelContext`, a class whose ghost `outbox` records every envelope the connection was asked to send.
  - `process_frame`, with three outcomes: processed, decode error, or a panic on a missing payload.
  - One pass of `process_stream`'s receive loop over a finite sequence of frame results. `ProcessStream` is the loop; `Run` is its specification.
- `message_handler.dfy` (module `MessageHandler`), for `src/server_socket/message_handler.rs`:
  - the `MessageHandler` class over a `map<string, Listener>`;
  - `handle_message`;
  - `MessageContext` with `reply` and `send_message`;
  - `MissingListenerError` and its `Display`/`Debug` text.
- `proto.dfy` (module `Proto`): the `Any` and `MessageTransport` records. The generated prost encoder and decoder are a `Codec` value passed in from outside. `RoundTrip(c)` states the one assumption made about them: decoding an encoding gives back the envelope. It is a predicate and is only ever used as a `requires`.
- `wrappers.dfy` (module `Wrappers`): Rust-style `Option` and `Result`.

Behaviour of the code worth noting:
- A message whose type URL has no listener is an error (`MissingListenerError`).
- `reply` with an absent acknowledgement id is not rejected. It sends an envelope without an id.
- A framing error is logged and the loop goes on. The connection is not closed.
- A missing payload is not skipped like a decode error: `unwrap` panics, and the panic ends that connection's task. `Run` and `ProcessStream` stop at that frame.
- `handle_message` returns `Ok(())` in the source. The model returns `Ok(Dispatch(listener, context))` instead: the listener it looked up and the `MessageContext` it built. The source builds both values but never uses them, because the listener call is commented out.

## Model

| member | source | states |
|---|---|---|
| `Decimal.DecimalString` | src/server_socket.rs:39 | the port's text is a non-empty string of decimal digits with no leading zero |
| `Decimal.ParseDecimalString` | src/server_socket.rs:39 | reading the decimal text of n back gives n |
| `Decimal.DecimalStringInjective` | src/server_socket.rs:39 | distinct ports have distinct decimal texts |
| `Decimal.DecimalStringLength` | src/server_socket.rs:39 | a number below 10^k has at most k digits |
| `Decimal.U16DecimalString` | src/server_socket.rs:18 | the text of a u16 port has one to five characters and no ':' |
| `ServerSocket.SocketOptions.New` | src/server_socket.rs:22-27 | the options hold exactly the given bind address and port |
| `ServerSocket.SocketOptions.WithPort` | src/server_socket.rs:29-34 | the options hold bind address "127.0.0.1" and the given port |
| `ServerSocket.SocketOptions.GetSocketAddress` | src/server_socket.rs:36-40 | the string built by appending to a copy of the bind address is bind address, ':', decimal port |
| `ServerSocket.AddressTextSplits` | src/server_socket.rs:36-40 | splitting the address text at its last ':' recovers the bind address (even one containing ':') and a decimal text that denotes the port |
| `ServerSocket.AddressTextInjective` | src/server_socket.rs:36-40 | different options never produce the same address text |
| `ServerSocket.ChannelContext.constructor` | src/server_socket.rs:114-118 | a new channel has sent nothing and satisfies the channel invariant |
| `ServerSocket.ChannelContext.SendMessageAck` | src/server_socket.rs:126-133 | exactly one envelope, with payload Some(msg) and the given acknowledgement id, is added to the end of the outbox; the result is Ok; every envelope in the outbox has a payload |
| `ServerSocket.ChannelContext.SendMessage` | src/server_socket.rs:121-123 | the same as SendMessageAck with acknowledgement id None |
| `ServerSocket.ProcessFrame` | src/server_socket.rs:93-105 | a decode error comes back as that error; a decoded envelope without payload panics; one with a payload gives Ok (each stated in both directions) |
| `ServerSocket.EncodedFrameIsProcessed` | src/server_socket.rs:93-105 | assuming the codec round trip, the encoding of an envelope with a payload is processed without error or panic |
| `Proto.DefaultTransport` | src/server_socket.rs:127 | the default envelope has neither a payload nor an acknowledgement id |
| `ServerSocket.FramingLine` | src/server_socket.rs:85 | the log line for a framing error: "Error while framing input stream; " then the error text |
| `ServerSocket.ProcessingLine` | src/server_socket.rs:80 | the log line for a processing error: "Error while processing packet; " then the error text |
| `ServerSocket.Step` | src/server_socket.rs:74-87 | one frame's effect on the loop: exactly an Ok frame is handed to process_frame; the log line is the framing line of a framing error or the processing line of a decode failure, and nothing otherwise; the run ends exactly when process_frame panics |
| `ServerSocket.Run` | src/server_socket.rs:73-88 | one pass of the loop over a finite frame sequence, the steps in order and cut off after the first panic: the frames handed to process_frame and the framing errors together never outnumber the frames read |
| `ServerSocket.ProcessStream` | src/server_socket.rs:69-90 | the loop's log lines, the frames it passes to process_frame, and whether it panicked are those of Run over the frame sequence |
| `ServerSocket.RunAppend` | src/server_socket.rs:73-88 | reading a then b is reading a + b: errors never end the pass early, and only a panic cuts it short |
| `ServerSocket.RunPanicsIff` | src/server_socket.rs:73-95 | the pass ends in a panic exactly when some delivered frame decodes to an envelope without payload |
| `ServerSocket.RunWithoutPanic` | src/server_socket.rs:73-88 | without a panic, every frame is visited in order: exactly the Ok frames go to process_frame, in order, and the log is, in frame order, the framing line of each framing error and the processing line of each decode failure |
| `ServerSocket.RunStopsAtPanic` | src/server_socket.rs:73-95 | at the first panicking frame the pass ends; the log is that of the frames before it, and the frames handled are the Ok frames before it plus the panicking one |
| `ServerSocket.EncodedStreamRunsClean` | src/server_socket.rs:73-105 | assuming the codec round trip, a stream of encoded envelopes that all carry payloads logs nothing, never panics, and hands every frame to process_frame |
| `ServerSocket.OutboxRunsClean` | src/server_socket.rs:126-131 | assuming the codec round trip, a peer reading the encodings of everything a channel sent sees no log line and no panic |
| `MessageHandler.MessageContext.Reply` | src/server_socket/message_handler.rs:51-53 | the reply is one envelope added to the channel's outbox, carrying the context's acknowledgement id unchanged (None included, not rejected) |
| `MessageHandler.MessageContext.SendMessage` | src/server_socket/message_handler.rs:55-57 | the message is one envelope added to the outbox, with acknowledgement id None |
| `MessageHandler.MissingListenerError.Display` | src/server_socket/message_handler.rs:72-76 | the text is "Missing listener for ", then the type URL, then " message!" |
| `MessageHandler.MissingListenerError.Debug` | src/server_socket/message_handler.rs:78-82 | the Debug text equals the Display text |
| `MessageHandler.DisplayInjective` | src/server_socket/message_handler.rs:72-76 | the type URL can be read back from the error text, so different URLs give different texts |
| `MessageHandler.MessageHandler.constructor` | src/server_socket/message_handler.rs:17-21 | a new handler has no listeners |
| `MessageHandler.MessageHandler.AddListener` | src/server_socket/message_handler.rs:24-27 | the URL now maps to the new listener, replacing any earlier one; the key set grows by exactly that URL; every other entry is unchanged |
| `MessageHandler.MessageHandler.HandleMessage` | src/server_socket/message_handler.rs:30-42 | it fails exactly when no listener is registered for the type URL, with an error naming that URL; otherwise it returns the registered listener and a context with the given channel and acknowledgement id; it only reads the registry |
| `MessageHandler.NewHandlerRejects` | src/server_socket/message_handler.rs:17-32 | on a fresh handler every message is rejected with MissingListenerError naming its type URL |
| `MessageHandler.LastRegistrationWins` | src/server_socket/message_handler.rs:24-42 | after registering first, then a listener for another URL, then second, dispatch of the URL yields second |
| `MessageHandler.ReplyCarriesAcknowledgementId` | src/server_socket/message_handler.rs:30-53 | a reply through the context that handle_message built sends one envelope carrying the incoming message's acknowledgement id |

## Left out

- `ServerSocket::start` (src/server_socket.rs:50-66) is left out. It binds a TCP listener, accepts connections and spawns a task per connection: network I/O and concurrency.
- The outer `loop` of `process_stream` is left out. After the frame stream ends it polls again forever. Only one pass over a finite sequence of frame results is modelled, and `async`/`await` is not modelled.
- `LengthDelimitedCodec`/`Framed` framing is left out. Its format lives in tokio_util, which is not part of this model. Frame results come in as a sequence of `Ok(bytes)` or `Err(FramingError)`.
- The prost encoding and decoding of `MessageTransport` is left out, because it is generated code. It is a `Codec` parameter. The only assumption made about it is `RoundTrip`, stated as a `requires` of the lemmas that need it.
- The text of a prost decode error and of a framing error is not modelled. Each is an opaque description string that the log line includes.
- Parsing the address with `SocketAddr::from_str` (src/server_socket.rs:40) is left out, because it is a standard-library call. `GetSocketAddress` returns the string that would be handed to it.
- `ServerSocket.ChannelContext.SendMessageAck`: the outbox records what the method asked to send. The source drops the send future without awaiting it (src/server_socket.rs:131). So no bytes are written, and the encoding of line 130 is not recorded.
- Calls to the listener closure are not modelled, because the call is commented out (src/server_socket/message_handler.rs:40). Listeners are stored and compared, never applied.
- Dispatch from `process_frame` to the message handler is not modelled. That call is commented out in the source (src/server_socket.rs:97-103), so `ProcessFrame` never consults a registry.
- Concurrency-safety of the registry is left out. The source has no locks: `MessageHandler` is a plain `HashMap` used through `&mut self` / `&self`.
- Logging to standard error is modelled as the sequence of lines `eprintln!` would write.
- `build.rs` (a filesystem walk for the build) and the tests in `src/lib.rs` are left out. The tests refer to members that do not exist in the code.
