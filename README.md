# manager-interface, modelled in Dafny

A model of the command-line client that drives a theater server's
management protocol. The client:

- starts a small system of actors,
- opens a channel to the manager actor,
- relays REPL commands to the manager over that channel,
- relays the manager's messages back.

The model covers three source files.

- `src/protocol.rs` (module `Protocol`, `Serde`, with `Json` and `Wire`).
  - The management requests and responses, the front-end commands and
    messages, and the `Display` of `OperationType`.
  - The JSON form serde gives the front-end payloads: externally tagged
    enums, structs as objects, and the `None` fields of
    `BuildEventDetails` skipped.
  - Round trips for every front-end command, and for every front-end
    message whose floats are finite. A progress report with a NaN or
    infinite percentage does not come back.
- `src/repl.rs` (modules `Session`, `SessionProperties`, `Repl`).
  - `handle_connection` as a class `ChannelSession`. `Open` does the
    handshake, `Handle` takes one turn of the `select!` loop, and `Run`
    runs the loop over a sequence of events. Each method is proved against
    the pure `Handshake`, `Step` and `Loop`.
  - `Loop` is proved equal to an event-by-event description of what is
    written, what is delivered and how the session ends.
  - `parse_command`, including `trim` over Unicode white space and
    `trim_start_matches("change ")`.
  - The REPL's input loop as a method over the inputs it reads.
- `src/main.rs` (module `Bootstrap`).
  - The start-up request/response sequence over one framed connection: a
    class `Connection` with a cursor into a script of server replies, and
    one method per `create_store` / `start_*` function.
  - `StartUp` is proved equal to the pure `Boot`.

Events and inputs carry the outcome of the I/O they cause: whether a write
went through, and whether the message queue still takes messages. So every
branch of `handle_connection`'s I/O, of `parse_command` and of the input
loop in `src/repl.rs` is a case of the model, and so is every branch of
start-up in `src/main.rs` except a failed write.

The loop at `src/repl.rs:103-110` never compares the channel id of an
inbound `ChannelMessage` or `ChannelClosed` with the session's own. A
message on another channel is delivered, and a close of another channel ends
the session. `SessionProperties.InboundChannelIdIgnored` and
`SessionProperties.ForeignChannelMessageDelivered` state this.

## Model

| member | source | states |
|---|---|---|
| Protocol.DisplayOperationType | src/protocol.rs:90-99 | the text shown for an operation type is its serde name |
| Protocol.DisplayInjective | src/protocol.rs:90-99 | two operation types display alike exactly when they are equal |
| Protocol.BuildEventTagsDistinct | src/protocol.rs:101-115 | two build event types share a serde tag exactly when they are equal |
| Protocol.CommandAndResponseTagsDisjoint | src/protocol.rs:4-58 | no management request carries the tag of a management response |
| Serde.EncodeCommand | src/protocol.rs:67-76 | a unit command is written as its bare variant name, a change request as an object keyed by its variant name |
| Serde.DecodeCommand | src/protocol.rs:67-76 | a decoded command is the one whose tag the document carries, as a bare string or a tagged object |
| Serde.CommandRoundTrip | src/protocol.rs:67-76 | every front-end command, including a change request's description, decodes back from its JSON form |
| Serde.EncodeCommandInjective | src/protocol.rs:67-76 | distinct commands are written differently |
| Serde.SummariesRoundTrip | src/protocol.rs:153-165 | a list of operation summaries decodes back to itself, in order |
| Json.StringsRoundTrip | src/protocol.rs:131-132 | the `args` string list decodes back to itself |
| Serde.EncodeDetails | src/protocol.rs:117-151 | build event details are written as a JSON object |
| Serde.DetailsFieldSet | src/protocol.rs:117-151 | the details object has a key exactly for each field that is `Some`, and no other key |
| Serde.DecodeDetails | src/protocol.rs:117-151 | details are read only from an object, and an object with none of the field names reads as all fields `None` |
| Serde.DetailsRoundTrip | src/protocol.rs:117-151 | details with a finite `percent_complete` decode back to themselves, with the absent fields `None` |
| Serde.EncodeMessage | src/protocol.rs:160-201 | a message is written as a one-key object keyed by its variant name; `MessageRoundTrip` reads it back |
| Serde.DecodeMessage | src/protocol.rs:160-201 | a decoded message is of the variant named by the document's one key |
| Serde.DecodeMessageDispatch | src/protocol.rs:160-201 | decoding a written message hands its fields to the decoder of the variant its tag names |
| Serde.MessageRoundTrip | src/protocol.rs:160-201 | every front-end message whose floats are finite decodes back to itself |
| Serde.NonFiniteProgressIsUnreadable | src/protocol.rs:176-180 | a progress report with a NaN or infinite percentage does not decode back |
| Session.ClassifyOpenReply | src/repl.rs:61-74 | the handshake yields the channel id exactly on `ChannelOpened`; end of stream gives "Connection closed", a codec error its own reason, an unreadable frame a parse failure, an `Error` reply a rejection carrying the server's message, and any other response "Unexpected response" |
| Session.Handshake | src/repl.rs:48-74 | `OpenChannel` is written exactly when its write goes through, nothing is delivered, and the session runs exactly when the reply opens the channel, on the channel the reply names |
| Session.ChannelSession.Open | src/repl.rs:48-74 | the session after the handshake is the one `Handshake` gives: `OpenChannel` written if the write went through, then the reply classified |
| Session.Step | src/repl.rs:78-121 | one turn keeps the channel, only appends at most one request and one delivery, leaves a stopped session alone, and can fail only on a failed write |
| Session.Loop | src/repl.rs:77-123 | the loop keeps the channel, only appends requests and deliveries, at most one of each per event, leaves a stopped session alone, and can fail only on a failed write |
| Session.ChannelSession.Handle | src/repl.rs:77-123 | one turn of the loop changes the session as `Step` says |
| Session.ChannelSession.Run | src/repl.rs:77-123 | the loop leaves the session as `Loop` says and reports how many events it handled, which is `Handled` |
| Session.HandleConnection | src/repl.rs:42-126 | the status, requests and deliveries of a whole connection are those of `Connection` |
| Session.StepMatchesEvent | src/repl.rs:78-121 | a running turn appends the event's request and delivery and stops exactly on a failed write, a disconnect, a failed delivery, a close, a frame error or end of stream |
| Session.LoopMatchesEvents | src/repl.rs:77-123 | the loop writes the requests and delivers the messages of the events up to the first that stops it, in order, and ends with that event's status |
| Session.Envelope | src/repl.rs:81-96 | a command becomes `CloseChannel` exactly when it is `Disconnect` and `SendOnChannel` otherwise, always on the given channel |
| SessionProperties.EnvelopeCarriesCommand | src/repl.rs:81-96 | a command becomes `CloseChannel` exactly when it is `Disconnect`, else a `SendOnChannel` carrying it intact, always on the session's channel |
| SessionProperties.EmittedAreEnvelopes | src/repl.rs:79-97 | the requests written are the envelopes of the commands taken, one each, in order |
| SessionProperties.Transcript | src/repl.rs:42-126 | after a good handshake: the channel id is the server's, the requests are `OpenChannel` then the commands' envelopes, the deliveries are the decodable channel messages, the status is the first stop |
| SessionProperties.FailedHandshakeStops | src/repl.rs:58-74 | a failed handshake writes `OpenChannel` only if that write went through, delivers nothing, and fails with the write failure or the reply's classification |
| SessionProperties.OpenChannelFirstAndOnce | src/repl.rs:53-59 | `OpenChannel` to the actor is written first, exactly when the write goes through, and never again |
| SessionProperties.RequestsUseChannelId | src/repl.rs:82-94 | every later request is `SendOnChannel` or `CloseChannel` on the opened channel |
| SessionProperties.CommandsArriveInOrder | src/repl.rs:79-97 | request i+1 carries the i-th command taken |
| SessionProperties.DisconnectOnlyLast | src/repl.rs:81-88 | a `Disconnect` can only be the last command taken, and then the session is finished |
| SessionProperties.CloseChannelIsLast | src/repl.rs:81-88 | `CloseChannel` can only be the last request, and the session is then finished |
| SessionProperties.OutcomeRunning | src/repl.rs:77-123 | the loop is still running exactly when no event has stopped it |
| SessionProperties.StillRunning | src/repl.rs:77-123 | a connection is still running exactly when the handshake succeeded and no event stopped the loop |
| SessionProperties.StoppedStaysStopped | src/repl.rs:87-119 | after a `break`, later events change nothing |
| SessionProperties.DisconnectEndsSession | src/repl.rs:81-88 | a written `Disconnect` sends exactly one `CloseChannel` and nothing after it is sent or delivered |
| SessionProperties.InboundChannelIdIgnored | src/repl.rs:103-110 | changing the channel id on inbound `ChannelMessage` / `ChannelClosed` frames changes nothing |
| SessionProperties.HandshakeSucceeds | src/repl.rs:61-74 | `ChannelOpened("c1", Actor("a1"))` opens the session on channel "c1" |
| SessionProperties.HandshakeRejected | src/repl.rs:69-72 | an `Error("actor not found")` reply ends the connection with that message, after `OpenChannel` alone |
| SessionProperties.ForeignChannelMessageDelivered | src/repl.rs:103-108 | a message labelled with another channel's id is delivered all the same |
| SessionProperties.MalformedPayloadTolerated | src/repl.rs:101-108 | an undecodable payload is dropped and the next good message is still delivered |
| Repl.Trim | src/repl.rs:129 | a trimmed line is no longer than the line, neither starts nor ends with white space, and is empty exactly when the line is all white space |
| Repl.StripChange | src/repl.rs:135-137 | what `trim_start_matches("change ")` keeps is a suffix that no longer starts with the prefix |
| Repl.StripChangeDropsCopies | src/repl.rs:135-137 | a line made of any number of copies of `"change "` followed by text that does not start with it is stripped to exactly that text |
| Repl.ParseCommand | src/repl.rs:128-153 | a change request always carries a describable description, and the help is shown exactly for `help` |
| Repl.TrimIgnoresPadding | src/repl.rs:129 | white space added around a line does not change its trim |
| Repl.ParseCommandLine | src/repl.rs:128-153 | each command's typed line parses back to that command |
| Repl.ParseChangeLine | src/repl.rs:135-137 | `change <d>` parses to a change request with description `d` for every describable `d` |
| Repl.ParseRepeatedChange | src/repl.rs:135-137 | any number of leading copies of `"change "` before a describable `d` parse to a change request for `d` |
| Repl.ParseQuit | src/repl.rs:134 | `quit` parses to `Disconnect`, like `exit` |
| Repl.ParseDoubledChange | src/repl.rs:135-137 | `change change x` parses to a change request for `x` |
| Repl.ParseCommandCanonical | src/repl.rs:128-153 | the canonical line of a command that some line parses to parses back to that same command; the line itself need not be canonical |
| Repl.ParseIgnoresPadding | src/repl.rs:129 | white space around a line does not change what it parses to |
| Repl.OnlyKnownLinesParse | src/repl.rs:128-153 | a line gives a command exactly when, trimmed, it is one of `start`, `stop`, `build`, `status`, `exit`, `quit` or starts with `"change "` |
| Repl.UnknownRejected | src/repl.rs:151 | every line whose trim is not a command word, not `help` and not prefixed by `"change "` gets the unknown-command error |
| Repl.NonCommandsRejected | src/repl.rs:135-151 | examples: `help` gives the help error; a bare or padded `change` and the word `launch` give the unknown-command error |
| Repl.HandleInput | src/repl.rs:241-278 | one prompt enqueues what `Enqueue` says and breaks exactly when `Stops` says |
| Repl.InputLoop | src/repl.rs:240-279 | the loop enqueues `Enqueued(inputs)` and stops at the first input that stops it, or reads every input |
| Repl.DisconnectEnqueuedLast | src/repl.rs:248-253 | `Disconnect` can only be the last command enqueued |
| Repl.EnqueuedAreParses | src/repl.rs:243-258 | while only lines are read and the queue is open, the commands enqueued are the successful parses, up to the first `Disconnect` |
| Repl.EnqueuedAppend | src/repl.rs:240-279 | inputs that do not stop the loop leave the rest to the inputs after them |
| Repl.InterruptDisconnects | src/repl.rs:266-273 | Ctrl-C or Ctrl-D enqueues `Disconnect` if the queue takes it, and nothing after it is read |
| Repl.FailedEnqueueStops | src/repl.rs:254-257 | a command the queue refuses ends the loop with nothing more enqueued |
| Repl.UnparsedLineSkipped | src/repl.rs:259-263 | a line that does not parse, `help` included, enqueues nothing and the loop goes on |
| Bootstrap.Boot | src/main.rs:170-231 | start-up never reads more replies than it has written requests, and fails if it writes nothing |
| Bootstrap.StoreReply | src/main.rs:35-56 | `create_store` succeeds exactly on `StoreCreated`, with its id; no reply and any other response are their own errors |
| Bootstrap.StartedReply | src/main.rs:71-89 | each `start_*` succeeds exactly on `ActorStarted`, with its id; no reply and any other response are their own errors |
| Bootstrap.InfoReply | src/main.rs:203-217 | the health check's reply is accepted exactly when it is a `RequestedMessage` |
| Bootstrap.CreateStore | src/main.rs:35-56 | writes `NewStore`, reads one reply and classifies it |
| Bootstrap.StartContentFs | src/main.rs:58-90 | writes the content-fs `StartActor` with the store id, reads one reply and classifies it |
| Bootstrap.CheckHealth | src/main.rs:203-217 | writes the `get-info` request; as written reads nothing, corrected reads and checks one reply |
| Bootstrap.StartActorUploader | src/main.rs:92-126 | writes the uploader `StartActor` with the content-fs id, reads one reply and classifies it |
| Bootstrap.StartManagerActor | src/main.rs:128-168 | without an API key fails before writing anything; else writes the manager `StartActor`, reads one reply and classifies it |
| Bootstrap.StartActors | src/main.rs:219-231 | the uploader (for a new store only) and the manager, as the last stage of `Boot` says |
| Bootstrap.StartServices | src/main.rs:201-231 | content-fs, its health check and the later actors, as the stage of `Boot` after the stores says |
| Bootstrap.StartUp | src/main.rs:170-231 | the outcome, the requests written and the replies read are those of `Boot` |
| Bootstrap.Launch | src/main.rs:170-231 | start-up over a fresh connection returns `Boot`'s outcome and requests |
| Bootstrap.MissingStoreArgsSendsNothing | src/main.rs:182-191 | without `--new-store` or `--store-id` start-up fails before writing or reading anything |
| Bootstrap.StoreIdsChosen | src/main.rs:182-205 | a successful start-up takes the store ids from the flags or from the `StoreCreated` replies, the content-fs id from the next reply, and starts the uploader exactly for a new store |
| Bootstrap.RequestOrder | src/main.rs:170-231 | a successful start-up had an API key, wrote exactly the planned requests in order, and read one reply fewer than it wrote |
| Bootstrap.HonestServerNeverReady | src/main.rs:203-231 | as written, against a server that answers every request in order, start-up fails with "Unexpected response type" |
| Bootstrap.ContentFsMisread | src/main.rs:203-231 | as written, against a server answering in order, once content-fs has started the next actor step reads the health check's `RequestedMessage` and fails with "Unexpected response type" |
| Bootstrap.HonestServerReadyOnceHealthReplyRead | src/main.rs:203-231 | reading the health reply, start-up succeeds against every such server, writing the planned requests and reading one reply for each |
| Bootstrap.HealthReplyTakenForManager | src/main.rs:194-231 | with an existing store and build store, the manager step reads the health check's reply as written, and gets its own reply once corrected |

## Left out

- The TCP connection, the length-delimited codec and its 32 MiB frame limit. An inbound frame is either a decoded `ManagementResponse` or undecodable bytes, and a read is a frame, a codec error or end of stream.
- The byte-level JSON text of serde_json: whitespace, escapes and number formatting. Payloads are modelled as JSON values or as bytes that do not parse. Serde's alternative array form of struct variants is not accepted by the decoders.
- `f32` arithmetic. Floats are bit patterns, and only finiteness matters (serde_json writes NaN and infinities as `null`).
- Concurrency: `tokio::select!`, the spawned connection task, the display task and the bounded `mpsc` queues. The loop sees an arbitrary sequence of ready events, and each event says whether its write or delivery went through.
- `display_message` and the display task: they only print.
- `rustyline` history, `clap` parsing and the `--address` flag. The API key from `ANTHROPIC_API_KEY` is a parameter.
- `ChannelRepl::new`: it only connects and spawns `handle_connection`.
- Decoding a `ManagementCommand` and encoding a `ManagementResponse`: the client only writes requests and only reads responses, so the model has neither. `Protocol.CommandAndResponseTagsDisjoint` only records that no request variant shares its name with a response variant.
- Serialisation failures of `serde_json::to_vec`: they cannot happen for these types.
- Failed writes during start-up: `framed.send` there is taken to succeed.
- Repl.InputLoop: it stops when the scripted inputs run out, where the REPL would wait at the prompt.
- Repl.IsWhitespace: it lists the Unicode `White_Space` code points by hand rather than from a Unicode table.

## Findings

| source | as written | input that shows it | evidently intended | confidence | as-written member | corrected member |
|---|---|---|---|---|---|---|
| src/main.rs:203-231 | the health check `RequestActorMessage` is written, but its reply is never read, so the next step reads it as its own reply | `--store-id rt --build-store-id bs` against a server answering `ActorStarted("fs")`, `RequestedMessage("fs", ..)`, `ActorStarted("mgr")`: `start_manager_actor` reads the `RequestedMessage` and fails with "Unexpected response type" | read and check the health check's reply before starting the next actor | high, not executed | Bootstrap.HonestServerNeverReady | Bootstrap.HonestServerReadyOnceHealthReplyRead |
