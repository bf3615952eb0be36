# WebSocket-to-MQTT bridge: command protocol, client session and hub

This project models the core of a Go server that bridges WebSocket clients to
an MQTT broker (`cmd/mqtt/client.go` and `cmd/mqtt/hub.go`). It proves
properties of the model in Dafny. There are two parts.

- **The text command protocol of a session.** `readPump` normalises every
  inbound frame: newlines become spaces and the ends are trimmed.
  `processWsMsg` then splits the line at its first space into a verb and its
  parameters. `sub <topic>` subscribes. `pub <topic> <payload>` publishes
  through `publish`. Any other verb is refused. The broker is reduced to the
  list of calls it is asked to make (`BrokerCall`). Whether a call's token
  reports an error is a parameter (`brokerFails`). An error leads to the
  outcome `Panicked`, which stands for the source's `panic`.
- **The session's send channel and the hub.** A `Client` owns a send channel
  of capacity 256. It is modelled as a sequence of pending messages plus a
  `closed` flag, with Go's channel rules:
  - a blocking send on a closed channel panics;
  - a blocking send on a full channel waits;
  - buffered messages are still received after the channel is closed;
  - closing a closed channel panics.

  One `writePump` iteration (`WriteStep`) sends the first queued message and
  every message queued behind it as one frame, separated by newlines. A
  closed, drained channel yields the close frame. The `Hub` owns the set of
  registered clients. It serves register, unregister and broadcast requests
  as atomic steps. A broadcast never blocks: a client whose channel is full
  is closed and removed.

Files: `text.dfy` (module `Text`, the Go string helpers the core uses),
`protocol.dfy` (module `Protocol`), `client.dfy` (module `Session`),
`hub.dfy` (module `Registry`).

Behaviour of the code that is easy to miss:
- The reply of `readPump` goes through a blocking send (`c.send <- …`),
  not a best-effort one. If the hub has already closed the channel, that
  send panics. `Client.ReadStep` reports these cases as `Blocked` and
  `SendOnClosed`.
- The verb is split off at the first space character only. A tab does not
  separate the verb from its parameters.
- The hub's broker handler appends a newline to the `rcv` line it
  broadcasts. The per-client handler does not.

## Model

| member | source | states |
|---|---|---|
| Text.IndexOf | cmd/mqtt/client.go:94 | the result is -1 exactly when the character does not occur; otherwise it is the position of its first occurrence |
| Text.TrimSpace | cmd/mqtt/client.go:90 | the result has no white space (Go's unicode.IsSpace) at either end |
| Text.TrimSpaceInfix | cmd/mqtt/client.go:90 | the trimmed string is the infix of the input between a prefix and a suffix that are all white space |
| Text.TrimSpaceKeeps | cmd/mqtt/client.go:259 | trimming keeps no character that was not in the input |
| Text.TrimmedIsFixed | cmd/mqtt/client.go:90 | a string with no white space at its ends is unchanged by trimming |
| Text.TrimSpaceIdempotent | cmd/mqtt/client.go:90 | trimming twice is trimming once |
| Text.CutAt | cmd/mqtt/client.go:94-100 | with no separator the first part is the whole line and the second is empty; otherwise the line is first part + separator + second part, and the first part holds no separator |
| Text.CutAtFirst | cmd/mqtt/client.go:94-100 | a separator-free prefix followed by the separator is split off exactly there |
| Text.ReplaceNewlines | cmd/mqtt/client.go:79 | every newline becomes a space, every other character is kept, and no newline is left |
| Protocol.Normalize | cmd/mqtt/client.go:79 | a normalised frame holds no newline and has no white space at either end |
| Protocol.NormalizeThenTrim | cmd/mqtt/client.go:90 | the second trim in processWsMsg leaves a normalised frame unchanged |
| Protocol.Publish | cmd/mqtt/client.go:257-281 | no space in the trimmed parameters gives exactly the reply "publish message not found" with no broker call; otherwise one publish call whose topic (space-free) and payload rebuild the parameters, with QoS 1 and no retain whatever the arguments say, the reply "pub topic payload", or a panic exactly when the broker fails |
| Protocol.ProcessWsMsg | cmd/mqtt/client.go:89-111 | at most one broker call; a panic only when the broker fails; a reply is never empty; a verb other than sub and pub gives "err unrecognized command" and no call; sub makes exactly one subscribe call on its parameters at QoS 1 and then replies "info subscribed to <parameters>", or panics after that call when the broker fails; pub behaves exactly as publish on its parameters with QoS 1 and no retain |
| Protocol.SubscribeCommand | cmd/mqtt/client.go:103-105 | for any t not ending in white space, the line "sub " + t subscribes to exactly t (leading white space included) and replies "info subscribed to " + t, or panics after the call when the broker fails; with t empty this is the line "sub " |
| Protocol.PublishCommand | cmd/mqtt/client.go:257-280 | round trip: `pub t p` (t space-free, p not ending in white space) publishes p to t at QoS 1 without retain and replies with the command itself |
| Protocol.PublishWithoutPayload | cmd/mqtt/client.go:259-264 | for every t with no space character (tabs and other white space allowed, at either end too), the line "pub " + t replies "publish message not found" and makes no broker call |
| Protocol.PublishTabExample | cmd/mqtt/client.go:94-99 | "pub", a space, a tab and "x" trims its parameters to "x", finds no space and replies "publish message not found" with no call |
| Protocol.PublishReplyReplays | cmd/mqtt/client.go:266-271 | the reply to a successful publish is itself a command that makes the same publish call and gets the same reply |
| Protocol.ReplyHasNoNewline | cmd/mqtt/client.go:79-110 | a reply to a newline-free line holds no newline |
| Protocol.PublishExample | cmd/mqtt/client.go:106-107 | "pub topic1 hello world" publishes "hello world" to topic1 and echoes the command |
| Protocol.PublishWithoutPayloadExample | cmd/mqtt/client.go:262-264 | "pub topic1" publishes nothing and replies "publish message not found" |
| Protocol.BareSubscribeExample | cmd/mqtt/client.go:94-105 | the bare line "sub", with no space, subscribes to the empty topic and replies "info subscribed to " |
| Protocol.SpacedSubscribeExample | cmd/mqtt/client.go:94-105 | "sub  x" splits at the first space only and subscribes to " x" |
| Protocol.SpacedPublishExample | cmd/mqtt/client.go:257-271 | "pub t  p" splits the parameters at their first space and publishes the payload " p" to t |
| Protocol.SubscribeExample | cmd/mqtt/client.go:103-105 | "sub sensors/+" subscribes to sensors/+ and replies "info subscribed to sensors/+" |
| Protocol.UnrecognizedExample | cmd/mqtt/client.go:108-109 | "frobnicate" replies "err unrecognized command" with no broker call |
| Protocol.RcvLine | cmd/mqtt/client.go:225 | the relayed line is "rcv ", then the topic, one space and the payload, each at its own position |
| Protocol.RcvLineFields | cmd/mqtt/client.go:225 | a relayed line splits into the verb rcv and "topic payload"; when the topic has no space, topic and payload are recovered |
| Session.Join | cmd/mqtt/client.go:139-146 | a coalesced frame starts with the first queued message and holds a newline whenever it holds more than one message |
| Session.JoinEndsWithLast | cmd/mqtt/client.go:143-146 | a coalesced frame ends with the last queued message |
| Session.JoinSnoc | cmd/mqtt/client.go:143-146 | appending a newline and one more message to a frame is the frame of the longer message list |
| Session.SplitLines | cmd/mqtt/client.go:139-146 | the pieces are newline-free and joining them with newlines gives back the frame text |
| Session.SplitJoin | cmd/mqtt/client.go:139-146 | a frame of newline-free messages splits back into exactly those messages, in order |
| Session.RepliesSurviveCoalescing | cmd/mqtt/client.go:79-146 | a coalesced frame of command replies splits back into those replies, in queue order |
| Session.Client.constructor | cmd/mqtt/client.go:167-168 | a new session has an empty, open send channel and no broker calls |
| Session.Client.TrySend | cmd/mqtt/hub.go:60-64 | the send succeeds exactly when the channel has room; then the message is at the tail, otherwise nothing changes |
| Session.Client.Send | cmd/mqtt/client.go:82 | a blocking send panics on a closed channel, waits on a full one (nothing changes), and otherwise appends the message at the tail |
| Session.Client.Close | cmd/mqtt/hub.go:56 | closing requires an open channel and leaves it closed |
| Session.Client.Receive | cmd/mqtt/client.go:127 | the oldest buffered message is delivered and removed |
| Session.Client.ReadStep | cmd/mqtt/client.go:71-85 | the broker calls of the normalised command are appended to the call log; a broker failure panics without sending; otherwise the reply goes through the blocking send, with its three outcomes |
| Session.Client.OnMessage | cmd/mqtt/client.go:224-228 | the line "rcv topic payload", with no trailing newline, goes through the blocking send |
| Session.Client.WriteStep | cmd/mqtt/client.go:125-150 | a non-empty queue is drained completely into one text frame: the messages in FIFO order separated by newlines; an empty closed queue gives the close frame; an empty open one gives nothing |
| Registry.Hub.constructor | cmd/mqtt/hub.go:32-41 | a new hub has no clients |
| Registry.Hub.Register | cmd/mqtt/hub.go:51-52 | the client becomes a member; every member's channel stays open and within capacity |
| Registry.Hub.Unregister | cmd/mqtt/hub.go:53-57 | a member is removed and its channel closed, with its queue kept; a non-member is left unchanged, so no channel is closed twice |
| Registry.Hub.Broadcast | cmd/mqtt/hub.go:58-66 | no member is added; each member with room gets the message at the tail and stays; each member with a full channel is removed and its channel closed, queue unchanged; clients outside the hub are untouched |
| Registry.Hub.OnMessage | cmd/mqtt/hub.go:119-137 | the line "rcv topic payload" plus a trailing newline is broadcast, with the broadcast's outcome per member; no member's broker calls change |
| Registry.ServeWs | cmd/mqtt/client.go:161-177 | a fresh session with an empty open channel is created and registered, and the hub's invariant holds |

## Left out

- WebSocket upgrade, read and write deadlines, the ping ticker and the pong handler (cmd/mqtt/client.go:19-31, 68-70, 119, 151-155): these are timers and library I/O. The 512-byte read limit is the precondition `|frame| <= MaxMessageSize` of `Client.ReadStep`, counted in characters.
- Frames are strings of characters, not byte slices. Invalid UTF-8 is not modelled.
- Connection errors: `ReadMessage`, `NextWriter` and `w.Close` failures end a pump. This is I/O and is not modelled. `WriteStep` assumes the write succeeds.
- The deferred cleanup of the pumps: the unregister request is `Hub.Unregister`. `conn.Close()` and `Disconnect(250)` are library calls and are not modelled.
- Broker connection setup (`connect_mqtt`, cmd/mqtt/client.go:184-220, hub.go:70-104), the hub's subscription to `#` (hub.go:149-162) and the connect and connection-lost handlers: configuration and a foreign library. The panic on a failed connect is not modelled.
- Logging with `fmt.Print*` and `log.Printf`: output only.
- cmd/mqtt/mqtt_monitor.go and cmd/mqtt/utility.go: file I/O, JSON decoding and an endless sleep, with no logic to state.
- Concurrency: the `select` statements of `Hub.run` and `writePump`, and goroutine scheduling. Each hub case and each pump iteration is one atomic step. `Client.Send`, `Client.OnMessage` and `Client.WriteStep` report a step that would block as `Blocked` or `NoFrame` and change nothing. `Client.ReadStep` on a full channel has already made and logged its broker calls when it reports `Answered(Blocked)`. The reply it would wait to send is not kept. The caller resumes with `Send(ProcessWsMsg(Normalize(frame), brokerFails).reply)`, which delivers it once the channel has room, or panics if the hub closes the channel meanwhile.
- Client.WriteStep: `n := len(c.send)` is read after the first receive, and no producer runs during the step. So the frame drains the whole queue. The source only promises to drain the `n` messages present at that moment.
- Registry.Hub.OnMessage: the source hands the line to the run loop over the unbuffered `broadcast` channel. Here the broadcast is called directly.
- Registry.Hub.Register: requires the client's channel to be open. serveWs only registers sessions it has just created.
