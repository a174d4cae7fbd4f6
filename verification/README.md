# Ember+ command encoder and S101 socket session, in Dafny

This project models two parts of an Ember+ client library (node-emberplus):

- **The command encoder** (`src/encoders/ber/Command.ts`). It writes an Ember+ command onto a BER writer using the tag layout of the Ember+ Glow DTD. The outer element is `APPLICATION(2)`. Inside it come `CONTEXT(0)` with the command number, an optional `CONTEXT(1)` with the directory field-mask code, and an optional `CONTEXT(2)` with an `APPLICATION(22)` invocation. The invocation holds its positional arguments in `CONTEXT(1){SEQUENCE{CONTEXT(0){value}...}}`.
- **The S101 socket session** (`src/Ember/Socket/S101Socket.ts`). It holds one TCP connection, the connection status, the keepalive interval timer and the events it emits. It also handles the S101 codec's callbacks.

Files:

- `wrappers.dfy`: the `Option` datatype.
- `ber_writer.dfy` (module `BerWriter`) covers the writer as the encoder sees it: a `Writer` class whose state is the log of calls made to it (`startSequence`, `writeInt`, `writeValue`, `endSequence`). It also has TLV trees, `Flatten` (a tree to the calls that write it) and `Decode` (calls back to trees). The module proves the round trip `Decode(Flatten(t)) == Some([t])`. It also proves that every flattened tree is balanced: no prefix closes more sequences than it opened, and the whole log closes all it opened.
- `command.dfy` (module `CommandEncoder`) has the encoder methods. `EncodeCommand` and `EncodeInvocation` are proved to append exactly the calls of a reference tree, `CommandTree` or `InvocationTree`. The helpers `WriteDirFieldMask` and `WriteArguments` are proved to append the mask code and the argument calls (`ArgumentCalls`), and `ArgumentCallsFlatten` ties the latter to the argument elements. The module states the layout's properties as lemmas about these trees. It also has a reader (`CommandOf`) that recovers every field the encoder writes.
- `s101_socket.dfy` (module `S101Session`) has the `S101Socket` class with the source's fields, and a `DisconnectPromise` class for the state of the promise that `disconnect` returns. Short client methods at the end show how events combine over several calls.

Modelling choices:

- The socket is a `Peer` value: remote address, remote port, and whether its `write` throws. What the session asks of it is the log `socketCalls` (`Write(frame)`, `End`).
- The S101 codec is a `Codec` value, passed to the constructor. It holds `encodeBER` as an opaque function (frames, or an exception) and the two fixed keepalive frames. `berDecode` is likewise an opaque function passed to the constructor.
- Timers are handles. An interval is running while its handle is in `runningIntervals`. `keepaliveIntervalTimer` holds the last handle that `startKeepAlive` stored, until `disconnect` clears it.
- The codec's `'keepaliveReq'` and `'emberPacket'` notifications are methods that the environment calls: `OnKeepaliveReq` and `OnEmberPacket`. So are the socket's `'close'` and `'error'` events: `OnSocketClose` and `OnSocketError`.
- `CommandType.GetDirectory` is 32 and `CommandType.Invoke` is 33, as in the Glow DTD. `FieldFlags` is taken as a string-valued enumeration. Every mask, `Sparse` included, is therefore truthy, and the test `dirFieldMask` means "a mask is present".
- Argument values of an invocation are of an arbitrary type `V`. Tags are a class (universal, application, context) plus a number.

Behaviour of the code that the model keeps as written:

- `disconnect` never rejects. Both the timer and the end callback call `cb` without the second (`error`) argument, so the timeout resolves.
- `disconnect` sets `status` but keeps `socket` until the socket's close event. A second `disconnect` before that event calls `end` again.
- `handleClose` stops the keepalive interval but leaves its handle in `keepaliveIntervalTimer`. The close handler stays bound to the original socket. So a failed write followed by the socket's close event emits `'disconnected'` twice.
- An unrecognised command number is not rejected: only `CONTEXT(0)` is written.
- `pendingRequests` and `activeRequest` keep their initial values, because no code changes them.

## Model

| member | source | states |
|---|---|---|
| `CommandEncoder.IsInvoke` | src/encoders/ber/Command.ts:28-30 | the invocation guard holds only when the number is Invoke, so never for a directory request |
| `CommandEncoder.IsGetDirectory` | src/encoders/ber/Command.ts:32-34 | the directory guard holds only when the number is GetDirectory, and never together with the invocation guard |
| `CommandEncoder.CommandGuardsDecideItems` | src/encoders/ber/Command.ts:12-22 | CONTEXT(1) is written only under the directory guard and CONTEXT(2) only under the invocation guard; a command that passes neither guard is written as its number alone |
| `CommandEncoder.MaskCode` | src/encoders/ber/Command.ts:36-48 | every field mask's wire code lies in 0..7 |
| `CommandEncoder.FlagOfCode` | src/encoders/ber/Command.ts:37-46 | inverse of the mask table: defined exactly for codes 0..7, and maps each back to the mask with that code |
| `CommandEncoder.MaskCodeInjective` | src/encoders/ber/Command.ts:37-46 | each mask is recovered from its code, so no two masks share a code |
| `CommandEncoder.WriteDirFieldMask` | src/encoders/ber/Command.ts:36-49 | appends exactly one integer call, holding the mask's code |
| `CommandEncoder.ArgumentCallsFlatten` | src/encoders/ber/Command.ts:60-64 | the calls of the argument loop are exactly the flattened CONTEXT(0) argument elements, in list order |
| `CommandEncoder.WriteArguments` | src/encoders/ber/Command.ts:60-64 | the loop appends one CONTEXT(0){value} element per argument, in list order, and nothing else |
| `CommandEncoder.InvocationTraceSplit` | src/encoders/ber/Command.ts:51-69 | the invocation's calls are: APPLICATION(22), then the id item if the id is present, then CONTEXT(1) and SEQUENCE, then the argument calls, then three closings |
| `CommandEncoder.EncodeInvocation` | src/encoders/ber/Command.ts:51-69 | appends exactly the calls that write the invocation's APPLICATION(22) element |
| `CommandEncoder.EncodeCommand` | src/encoders/ber/Command.ts:5-26 | appends exactly the calls that write the command's APPLICATION(2) element, and nothing else |
| `CommandEncoder.EncodeCommandShape` | src/encoders/ber/Command.ts:5-26 | the calls are balanced and decode to exactly one element: an APPLICATION(2) whose first item is CONTEXT(0) holding the command number |
| `CommandEncoder.CommandOptionalItems` | src/encoders/ber/Command.ts:12-34 | CONTEXT(1) is present iff the number is GetDirectory and a mask is set, and then holds the mask code. CONTEXT(2) is present iff the number is Invoke and an invocation is set, and then holds it. The two never both appear, and there are at most two items |
| `CommandEncoder.InvocationShape` | src/encoders/ber/Command.ts:51-69 | APPLICATION(22); the CONTEXT(0) id item is present iff the id is present (id 0 included); the last item is CONTEXT(1){SEQUENCE} with one CONTEXT(0){argument} per argument, in order |
| `CommandEncoder.ArgumentsRoundTrip` | src/encoders/ber/Command.ts:58-66 | reading the argument elements back yields the argument list itself: same length, same order |
| `CommandEncoder.InvocationRoundTrip` | src/encoders/ber/Command.ts:51-69 | reading the invocation element back yields the invocation: its id (or its absence) and its arguments |
| `CommandEncoder.EncodeCommandRoundTrip` | src/encoders/ber/Command.ts:5-34 | decoding the calls and reading the command back yields its number, its mask when it is GetDirectory and its invocation when it is Invoke |
| `CommandEncoder.EncodeCommandInjective` | src/encoders/ber/Command.ts:5-26 | two commands that differ in a field the encoder writes produce different call logs |
| `CommandEncoder.GetDirectoryAllExample` | src/encoders/ber/Command.ts:5-16 | GetDirectory with mask All writes exactly APPLICATION(2){CONTEXT(0){int 32}, CONTEXT(1){int 1}} |
| `BerWriter.DecodeFlatten` | src/encoders/ber/Command.ts:5-69 | the calls that write any element decode back to exactly that one element |
| `BerWriter.FlattenBalanced` | src/encoders/ber/Command.ts:5-26 | in the calls that write any element, every startSequence is matched by a later endSequence, and no prefix closes more than it opened |
| `S101Session.S101Socket.constructor` | src/Ember/Socket/S101Socket.ts:18-42 | status is connected iff a socket is given; no pending or active request; no keepalive timer; no events and no socket calls |
| `S101Session.S101Socket.IsConnected` | src/Ember/Socket/S101Socket.ts:135-137 | a connected status implies a socket is attached; without a socket the status is disconnected |
| `S101Session.S101Socket.RemoteAddress` | src/Ember/Socket/S101Socket.ts:81-86 | "not connected" exactly when no socket is attached; otherwise the host, a colon and the port in decimal, which reads back as the port |
| `S101Session.Decimal` | src/Ember/Socket/S101Socket.ts:85 | a port renders as a non-empty string of decimal digits with no leading zero |
| `S101Session.DecimalRoundTrip` | src/Ember/Socket/S101Socket.ts:85 | the decimal text reads back as the number |
| `S101Session.S101Socket.OnSocketClose` | src/Ember/Socket/S101Socket.ts:66-70 | emits one 'disconnected', sets the status to disconnected and drops the socket; the timers and socket calls are untouched |
| `S101Session.S101Socket.OnSocketError` | src/Ember/Socket/S101Socket.ts:72-74 | emits one 'error' with the socket's error and changes nothing else |
| `S101Session.S101Socket.HandleClose` | src/Ember/Socket/S101Socket.ts:128-133 | drops the socket, stops the keepalive interval (its handle stays stored), sets disconnected, emits exactly one 'disconnected' |
| `S101Session.S101Socket.Disconnect` | src/Ember/Socket/S101Socket.ts:91-123 | without a socket: a resolved promise and no change. With one: the keepalive interval is stopped and forgotten, one End is sent and the status is disconnected; the socket stays attached, no event is emitted, and the guard timer (line 117) is armed iff the timeout is omitted (the default is 2) or a number greater than zero, never for null or NaN |
| `S101Session.DisconnectPromise.AlreadyResolved` | src/Ember/Socket/S101Socket.ts:92-94 | the early-return promise is settled as resolved, with no timer and no callback run |
| `S101Session.DisconnectPromise.AwaitingEnd` | src/Ember/Socket/S101Socket.ts:95-122 | after the executor ran: not done, not settled, and the guard timer armed as requested |
| `S101Session.DisconnectPromise.Complete` | src/Ember/Socket/S101Socket.ts:101-115 | the `done` guard lets the callback through at most once; that run clears the timer, resolves without an error and rejects with one |
| `S101Session.DisconnectPromise.EndFinished` | src/Ember/Socket/S101Socket.ts:120 | the end callback completes the promise at most once, and resolved, whatever the socket reports |
| `S101Session.DisconnectPromise.TimerFires` | src/Ember/Socket/S101Socket.ts:116-119 | the guard timer completes the promise, resolved, and the completion count stays 1 |
| `S101Session.S101Socket.SendBER` | src/Ember/Socket/S101Socket.ts:139-154 | false and no change without a socket. With one: true iff encoding succeeded and no write threw; on true, exactly the encoded frames are written, in order, and nothing else changes (the keepalive interval keeps running); on false, the effects of handleClose |
| `S101Session.S101Socket.SendKeepaliveRequest` | src/Ember/Socket/S101Socket.ts:159-167 | nothing without a socket; otherwise exactly one keepalive-request frame and no other change, or the effects of handleClose if the write throws |
| `S101Session.S101Socket.SendKeepaliveResponse` | src/Ember/Socket/S101Socket.ts:172-180 | nothing without a socket; otherwise exactly one keepalive-response frame and no other change, or the effects of handleClose if the write throws |
| `S101Session.S101Socket.StartKeepAlive` | src/Ember/Socket/S101Socket.ts:188-196 | arms a fresh interval and stores its handle; an interval armed earlier keeps running |
| `S101Session.S101Socket.KeepaliveTick` | src/Ember/Socket/S101Socket.ts:189-195 | a tick of a running interval does nothing without a socket. With one, it sends one keepalive request and changes nothing else, so the interval keeps running; if the write throws, it runs handleClose |
| `S101Session.S101Socket.OnKeepaliveReq` | src/Ember/Socket/S101Socket.ts:25-27 | with a socket, a codec keepalive request leads to exactly one keepalive-response write and no other change, the keepalive interval included; if the write throws, handleClose runs |
| `S101Session.S101Socket.OnEmberPacket` | src/Ember/Socket/S101Socket.ts:29-39 | always re-emits the packet first; then emits the tree when decoding gives a root, nothing for a null root, and one 'error' when decoding throws; nothing else changes |
| `S101Session.FailedWriteThenClose` | src/Ember/Socket/S101Socket.ts:66-70 | a throwing write makes sendBER return false, and the later close event emits a second 'disconnected' |
| `S101Session.DisconnectTwiceThenClose` | src/Ember/Socket/S101Socket.ts:91-122 | two disconnects before the close event send End twice and keep the socket attached; the close event then emits one 'disconnected' and remoteAddress reports "not connected" |
| `S101Session.KeepaliveTicksTwice` | src/Ember/Socket/S101Socket.ts:188-196 | on a socket whose writes succeed, the interval armed by startKeepAlive ticks twice, sends two keepalive requests and is still running |
| `S101Session.DisconnectCompletesOnce` | src/Ember/Socket/S101Socket.ts:100-120 | with both the timer and the end callback firing, the promise completes exactly once and is resolved |

## Left out

- S101 codec internals (framing, escaping, checksum, `dataIn` reassembly), the `Ber.Writer` byte encoding and `berDecode`/`berEncode` are not part of this model. The codec's output and the decoder's result are opaque function values.
- The socket's `'data'` handler (src/Ember/Socket/S101Socket.ts:62-64) only feeds `codec.dataIn`, which is opaque. The codec callbacks it leads to are modelled directly as `OnKeepaliveReq` and `OnEmberPacket`.
- `sendBERNode` (src/Ember/Socket/S101Socket.ts:182-186) is left out: it only runs the external `berEncode` and forwards to `sendBER`, which is modelled.
- The `catch` around `sendKeepaliveRequest` in the interval callback (src/Ember/Socket/S101Socket.ts:190-194) is not modelled. The method catches its own write failures, so only an exception thrown by an event listener could reach that `catch`, and listeners are not modelled.
- Timing is not modelled: the durations `100 * timeout` and `1000 * keepaliveInterval`, promise scheduling, and the interleaving of callbacks. `sendBER` is `async`; the model returns its boolean result directly.
- `EventEmitter` dispatch to listeners is not modelled. Emitting is appending to `events`.
- A socket whose `remoteAddress` or `remotePort` is undefined (it would render as "undefined") is not modelled. A `Peer` always has both.
- `Peer.writeThrows` is fixed for a socket: every write throws or none does. So `SendBER` either writes all frames or none.
- Command options (the TODO at src/encoders/ber/Command.ts:23) are not encoded by the source, and so not by the model.
- The `Subscribe` and `Unsubscribe` command numbers have no constants in the model, because the encoder gives them no special treatment: like any number other than GetDirectory and Invoke, they are written as the number alone.
