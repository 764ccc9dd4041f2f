# Steam P2P TCP tunnel — a Dafny model of its multiplexer

`index.js` tunnels local TCP connections over Steam's peer-to-peer datagram
transport. A **client** listens locally, gives every accepted connection a
numeric id and forwards its bytes to one configured host peer. A **host**
receives frames from any number of peers. For each `(peer, id)` it opens a
connection to a local service and relays bytes both ways. Every datagram is one
frame: a kind byte (0 Data, 1 Connect, 2 Disconnect), the connection id as a
32-bit little-endian integer, then the payload.

This project models:

- the frame codec (`codec.dfy`): `encodePacket` and the inline decode that both
  receive loops perform;
- the host dispatcher (`host.dfy`): its socket table keyed by `(peer, id)`, its
  frame handler, the callbacks of the sockets it opens, and its receive loop;
- the client dispatcher (`client.dfy`): the id counter, its table keyed by id,
  the accept listener, the local sockets' callbacks, the frame handler and the
  receive loop;
- end-to-end runs of both sides through the wire encoding (`scenarios.dfy`).

Each side has two layers. The first is a state datatype (`HostState`,
`ClientState`) with one pure step function per handler; this is the
specification, and most properties are lemmas about it. The second is a class
(`Host`, `Client`) whose fields are the tables, the counter and the effect log.
Its methods update those fields in place, as the JavaScript handlers update
their `Map`s, and are proved to produce the state of the matching step function.

Sockets are abstract handles. The host's `new net.Socket()` takes the next
handle. The client's accepted socket is an input. Nothing is performed: every
effect is appended to an outbox. The effects are dialling the service, writing
to a socket, destroying a socket, and sending a frame to a peer on channel 2. A
receive tick takes its datagrams as a sequence of `Option<Datagram>`, where
`None` is a read that threw. The dial callback and the local sockets' `data`
and `close` events are methods that the environment calls.

Where the code and the design description of the system differ, the model
follows the code:

- A Connect for a key the host already holds is not ignored. It opens a second
  socket and overwrites the entry (`ConnectOverwrites`).
- Connections carry no Opening/Open/Closed state. A key is in the table from
  its Connect until a Disconnect or a close.
- The client does not record the host's Connect acknowledgement. The frame is
  only logged and changes nothing (`ConnectIsAcknowledgementOnly`).
- The client does not check who sent a datagram (`SenderIgnored`).
- A socket's `close` callback removes the key it was created for, even when a
  later Connect has replaced that key's socket. The newer socket then stays open
  but cannot be reached (`StaleCloseForgetsReplacement`).
- The client's counter is unbounded. For id 2^32 `writeUInt32LE` throws. The
  model's step functions stop where the handler throws; `Encodable` tells
  whether the handler completed.
- A failed dial is not silent in the code. Node reports `error` and then
  `close` on the socket, and the `close` callback sends Disconnect to the peer.
  In the model this is the `CloseStep` event, which the environment may deliver
  without a preceding `DialStep`.

## Model

| member | source | states |
|---|---|---|
| `Codec.EncodePacket` | index.js:21-29 | Defined exactly for a kind below 256 and an id below 2^32 (writeUInt8/writeUInt32LE throw otherwise). The result has length 5 + payload length, or exactly 5 when the payload is null. Byte 0 is the kind, bytes 1..4 are the id's bytes least significant first, and the rest is the payload. |
| `Codec.PayloadOf` | index.js:25-28 | A null payload contributes no bytes. |
| `Codec.DecodePacket` | index.js:56-60 | No frame exactly when the datagram is shorter than 5 bytes. Otherwise the kind is byte 0, the id is the little-endian value of bytes 1..4, and the payload is everything from byte 5. |
| `Codec.DecodeEncode` | index.js:58-60 | Decoding `encodePacket(t, id, p)` gives back `(t, id, p)`, with an absent payload read back as empty. |
| `Codec.EncodeDecode` | index.js:160-162 | Every datagram that decodes is exactly the encoding of the frame decoded from it. |
| `Codec.ToLE` | index.js:24 | The little-endian encoding of a number into k bytes has length k. |
| `Codec.FromLE` | index.js:59 | The value read from k bytes is below 256^k. |
| `Codec.FromToLE` | index.js:24 | Reading back the k little-endian bytes of any n < 256^k gives n. |
| `Codec.ToFromLE` | index.js:59 | Re-encoding the value read from a byte string gives the same bytes. |
| `Codec.ToLE4` | index.js:24 | The four bytes writeUInt32LE lays down are n mod 256, (n / 2^8) mod 256, (n / 2^16) mod 256 and n / 2^24. |
| `Codec.FromLE4` | index.js:59 | readUInt32LE of b0..b3 is b0 + 2^8·b1 + 2^16·b2 + 2^24·b3. |
| `Tunnel.SendFrame` | index.js:70 | A frame send goes to the given peer on channel 2, and its bytes decode at the receiver to exactly the frame meant. |
| `HostDispatcher.FrameStep` | index.js:62-101 | Handling a frame only appends to the effect log (at most one effect). It preserves the table invariant: each key maps to a socket created for that key, and no handle is reused. It also preserves lifecycle closure: no key in the table names a socket the log shows destroyed. |
| `HostDispatcher.DatagramStep` | index.js:47-60 | One loop iteration preserves the table invariant and lifecycle closure. |
| `HostDispatcher.Run` | index.js:45-102 | Draining a tick preserves the table invariant and lifecycle closure. It never removes logged effects and never reuses a handle. |
| `HostDispatcher.DialStep` | index.js:68-71 | A successful dial leaves the tables alone and appends one send to the socket's peer, on channel 2, that decodes to Connect(id) with no payload. It preserves lifecycle closure. |
| `HostDispatcher.SocketDataStep` | index.js:73-75 | Bytes from the service leave the tables alone and append one send to the socket's peer that decodes to Data(id, bytes). It preserves lifecycle closure. |
| `HostDispatcher.CloseStep` | index.js:77-81 | The close callback preserves the table invariant and lifecycle closure. |
| `HostDispatcher.ConnectOverwrites` | index.js:64-88 | Connect maps (peer, id) to a socket never created before (so it replaces any existing entry) and dials 127.0.0.1:25565 with it. Every other key is unchanged. |
| `HostDispatcher.PeersDoNotCollide` | index.js:62 | Connects for the same id from two different peers yield two entries with distinct sockets. |
| `HostDispatcher.UnknownKeyIgnored` | index.js:89-100 | A Data, Disconnect or unknown-kind frame for an absent key changes nothing and emits nothing. |
| `HostDispatcher.UnknownKindIgnored` | index.js:64-101 | A frame whose kind is not 0, 1 or 2 changes nothing, even for a held key. |
| `HostDispatcher.DataWritesPayload` | index.js:89-93 | Data for a held key writes exactly its payload to that key's socket and changes nothing else. |
| `HostDispatcher.DisconnectRemoves` | index.js:94-100 | Disconnect for a held key destroys its socket and removes exactly that key. |
| `HostDispatcher.DisconnectIdempotent` | index.js:94-100 | After a Disconnect the key is absent, and repeating the Disconnect changes nothing. |
| `HostDispatcher.CloseSendsDisconnect` | index.js:77-81 | A socket close appends exactly one send to its peer, decoding to Disconnect(id). It removes (peer, id) and no other key, and leaves the socket origins and the next handle unchanged. A later Data for that key is dropped. |
| `HostDispatcher.StaleCloseForgetsReplacement` | index.js:77-88 | Closing a socket whose key was re-Connected removes the key, and the newer socket is no longer in the table. |
| `HostDispatcher.DrainKeepsNoDestroyedEntry` | index.js:94-100 | After a receive tick that starts with lifecycle closure, no key in the table names a socket the log shows destroyed. |
| `HostDispatcher.InitialHostLifecycle` | index.js:36 | The empty host satisfies the table invariant and lifecycle closure. |
| `HostDispatcher.RunAppend` | index.js:45 | Draining two batches in turn is the same as draining their concatenation. |
| `HostDispatcher.SkipUnreadable` | index.js:47-56 | A failed read or a datagram under 5 bytes is skipped: the result is that of the same queue without it. |
| `HostDispatcher.Host.constructor` | index.js:36 | The host starts with an empty table and an empty log. |
| `HostDispatcher.Host.HandleFrame` | index.js:62-101 | Updating the maps in place yields `FrameStep` of the old state and keeps the table invariant and lifecycle closure. |
| `HostDispatcher.Host.Drain` | index.js:43-103 | The receive loop, skipping failed and short reads, yields `Run` of the old state over the queue. |
| `HostDispatcher.Host.OnDialSuccess` | index.js:68-71 | The dial callback yields `DialStep` of the old state. |
| `HostDispatcher.Host.OnSocketData` | index.js:73-75 | The data callback yields `SocketDataStep` of the old state. |
| `HostDispatcher.Host.OnSocketClose` | index.js:77-81 | The close callback yields `CloseStep` of the old state. |
| `ClientDispatcher.AcceptStep` | index.js:119-124 | An accept advances the counter by exactly one and preserves the invariant that ids start at 1 and every id in the table is below the counter. |
| `ClientDispatcher.LocalDataStep` | index.js:126-128 | Local bytes leave the table and counter alone and append one send to the host peer that decodes to Data(id, bytes), or change nothing if the id cannot be encoded. |
| `ClientDispatcher.LocalCloseStep` | index.js:130-134 | A local close keeps the counter and preserves the invariant. |
| `ClientDispatcher.FrameStep` | index.js:164-175 | An inbound frame never adds ids, never moves the counter, and preserves the invariant. |
| `ClientDispatcher.DatagramStep` | index.js:150-162 | One loop iteration never moves the counter and preserves the invariant. |
| `ClientDispatcher.Run` | index.js:148-176 | A tick never moves the counter and preserves the invariant. |
| `ClientDispatcher.Apply` | index.js:119-177 | Only an accept moves the counter, by exactly one, and every event preserves the invariant. |
| `ClientDispatcher.Replay` | index.js:116-177 | Over any run of events the counter never decreases and the invariant holds. |
| `ClientDispatcher.AcceptAssignsFreshId` | index.js:116-124 | An accept hands out the current counter, which is at least 1 and not in the table. It adds exactly that entry, advances the counter, and announces Connect(id) when the id is encodable. |
| `ClientDispatcher.ReplayAppend` | index.js:116-177 | Replaying two runs in turn is the same as replaying their concatenation. |
| `ClientDispatcher.AcceptedIdsIncrease` | index.js:120 | Of two accepts in any run, the later one is handed a strictly larger id, so ids are never reused. |
| `ClientDispatcher.UnknownIdDropped` | index.js:164-165 | A frame for an id not in the table changes nothing and emits nothing. |
| `ClientDispatcher.ConnectIsAcknowledgementOnly` | index.js:173-175 | An inbound Connect changes nothing. |
| `ClientDispatcher.UnknownKindIgnored` | index.js:167-175 | A frame whose kind is not 0, 1 or 2 changes nothing, even for a known id. |
| `ClientDispatcher.DataWritesPayload` | index.js:167-168 | Data for a known id writes exactly its payload to that socket and changes nothing else. |
| `ClientDispatcher.DisconnectRemoves` | index.js:169-172 | Disconnect removes the id, destroying its socket when it was present. Repeating it changes nothing. |
| `ClientDispatcher.LocalCloseSendsDisconnect` | index.js:130-134 | A local close appends one send to the host peer that decodes to Disconnect(id), and removes the id. |
| `ClientDispatcher.SenderIgnored` | index.js:156-164 | The result of a datagram does not depend on its sender. |
| `ClientDispatcher.RunAppend` | index.js:148 | Draining two batches in turn is the same as draining their concatenation. |
| `ClientDispatcher.SkipUnreadable` | index.js:150-158 | A failed read or a datagram under 5 bytes is skipped: the result is that of the same queue without it. |
| `ClientDispatcher.Client.constructor` | index.js:116-117 | The client starts with counter 1 and an empty table. |
| `ClientDispatcher.Client.Accept` | index.js:119-124 | Returns the old counter as the id, which is at least 1 and not in the table, and yields `AcceptStep`. `completed` is false exactly when the id cannot be encoded. |
| `ClientDispatcher.Client.OnSocketData` | index.js:126-128 | The data callback yields `LocalDataStep` of the old state. |
| `ClientDispatcher.Client.OnSocketClose` | index.js:130-134 | The close callback yields `LocalCloseStep` of the old state. |
| `ClientDispatcher.Client.HandleFrame` | index.js:164-175 | Looking up by id and acting on the kind yields `FrameStep` of the old state. |
| `ClientDispatcher.Client.Drain` | index.js:146-177 | The receive loop, skipping failed and short reads, yields `Run` of the old state over the queue. |
| `Scenarios.ConnectHandshake` | index.js:64-71 | A fresh client's first accept announces id 1. The host opens exactly one entry, (client, 1), and dials the service. On dial success it sends Connect(1) back, which leaves the client unchanged. |
| `Scenarios.DataBeforeConnectDropped` | index.js:89-93 | Data(7, "ping") reaching a host that has seen no Connect leaves it unchanged. |
| `Scenarios.ServiceCloseThenData` | index.js:77-81 | After Connect(7), the service closing the socket sends exactly one Disconnect(7) to the peer and empties the table. A later Data(7) is dropped. |

## Left out

- The Steamworks calls are not modelled: `init`, the session-request callback with `acceptP2PSession`, `isP2PPacketAvailable`, `readP2PPacket` and `sendP2PPacket`. A tick receives the datagrams the transport had as a sequence; a sent frame is an outbox entry.
- The `size` argument of `readP2PPacket` is not modelled. A datagram is its bytes.
- `net` socket I/O is not modelled. Dialling, writing and destroying are outbox entries. Dial success and socket `data`/`close` events are methods the environment calls, in any order.
- The sockets' `error` handlers are not modelled. They only call `destroy()`, whose consequence in the tables is the `close` event, which is modelled.
- The 10 ms `setInterval` timer and event-loop interleaving are not modelled. Each handler is one atomic step.
- Command-line parsing, `process.exit`, the `BigInt` parsing of the target id and console logging are not modelled. The target peer is a parameter.
- An uncaught exception ends the process. This is not modelled: after a handler with `completed == false`, the model still accepts further events.
- Lifecycle closure (no entry in the table whose socket was destroyed) is proved for the host only. On the client, socket handles are inputs to Accept and the model does not assume they are fresh. A reused handle could therefore name a socket that was already destroyed, so the property is not stated for the client.
- JavaScript number precision is not modelled. Ids above 2^53 are taken as exact integers.
