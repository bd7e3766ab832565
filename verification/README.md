# Message director routing core, in Dafny

This project models the routing core of the Toontown OTP message director and proves properties of it. It covers:

- the **channel registry**. It maps a 64-bit channel to the participant that owns it. Channel 0 is ignored and the first claim wins.
- the **post-remove store**. Each channel has "last will" datagrams. They are delivered when the channel is removed (`REMOVE_CHANNEL`), when `CLEAR_POST_REMOVE` asks for them, or when a participant whose primary channel it is disconnects, whoever owns the channel.
- the **router**. It re-frames an application message and hands it to the owner of its channel.
- the **control dispatcher** of a participant: `Participant::receive_datagram` and `Participant::disconnected`.
- the **handler map** of `NetworkAcceptor` and its polling steps.

Modules:

- `Wire` (`wire.dfy`): the little-endian integer codec of Panda3D datagrams. It also covers the two 19-byte frame headers: control frames carry an opcode then an operand channel, application frames a sender then a message type. Proved: both round trips of the codec, and that the application-branch decoder inverts the router's encoder.
- `Registry` (`registry.dfy`): the registry, the post-remove store and the router, as functions on values. Participants and post-remove handles are ids. What the router sends goes into an outbox of (participant, frame) pairs.
  - `erase(it, end())` removes the target and every entry after it in the unordered map's iteration order. That order is left to the library, so it is a parameter (`IterationOrder`): a function from the map's key set and the target to the keys that follow, fixed for the whole run. Every property holds for every such function.
- `Dispatch` (`dispatch.dfy`): receive, the opcode switch, the re-entrant flush of `clear_post_removes`, and disconnect, as functions of the tables and the participant's primary channel. A `fuel` argument bounds the re-entrance.
- `Director` (`director.dfy`): the objects that change in place. `ParticipantInterface` holds the tables. `Handler` is a connection handler: a plain `NetworkHandler` when it has no interface, a `Participant` when it has one. Each method is proved to produce exactly the state the `Registry`/`Dispatch` functions describe.
- `Network` (`network.dfy`): `NetworkAcceptor`. It holds the connection-to-handler map, the set of connections the reader watches, and the accept, read and health-check polls. The network library's events are method parameters.

Where the intended protocol and the code disagree, the model follows the code:

- An `ADD_POST_REMOVE` for a channel that already has an entry pushes onto a by-value copy. The append is lost, so every stored list holds exactly one handle. This is the invariant `Registry.Wellformed`, kept by every operation. It also says that every stored handle is numbered below the next number to be issued (the number stands for the handle's address).
- `remove_post_remove` also removes the handle from a copy. Only the range erase of an emptied copy changes the store.
- `ADD_POST_REMOVE` stores the body even when it is empty. The code has no emptiness check.
- Unregistering a participant (`Participant::disconnected`, and `remove_participant(Participant*)`, which nothing calls) removes its primary channel only, not every channel it claimed.
- `Participant::disconnected` flushes and unregisters the participant's primary channel, not the channels it owns. Last wills stored under another channel it owns are not delivered. If its primary channel is owned by another participant (a participant's first `SET_CHANNEL` sets its primary channel even when another participant already owns that channel), the disconnect delivers that channel's wills and unregisters it from its owner (`Dispatch.Disconnected`, `Dispatch.DisconnectedIsRemoveChannel`).
- The channel erase and the post-remove erase can remove more entries than the target. Contracts say "target gone, no new keys, survivors unchanged".
- The declarations in `source/messagedirector.h` and `source/network.h` differ from the definitions (`received_datagram`, `m_handlers`). The model follows the `.cxx` definitions.

## Model

| member | source | states |
|---|---|---|
| Wire.EncodeLE | source/messagedirector.cxx:297-300 | add_uintN writes exactly n bytes |
| Wire.DecodeLE | source/messagedirector.cxx:16-21 | get_uintN reads a value below 256 to the power of the number of bytes consumed |
| Wire.EncodeUint16 | source/messagedirector.cxx:300 | add_uint16 writes two bytes that decode back to the value |
| Wire.EncodeUint64 | source/messagedirector.cxx:298-299 | add_uint64 writes eight bytes that decode back to the value |
| Wire.DecodeEncode | source/messagedirector.cxx:297-300 | decoding the n little-endian bytes written for x gives x back |
| Wire.EncodeDecode | source/messagedirector.cxx:16-21 | any byte string is the encoding of the number it decodes to |
| Wire.DecodeUint16 | source/messagedirector.cxx:20 | get_uint16 reads the value whose add_uint16 encoding is exactly the two bytes consumed |
| Wire.DecodeUint64 | source/messagedirector.cxx:17 | get_uint64 reads the value whose add_uint64 encoding is exactly the eight bytes consumed |
| Wire.Uint16RoundTrip | source/messagedirector.cxx:300 | get_uint16 inverts add_uint16 |
| Wire.Uint64RoundTrip | source/messagedirector.cxx:298-299 | get_uint64 inverts add_uint64 |
| Wire.ParseFrame | source/messagedirector.cxx:16-18 | a frame takes the control branch exactly when its recipient count is 1 and its destination is CONTROL_MESSAGE |
| Wire.DecodeControl | source/messagedirector.cxx:20-21 | the control branch reads the opcode before the operand channel; the body is everything after byte 19 |
| Wire.DecodeApplication | source/messagedirector.cxx:66-68 | the application branch reads the sender before the type; the payload is everything after byte 19 |
| Wire.RoutedFrame | source/messagedirector.cxx:296-301 | the routed frame is 19 header bytes starting with recipient count 1, followed by the payload verbatim |
| Wire.ControlFrame | source/messagedirector.cxx:18-21 | a control frame is 19 header bytes starting with recipient count 1, followed by the body verbatim |
| Wire.RoutedFrameRoundTrip | source/messagedirector.cxx:296-301 | the application-branch decoder recovers channel, sender, type and payload from the routed frame, and the frame takes the application branch exactly when its channel is not CONTROL_MESSAGE |
| Wire.ApplicationFrameRoundTrip | source/messagedirector.cxx:64-70 | every frame with recipient count 1 is the routed frame of the fields the application branch reads from it |
| Wire.ControlFrameRoundTrip | source/messagedirector.cxx:16-21 | a control frame parses back to its opcode, operand and body |
| Registry.HasParticipant | source/messagedirector.cxx:119-131 | true exactly when get_participant finds an owner |
| Registry.HasParticipantOwner | source/messagedirector.cxx:133-145 | true exactly when some channel maps to the participant |
| Registry.GetParticipant | source/messagedirector.cxx:191-203 | returns the owner exactly when the channel is registered, and nothing otherwise |
| Registry.AddParticipant | source/messagedirector.cxx:147-161 | channel 0 or an already registered channel leaves the registry unchanged; otherwise the channel is added for p; existing owners are kept |
| Registry.EraseFrom | source/messagedirector.cxx:175-177 | the target is gone, no key appears, survivors keep their values, and only the target and its followers can go |
| Registry.RemoveParticipant | source/messagedirector.cxx:163-178 | a no-op for channel 0 or an unregistered channel; otherwise the channel is unregistered, no key appears and survivors keep their owner |
| Registry.RemoveParticipantOf | source/messagedirector.cxx:180-189 | a no-op when p owns no channel; otherwise p's primary channel is unregistered |
| Registry.HasPostRemove | source/messagedirector.cxx:205-219 | true exactly when the channel has an entry whose list contains the handle |
| Registry.AddPostRemove | source/messagedirector.cxx:221-241 | a channel without an entry gets exactly [h]; a channel with an entry leaves the store unchanged |
| Registry.Without | source/messagedirector.cxx:256 | the result holds exactly the elements that are not the handle and is no longer than the list |
| Registry.RemovePostRemove | source/messagedirector.cxx:243-264 | a no-op unless the handle is stored; when the handle was the only one, the entry is gone; otherwise unchanged; stored lists never change |
| Registry.Route | source/messagedirector.cxx:283-303 | a message to channel 0 or to an unowned channel is dropped; otherwise one frame is appended for the owner; registry and store never change |
| Registry.RouteDelivers | source/messagedirector.cxx:296-302 | a delivered route adds exactly one frame, for the owner, whose application-branch decoding gives back channel, sender, type and payload |
| Dispatch.Receive | source/messagedirector.cxx:14-71 | receiving any frame keeps the store well formed and keeps a primary channel once set |
| Dispatch.Dispatch | source/messagedirector.cxx:22-62 | the opcode switch keeps the store well formed and keeps a primary channel once set |
| Dispatch.ClearPostRemoves | source/messagedirector.cxx:266-281 | flushing keeps the store well formed and keeps a primary channel once set |
| Dispatch.FlushPrefix | source/messagedirector.cxx:272-279 | every prefix of the flush loop keeps the store well formed and keeps a primary channel once set |
| Dispatch.FlushOne | source/messagedirector.cxx:276-278 | delivering one stored datagram and removing its handle keeps the store well formed and keeps a primary channel once set |
| Dispatch.Disconnected | source/messagedirector.cxx:73-77 | disconnecting keeps the store well formed, keeps a primary channel once set, and leaves the primary channel unregistered |
| Dispatch.ReceiveSetChannel | source/messagedirector.cxx:24-33 | SET_CHANNEL sets the primary channel only while it is 0, always tries to register the operand for this participant, and changes nothing else |
| Dispatch.ReceiveRemoveChannel | source/messagedirector.cxx:34-39 | REMOVE_CHANNEL flushes the operand's post-removes first and then unregisters it; afterwards every route to it is dropped |
| Dispatch.ReceiveAddPostRemove | source/messagedirector.cxx:48-54 | ADD_POST_REMOVE stores the rest of the frame as [h] for an operand without an entry, and leaves the store unchanged otherwise; registry, outbox and primary channel are untouched |
| Dispatch.ReceiveClearPostRemove | source/messagedirector.cxx:55-59 | CLEAR_POST_REMOVE delivers the operand's post-removes, and is a no-op when there are none |
| Dispatch.ReceiveInertOpcode | source/messagedirector.cxx:40-61 | SET_CON_NAME, SET_CON_URL, ADD_RANGE, REMOVE_RANGE and unknown opcodes change nothing |
| Dispatch.ReceiveRoutedFrame | source/messagedirector.cxx:64-70 | a routed frame not addressed to the control channel is routed on to the owner of its channel |
| Dispatch.ClearSingleEntry | source/messagedirector.cxx:266-281 | a flush of a channel without an entry does nothing; for a one-handle entry it receives the datagram and then removes the handle, so the entry is gone when the receive left it in place |
| Dispatch.DisconnectedIsRemoveChannel | source/messagedirector.cxx:73-77 | with a primary channel set, disconnecting equals receiving REMOVE_CHANNEL for that channel |
| Dispatch.PublishAfterClaim | source/messagedirector.cxx:24-33 | after A claims channel 100, a message published to 100 reaches A as exactly the routed frame |
| Dispatch.WillDelivered | source/messagedirector.cxx:266-281 | flushing a stored REMOVE_CHANNEL for another channel unregisters that channel and leaves no entry behind |
| Dispatch.LastWillOnDisconnect | source/messagedirector.cxx:73-77 | a last will left under the primary channel is delivered through the participant's own receive path when it disconnects |
| Director.ParticipantInterface.constructor | source/messagedirector.cxx:108-112 | a new interface has empty tables, which are well formed |
| Director.ParticipantInterface.AddParticipant | source/messagedirector.cxx:147-161 | the registry becomes Registry.AddParticipant of the old one; the invariant is kept |
| Director.ParticipantInterface.RemoveParticipant | source/messagedirector.cxx:163-178 | the registry becomes Registry.RemoveParticipant of the old one |
| Director.ParticipantInterface.RemoveParticipantOf | source/messagedirector.cxx:180-189 | the registry becomes Registry.RemoveParticipantOf for the participant's id and primary channel |
| Director.ParticipantInterface.NewPostRemoveHandle | source/messagedirector.cxx:50-51 | the handle carries a number no earlier handle has, the operand channel and the body; the invariant is kept |
| Director.ParticipantInterface.AddPostRemove | source/messagedirector.cxx:221-241 | for a handle this interface numbered, the store becomes Registry.AddPostRemove of the old one and the invariant is kept |
| Director.ParticipantInterface.RemovePostRemove | source/messagedirector.cxx:243-264 | the store becomes Registry.RemovePostRemove of the old one |
| Director.ParticipantInterface.RouteDatagram | source/messagedirector.cxx:283-303 | the frame built field by field is the routed frame, and the tables become Registry.Route of the old ones |
| Director.ParticipantInterface.ClearPostRemoves | source/messagedirector.cxx:266-281 | the loop over the copied list leaves the tables and p's primary channel as Dispatch.ClearPostRemoves says |
| Director.ParticipantInterface.FlushOne | source/messagedirector.cxx:276-278 | one turn of that loop (p receives the stored datagram, then the handle is removed) ends in the state Dispatch.FlushOne gives |
| Director.Handler.constructor | source/messagedirector.cxx:3-7 | a new handler has no primary channel |
| Director.Handler.ReceiveDatagram | source/messagedirector.cxx:14-71 | a participant ends in the state Dispatch.Receive gives; a plain handler's primary channel is unchanged |
| Director.Handler.Control | source/messagedirector.cxx:22-62 | the opcode switch ends in the state Dispatch.Dispatch gives |
| Director.Handler.Disconnected | source/messagedirector.cxx:73-77 | a participant ends in the state Dispatch.Disconnected gives; a plain handler is unchanged |
| Network.NetworkAcceptor.constructor | source/network.cxx:114-129 | a new acceptor maps no connection and watches none |
| Network.NetworkAcceptor.HasHandler | source/network.cxx:149-155 | true exactly when get_handler finds a handler under the handler's connection |
| Network.NetworkAcceptor.GetHandler | source/network.cxx:185-195 | returns the mapped handler, or null exactly when the connection is unmapped |
| Network.NetworkAcceptor.AddHandler | source/network.cxx:157-167 | for a handler this acceptor numbered: a no-op when the connection is mapped; otherwise the map gains connection to handler and the reader gains the connection; the invariant (handlers filed under their connections, numbered below the counter and pairwise distinct) is kept |
| Network.NetworkAcceptor.RemoveHandler | source/network.cxx:169-183 | the connection leaves the map and the reader, nothing else changes, and removing an unmapped connection is a no-op |
| Network.NetworkAcceptor.DisconnectHandler | source/network.cxx:203-208 | the handler's disconnected hook runs (as Dispatch.Disconnected for a participant), then its connection is removed |
| Network.NetworkAcceptor.InitHandler | source/network.cxx:210-213 | a fresh handler for the connection, numbered with the counter: a plain handler for the base acceptor, a participant with no primary channel for the message director; the invariant is kept |
| Network.NetworkAcceptor.ListenerPoll | source/network.cxx:215-234 | an accepted connection gets exactly one fresh handler, mapped under it unless the connection was already mapped |
| Network.NetworkAcceptor.ReaderPoll | source/network.cxx:236-263 | an empty datagram disconnects its handler without delivery; any other is received by the mapped handler and the map is unchanged |
| Network.NetworkAcceptor.DisconnectPoll | source/network.cxx:265-279 | exactly the connections that fail the health check leave the map, each disconnected once; healthy ones stay mapped to the same handler with the same primary channel; the director's tables end as Dispatch.DisconnectEach of the departed participants' ids and starting primary channels, in walk order |
| Network.NetworkAcceptor.WalkOrder | source/network.cxx:268-269 | the walk visits every mapped connection exactly once |
| Network.NetworkAcceptor.DisconnectWalk | source/network.cxx:269-276 | walking `order`, the handlers of Down(order) are removed and nothing else; the rest keep their primary channels; the tables are the disconnected hooks of those participants run in walk order |
| Network.NetworkAcceptor.CheckConnection | source/network.cxx:271-275 | a healthy connection changes nothing; a failed one leaves the map and the tables become Dispatch.Disconnected of its participant; no other handler changes |
| Network.Down | source/network.cxx:272 | exactly the walked connections that fail the check, without repeats when the walk has none |
| Dispatch.DisconnectEach | source/network.cxx:269-276 | running the disconnected hooks one after the other keeps the tables well formed, and the last departed participant's primary channel ends unregistered |

## Left out

- Frames shorter than the 19-byte header. `DatagramIterator` reads past the end in a library-defined way. The model drops such a frame and claims nothing about it.
- Unbounded re-entrance of `clear_post_removes`. A stored frame can flush the same channel again, and the source then recurses without end. The `fuel` argument bounds the depth, and a flush with no fuel left delivers nothing. `ReaderPoll` and `DisconnectPoll` take the fuel from their caller, and no lemma relates the result with enough fuel to the result with more.
- `NetworkConnector` (`source/network.cxx:7-86`): the outbound TCP client. It is plumbing with empty hooks.
- Panda3D's connection manager, listener, reader and writer, and the task manager. Accepted connections, received bytes and health checks are parameters; `send_datagram`/`send_handler_datagram` (`source/network.cxx:197-201`) become an outbox append; `setup_connection`, task registration and destructors are not modelled.
- `num_threads` and all concurrency: every operation runs to completion, one at a time.
- `delete handler` and `delete post_remove`: the model has no memory ownership. Every stored list holds one handle, so `remove_post_remove` erases the entry right after deleting the handle; handles dropped by the over-deleting range erase are leaked, which the model does not track.
- `PostRemoveHandle` keeps a reference (`Datagram &m_datagram`) to the local `Datagram` built in the `ADD_POST_REMOVE` case (`source/messagedirector.cxx:50`), which is gone when that case ends; a later flush reads freed memory. The model stores the body as a value.
- Other channels a participant claimed: `Participant::disconnected` unregisters only the primary channel (`source/messagedirector.cxx:76`), so the other channels stay mapped to the participant after `remove_handler` deletes it (`source/network.cxx:182`), and a later `route_datagram` sends through the freed object (`source/messagedirector.cxx:290-302`). The model keeps the stale id in the registry and appends a send addressed to it.
- IterationOrder: one fixed after-set function for the whole run; a real `unordered_map` can order the same keys differently at two erases (after inserts and rehashing). No proof relies on two erases agreeing.
- `disconnect_poll` erases map entries while iterating over the map (`remove_handler` under the loop's iterator), which is undefined behaviour in C++. The model walks a snapshot of the keys (`WalkOrder`) in an arbitrary order.
- One `ParticipantInterface` per message director: the source builds it in the `MessageDirector` constructor (`source/messagedirector.cxx:80-83`), while the model passes it to the acceptor's constructor, so two acceptors could share one.
- `assert(x != nullptr)` checks are non-null reference types. `reader_poll`'s assertion that the connection is mapped is a precondition.
- `TypeHandle` registration, `source/config_libotp.cpp` and `build.py`.
- Dispatch.Receive: states only the invariants the re-entrant receive keeps. Its effect for each opcode is stated by the Receive* lemmas.
