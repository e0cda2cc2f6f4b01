# Signaling broker of WebRTC_Python, modelled in Dafny

`WebRTCWrapper` pairs one "sender" and one "receiver" through a WebSocket
signaling server. The server's connection `handler` is the only part of it with
self-contained logic. The first message on a connection declares a role. A
valid role binds that role's slot to the connection, and any messages queued for
the role are then drained to it. Every later message on the connection goes to
the opposite role: it is forwarded when that role's slot is bound and queued
otherwise. When the connection closes, the role's slot is cleared.

The model is a pure state machine over atomic handler events:

- `Broker.State` holds the two maps of the source: `clients` (role token to
  optional channel) and `queues` (role token to pending messages, oldest
  first). Channels are opaque ids.
- `Broker.Event` is one of `Declare(chan, text)`, `Relay(chan, from, msg)` or
  `Disconnect(chan, role)`.
- `Broker.Step` returns the next state and the sends it performed, in order.
  A send is either `Reject(chan)`, the "Invalid role" reply, or
  `Forward(chan, to, msg)`, where `to` is the slot the channel was taken from.
- `Traces.Run` folds `Step` over a sequence of events.
- `Platform` models the per-OS default video source and the
  `source or get_default_source()` fallback.

Rebinding does not close the superseded channel, and the model follows the
code in two places:

- Rebinding a role overwrites its slot and does not close the superseded
  channel. The model has no close action at all.
- A closure clears the role's slot whichever channel reports it, including a
  channel that was already superseded. `Traces.StaleDisconnectUnbindsSuccessor`
  shows the consequence: the live successor loses its binding, and the next
  message addressed to it is queued.

## Model

| member | source | states |
|---|---|---|
| Roles.ParseRole | webrtc_wrapper.py:77-80 | a declaration is accepted exactly when it is "sender" or "receiver", and an accepted token names the role it parses to |
| Roles.ParseName | webrtc_wrapper.py:35-35 | each role's token parses back to that role |
| Roles.Opposite | webrtc_wrapper.py:92-93 | a relayed message targets the other role: "sender" goes to "receiver" and anything else to "sender" |
| Roles.OppositeInvolutive | webrtc_wrapper.py:93-93 | routing a reply back returns to the original role |
| Broker.Init | webrtc_wrapper.py:34-37 | the broker starts with both slots unbound, both queues empty, the key set {"sender","receiver"} in both maps, and the invariant holding |
| Broker.BoundQueueEmpty | webrtc_wrapper.py:83-87 | under the invariant, a bound role has no pending messages |
| Broker.Deliveries | webrtc_wrapper.py:86-87 | the sends of a drain: one per queued message, each to the newly bound channel, in queue order |
| Broker.Drain | webrtc_wrapper.py:85-87 | the pop-and-send loop produces exactly the drain's sends, every queued message to the newly bound channel in FIFO order, and leaves the queue empty |
| Broker.OnDeclare | webrtc_wrapper.py:72-87 | a non-role text gets exactly the reply "Invalid role" on its channel and leaves slots and queues unchanged; a role R gets its slot set to the channel, overwriting any earlier binding; the other slot and queue are untouched; R's queued messages are sent to the channel in FIFO order; R's queue ends empty |
| Broker.OnRelay | webrtc_wrapper.py:89-101 | a message from role R goes to the opposite role: with that slot bound, it is sent on that channel and nothing else changes; otherwise it is appended to the end of that role's queue and nothing is sent; slots and R's own queue never change |
| Broker.OnDisconnect | webrtc_wrapper.py:103-106 | a closure clears the role's slot; the other slot and both queues are unchanged; nothing is sent |
| Broker.Step | webrtc_wrapper.py:65-106 | every modelled event (sends never fail) keeps both key sets at exactly {"sender","receiver"} and preserves the invariant that a queue is non-empty only while its slot is unbound; every forwarded message goes to the channel its target slot holds |
| Traces.Run | webrtc_wrapper.py:65-106 | any run of events keeps the key sets fixed and preserves the queue-only-while-unbound invariant |
| Traces.DeliveredByDrain | webrtc_wrapper.py:86-87 | a drain hands its role exactly the drained queue and hands the other role nothing |
| Traces.StepConservesOrder | webrtc_wrapper.py:83-101 | in one step, role R's pending messages followed by those the event addresses to R equal what is handed to R followed by what stays pending for R |
| Traces.FifoPerRole | webrtc_wrapper.py:83-101 | over any run of atomic events whose sends succeed, each role receives the messages addressed to it in arrival order, with none lost, duplicated or invented, whether forwarded at once or drained on bind |
| Traces.DeliveredIsPrefix | webrtc_wrapper.py:83-101 | what a run hands to a role is a prefix of what was pending for it followed by what was addressed to it |
| Traces.AllDeliveredOnceBound | webrtc_wrapper.py:83-101 | from a state where nothing waits for R, a run that ends with R bound has handed R every message addressed to it, in order |
| Traces.DisconnectIgnoresChannel | webrtc_wrapper.py:103-106 | a closure changes the broker the same way whichever channel reports it |
| Traces.StaleDisconnectUnbindsSuccessor | webrtc_wrapper.py:83-106 | after a rebind, a closure of the superseded channel unbinds the successor, and the next message for that role is queued rather than sent |
| Platform.DefaultSource | webrtc_wrapper.py:50-58 | "Linux" maps to "/dev/video0", "Darwin" to "default:none" and "Windows" to camera index 0; every other OS name fails with "Unsupported OS" |
| Platform.DefaultsDistinct | webrtc_wrapper.py:50-58 | distinct supported systems get distinct default sources |
| Platform.ResolveSource | webrtc_wrapper.py:32-32 | a truthy given source is used unchanged; resolution fails exactly when the given source is missing or falsy and the OS has no default, with "Unsupported OS"; the only falsy source it can yield is camera index 0 on Windows |
| Platform.ResolveIdempotent | webrtc_wrapper.py:32-32 | resolving an already resolved source again yields the same source |
| Platform.ExplicitIndexZeroFallsBack | webrtc_wrapper.py:32-32 | an explicit camera index 0 is falsy: it becomes "/dev/video0" on Linux and fails on an unsupported OS |

## Left out

- The WebSocket transport, `websockets.serve` and the asyncio event loop
  (webrtc_wrapper.py:74, 108-111) are I/O plumbing. Channels are opaque ids
  and sends form an output log.
- Interleaving of concurrent handlers is not modelled: every event is atomic.
  In the source, the slot is bound before the awaited drain loop, so a
  concurrent direct forward could overtake queued messages. The ordering
  lemmas hold for atomic events only.
- Failing sends are left out: in the model every send succeeds. In the source,
  `send` raises `ConnectionClosed` when the receiving connection has closed
  but its handler has not yet cleared its slot (webrtc_wrapper.py:87, 97).
  The raising handler then clears its OWN role's slot (webrtc_wrapper.py:106),
  which for a forward (:97) is the forwarding role, not the target, and ends.
  The popped or forwarded message is lost; for a drain (:87), the rest of the
  queue stays pending while the slot is cleared.
- Traces.FifoPerRole: states delivery order per role for atomic events only,
  because handlers that interleave at their await points can reorder a drain
  and a direct forward. Its "none lost" holds only for sends that succeed; a
  send that raises, as described above, loses its message.
- `ConnectionClosed` raised before or during role validation
  (webrtc_wrapper.py:74-80, 103-106) is left out. If the "Invalid role" reply
  itself raises (:79), line 106 stores the invalid text as a third key of
  `clients`. This breaks the fixed key set that `Broker.Step` preserves. A
  later declaration of that text then passes the check at :78 and raises
  `KeyError` at :86. `Disconnect` events carry a validated role.
- Binary WebSocket frames are left out. Messages and role declarations are
  text.
- `run_sender` and `run_receiver` (webrtc_wrapper.py:113-339) are left out.
  Every decision there is delegated to aiortc connection and track state, to
  the 30-second `asyncio.wait_for` timeout, and to polling sleeps.
- The JSON encoding of offer and answer descriptors is left out. The broker
  never inspects message contents.
- Display, recording, SIGINT handling, key handlers and logging are left out.
  They are UI and side effects.
- `Relay` and `Disconnect` events carry the channel they arrive on, but the
  handler's behaviour depends only on the role it declared, so the model
  ignores that channel.
- `platform.system()` is a parameter (`system`) instead of a call into the OS.
