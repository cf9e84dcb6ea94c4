# LoRaWAN temperature uplink controller — Dafny model

This project models the application logic of a small mbed OS example. The example reads a temperature sensor, encodes the reading and sends it over LoRaWAN every ten seconds. The parts modelled are:

- the start-up chain in `main`: initialise the stack, register the event callback, set confirmed-message retries to 3, disable adaptive data rate, then start an over-the-air join with 10 trials. It returns -1 as soon as initialise, set-retries or disable-ADR returns anything but OK, or connect returns anything but OK or CONNECT_IN_PROGRESS. Otherwise it enters the event queue's dispatch loop, with no `send_message` entry pending.
- `send_message`: sends the encoded reading on port 15 as an unconfirmed message. It then re-arms itself exactly once on the event queue. The delay is 3000 ms after a duty-cycle "would block", and `TX_INTERVAL` (10000 ms) after any other error or after success.
- `receive_message`: receives into a zeroed 50-byte buffer on port 15, accepting confirmed and unconfirmed downlinks. It reports the first `retcode` bytes, or nothing when the receive failed.
- `lora_event_handler`: maps each stack event to its effect. CONNECTED schedules a send after `TX_INTERVAL`. DISCONNECTED breaks dispatch. RX_DONE receives. UPLINK_REQUIRED sends at once. Every other named event, and the default branch, changes nothing.

Files:

- `lorawan.dfy` (module `LoRaWan`): the stack's interface as the application sees it. This covers status codes, events, message flags and a `StackCall` record of each call into the stack.
- `event_queue.dfy` (module `EventQueues`): an abstract `EventQueue` class. It holds the pending `(delay, callback)` entries in registration order and a `dispatchBroken` flag. `CallIn` appends one entry and `BreakDispatch` sets the flag.
- `uplink.dfy` (module `Uplink`): the logic of `main.cpp`, written against that queue.

The operations that talk to the stack return the calls they made, as a `seq<StackCall>`. That lets the contracts say which library calls happen, in what order, and with which port, flags and parameters. The stack's return codes, the encoded payload and the bytes the stack writes into the receive buffer are all parameters.

The status values `LORAWAN_STATUS_OK` (0), `LORAWAN_STATUS_WOULD_BLOCK` (-1001) and `LORAWAN_STATUS_CONNECT_IN_PROGRESS` (-1016) follow mbed OS's `lorawan_types.h`, which is not part of this model. The proofs use only two facts about them: the three values are distinct, and the last two are negative.

### Two behaviours of the code worth knowing

- The code never cancels a pending send. An UPLINK_REQUIRED event calls `send_message` directly, which adds a second pending send next to the one already queued. `PendingSendsCanDouble` and `AfterSendsGrowth` state this.
- The code ignores the result of `add_app_callbacks`, so a failed callback registration does not stop start-up. `Startup` records the call and gives it no status.

## Model

| member | source | states |
|---|---|---|
| `Uplink.Startup` | main.cpp:49-107 | Start-up reaches dispatch if and only if initialise, set-retries(3) and disable-ADR return OK and connect returns OK or CONNECT_IN_PROGRESS; otherwise the result is exit code -1. It also fixes which stack calls were made before the first failure: initialise only; initialise, register callbacks and retries; those plus disable-ADR; or all five, with connect using OTAA and 10 trials. The queue it returns holds no `send_message` entry and is not broken; on dispatch it holds exactly the stack's own timers posted during initialise and connect |
| `Uplink.NextSendDelay` | main.cpp:128-142 | The re-arm delay is `TX_INTERVAL` (10000) for a non-negative send result and for every negative code other than WOULD_BLOCK, and 3000 for WOULD_BLOCK. The delay is below `TX_INTERVAL` exactly when the send was duty-cycle blocked |
| `Uplink.SendMessage` | main.cpp:112-145 | Sends the payload on port 15 with only the unconfirmed flag. It appends exactly one pending `send_message` entry, whose delay is given by the return code. Existing entries and the dispatch flag are unchanged. The number of pending sends grows by one, and the delay invariant is kept |
| `Uplink.AfterSendsGrowth` | main.cpp:126-145 | After any number of consecutive `send_message` calls, the old pending entries are still there, in order, as a prefix. Exactly one new send entry follows per call, in call order, each with the delay its own return code selects, so the send count grows by the number of calls (no deduplication) |
| `Uplink.AfterSendsKeepDelaysValid` | main.cpp:132-142 | If every pending send waits either 3000 or 10000 ms, this still holds after any sequence of sends |
| `Uplink.PendingSendsCanDouble` | main.cpp:203-206 | For any queue that already holds a pending send, one more send (as on UPLINK_REQUIRED) raises the send count by one, to at least two, whatever it returned |
| `Uplink.RxBuffer` | main.cpp:152-155 | The 50-byte receive buffer holds the bytes the stack wrote at its front and zeros after them |
| `Uplink.Reported` | main.cpp:157-165 | A negative receive result reports no bytes. A result `r` with 0 <= r <= 50 reports exactly the first `r` buffer bytes in order. When `r` equals the number of bytes written, it reports exactly those bytes |
| `Uplink.ReceiveMessage` | main.cpp:150-167 | Makes one receive call: port 15, length 50, confirmed and unconfirmed flags. It returns exactly `Reported` of the stack's bytes and return code, computed by the source's copy-out loop |
| `Uplink.HandleEvent` | main.cpp:172-210 | CONNECTED appends one send entry at `TX_INTERVAL`. DISCONNECTED sets `dispatchBroken` and appends nothing. UPLINK_REQUIRED behaves as `SendMessage`. RX_DONE behaves as `ReceiveMessage`. All TX/RX error events, TX_DONE, JOIN_FAILURE (no join retry) and unknown events change neither the queue nor the flag and make no stack call. Every event keeps old entries as a prefix, never clears the flag, and keeps the delay invariant. The send count grows by one exactly on CONNECTED and UPLINK_REQUIRED |
| `EventQueues.EventQueue.constructor` | main.cpp:49 | The static queue starts with nothing pending and dispatch not broken |
| `EventQueues.EventQueue.CallIn` | main.cpp:142 | `call_in` appends exactly one entry with the given delay and callback, and changes nothing else |
| `EventQueues.EventQueue.BreakDispatch` | main.cpp:180 | `break_dispatch` sets the flag and leaves the pending entries as they were |
| `EventQueues.CountSendsAppend` | main.cpp:134-142 | Helper for the model's own send count: the number of pending `send_message` entries adds up over concatenation. Every append site above relies on it |
| `Uplink.CountSendsNone` | main.cpp:63 | Helper: entries the stack posts into the shared queue are never application sends, so they add nothing to the send count |

## Left out

- The LoRaWAN MAC/PHY, the radio driver and the join procedure are library code. Only their return codes and events are modelled, as inputs.
- The CayenneLPP encoding of the reading is an external codec, so the payload is an opaque byte sequence passed to `SendMessage`.
- The sensor setup (`hum_temp->enable()`) and the floating-point temperature read are hardware drivers; the reading enters only through the payload.
- `EventQueue::dispatch_forever` is not modelled. That covers timing, the order in which pending callbacks fire, blocking, and the loop stopping after `break_dispatch`. The model keeps only the effects on the pending entries and the flag. `main` makes no `call_in` of its own before dispatch, so dispatch starts with no `send_message` entry pending. The stack may already have posted its own timers during `initialize` and `connect`.
- The stack may post its own callbacks into the same queue. They appear only as opaque `StackTimer` entries, which `Startup` takes as inputs. Its `requires` says the stack never posts the application's `send_message`.
- EventQueues.EventQueue.CallIn: always succeeds. mbed's `call_in` allocates from a fixed pool, which the stack's timers share, and returns 0 when the pool is full. main.cpp:134, 137, 142 and 177 ignore that id, so with a full pool `send_message` would silently stop re-arming. A full pool is not modelled. The "exactly one re-arm" of `SendMessage` and `HandleEvent` holds only while the pool has room. Repeated UPLINK_REQUIRED events make pending sends pile up (`AfterSendsGrowth`), so a full pool is reachable in practice.
- `printf` and `mbed_trace` output have no behaviour to verify and are left out. The one exception is the received bytes, which are returned as `reported`.
- The `TARGET_SIMULATOR` compile-time branch and the hard-coded device EUIs and application key are configuration data.
- Uplink.ReceiveMessage: requires the stack's return code to be at most 50, the buffer length it was given. A larger count would make the source read past `rx_buffer`, so the source relies on the stack never returning one.
- `MBED_ASSERT("Unknown Event")` tests a non-null string literal and never fires, so the default branch is modelled as changing nothing.
- Uplink.HandleEvent: requires the same buffer bound on the receive data it passes to `ReceiveMessage`.
