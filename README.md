# Device-state synchronisation of the smart-room bridge

`app.py` lets a chat agent work the light and the door of a room through an
MQTT broker. The agent has two tools. `deviceState` reports a device's state
from the last reading the broker delivered. `deviceControl` sends a command
and then reports the state that follows. Readings arrive on the topics
`esp32-solomon/LED` and `esp32-solomon/DOOR`, and `on_message` stores them in
`deviceValues`. Commands go out on the matching `_CTL` topics. A reading of
-1 means "unknown". When a query sees an unknown reading, it publishes a
`"-1"` refresh probe, waits, and asks again, at most `MAX_RETRY` (3) times.
`on_disconnect` is written to reconnect with exponential backoff when the
link drops.

The model has seven modules:

- `Optional`: the option type.
- `Decimal`: Python's `int(text)` and `str(n)` for payload text.
- `Home`: the devices and topics, the reading store as a value, how a
  reading is classified, the reply texts, the accepted control pairs, and
  what one inbound message does to the store.
- `Sync`: `deviceState` and `deviceControl` as recursive functions over the
  store, the link and the sequence of waits (`StateRun`, `ControlRun`), with
  the lemmas about them.
- `Backoff`: the reconnect delay schedule and the reconnect loop.
- `Agent`: the `should_continue` router.
- `Bridge`: a class holding the process state. Its fields are `light`,
  `door`, `connected` and `outbox` (every `client.publish`, oldest first).
  Its methods are the callbacks and the tools. Each method's ensures give
  its reply and new state in terms of a function of `Home`, `Sync` or
  `Backoff`. `DeviceState` and `DeviceControl` are proved equal to
  `StateRun` and `ControlRun`. `OnMessage`, `Settle` and `Actuate` are tied
  to `Deliver`, `Absorb` and `Put`, and `OnDisconnect` to `Reconnect`.
  `deviceState`'s self-recursion becomes a loop whose body is one attempt
  (`Attempt`, with `Refresh` for its probe and wait).

A `time.sleep(WAIT_PUBLISH)` becomes a `Wait`, taken from a sequence the
caller supplies. Each `Wait` lists the messages the network thread delivers
during the sleep and says whether the link is up afterwards. Once the
sequence runs out, every further wait is quiet: no messages arrive and the
link does not change. Each `client.reconnect()` outcome is likewise a
supplied boolean.

`ControlRun` is defined so that, after an accepted pair, its reset, command
and wait are followed by `StateRun` from attempt 0. That a control answers
what `deviceState(device)` answers therefore holds by construction. The
lemmas about `ControlRun` state what follows from that: the command comes
first, then only probes of the same device, and a stale reading is never
reported.

## Model

| member | source | states |
|---|---|---|
| `Decimal.Parse` | app.py:66-68 | `int()` on the payload text: `None` where Python raises `ValueError`. It has no contract of its own; `Decimal.ParseShow` and `Home.DeliverEffect` state its properties. |
| `Decimal.Show` | app.py:66-68 | The decimal text a device sends for a reading (`str(n)`). It is never empty and has no surrounding whitespace, and `Decimal.ParseShow` proves that `Parse` inverts it. |
| `Decimal.ParseShow` | app.py:66 | A reading sent as its decimal text is decoded by `int()` back to the same integer, negative readings included. |
| `Decimal.DigitsOfNatText` | app.py:66 | The digits of a natural number read back as that number. |
| `Home.LookupDevice` | app.py:122-123 | A tool argument names a device exactly when it is a key of `deviceValues` ("light" or "door"), and it then names that device. |
| `Home.Put` | app.py:174 | Writing one device's reading sets that reading and leaves the other device's reading unchanged. |
| `Home.Classify` | app.py:125-151 | A light is on exactly at 1, off exactly at 0, and unknown for every other value. A door is open exactly above 45, unknown exactly at -1, and closed for every other value, 0 and other negatives included. |
| `Home.Text` | app.py:119-190 | The exact strings the two tools return for each reply. It has no contract of its own; it is the reply mapping the `Bridge` methods return. |
| `Home.Command` | app.py:173-188 | The accepted pairs and their payloads: light on "1", off "0", door open "80", close "2". It has no contract of its own; `Home.CommandPairs` states its properties. |
| `Home.CommandPairs` | app.py:173-190 | `deviceControl` accepts exactly light on/off and door open/close. Each accepted pair commands the device it names, with a payload that is not the refresh probe. |
| `Home.Deliver` | app.py:63-68 | `on_message` on the store as a value. It has no contract of its own; `Home.DeliverEffect` and `Home.DeliverReport` state its properties. |
| `Home.Absorb` | app.py:63-68 | The messages the network thread hands to `on_message` during one sleep, in order, up to the first that raises. It has no contract of its own; `Home.AbsorbSilent` and `Home.AbsorbKeepsUnknown` state its properties. |
| `Home.DeliverEffect` | app.py:63-68 | A message on `LED` or `DOOR` writes only that device's entry, with the decoded payload, or raises when the payload is not an integer. A message on any other topic changes nothing. |
| `Home.DeliverReport` | app.py:63-68 | A device reporting reading v as decimal text sets exactly its own entry to v. |
| `Home.AbsorbKeepsUnknown` | app.py:63-68 | An unknown reading stays unknown through a run of messages whose readings of that device are unknown or fail to decode. |
| `Home.AbsorbSilent` | app.py:63-68 | A run of messages containing none on device d's reading topic leaves d's reading unchanged. |
| `Sync.StateRun` | app.py:106-153 | `deviceState` as a recursive function over the store, the link and the waits, with measure `MAX_RETRY - retry_count`. It has no contract of its own; the `Sync.Query…` lemmas state its properties, and `Bridge.Bridge.DeviceState` is proved equal to it. |
| `Sync.ControlRun` | app.py:156-196 | `deviceControl` as a function. On an accepted pair it is by definition the command followed by `StateRun` from attempt 0, so its result equals `deviceState(device)` with retry 0. It has no contract of its own; the `Sync.Control…` lemmas state its properties. |
| `Sync.ProbeBudget` | app.py:132-136 | The number of probes a query may send from attempt k is 3 - k for 0 ≤ k ≤ 3. It exceeds `MAX_RETRY` exactly when k < -1. |
| `Sync.NotConnectedFailsFast` | app.py:119-120 | With the link down, both tools answer "Not connected to the server", with no publish and no change to the store. |
| `Sync.DefinitiveAnswersAtOnce` | app.py:125-151 | When the reading is on, off, open or closed, the query answers with that state at once, with no publish, no wait and no change. |
| `Sync.SuppressedAttempt` | app.py:133-136 | Retry count -1 skips the probe and the wait of its own attempt, then behaves as a query from attempt 0. |
| `Sync.QueryOnlyProbes` | app.py:132-148 | A query publishes only refresh probes `"-1"` to its own device's `_CTL` topic, at most `ProbeBudget(retry)` of them, so the recursion is bounded. An invalid device publishes nothing. |
| `Sync.QueryOnlyWaitsWrite` | app.py:106-153 | A query never writes `deviceValues` itself. Its final store and link are exactly what the waits leave, one wait per probe sent. |
| `Sync.QueryGivesUp` | app.py:132-149 | For a valid device whose reading is unknown, while the link stays up and no message arrives on the device's reading topic, a query from attempt k sends exactly `ProbeBudget(k)` probes (3 - k for 0 ≤ k ≤ 3). It then answers "Unknown … after multiple retries, please check manually." and the reading is exactly what it was. The premise covers every wait in the sequence, including any the query never reaches, so it asks more than the query needs. |
| `Sync.QueryGivesUpWhileUnknown` | app.py:132-149 | The same give-up from an unknown reading of a valid device. It holds for every wait that keeps the link up and brings only unknown or undecodable readings of the device, such as a light reporting 2 or -1, a door reporting -1, or a garbled payload. The query sends exactly `ProbeBudget(k)` probes, answers "Unknown … please check manually.", and the reading is still unknown. Like `QueryGivesUp`, its premise covers every wait in the sequence, including any the query never reaches. |
| `Sync.ControlPublishesCommand` | app.py:172-196 | An accepted control publishes its command first and then at most `MAX_RETRY` probes of the same device. Its store is what the waits leave after the device's reading is reset to -1. |
| `Sync.ControlRejectsPair` | app.py:189-190 | A pair that is not accepted returns "Invalid action '…' for device '…'", with no publish and no change to the store. |
| `Sync.ControlIgnoresStaleReading` | app.py:173-182 | The controlled device's reading before the command has no effect on the outcome of a control. |
| `Sync.ControlAwaitsFreshReading` | app.py:172-196 | After an accepted pair, if the link stays up through the wait after the command and no reading of the device arrives during it, the confirming query sends a probe of the device as the second publish. |
| `Sync.NoReportScenario` | app.py:125-137 | With nothing arriving, a light query from startup publishes three probes on `LED_CTL` and then gives the "check manually" answer. |
| `Sync.LightReportsScenario` | app.py:125-137 | An unknown light that reports "1" after the first probe gives "light is on" after exactly one probe. |
| `Sync.OpenDoorScenario` | app.py:181-196 | "door open" publishes "80" on `DOOR_CTL`. When the door reports "80" during the wait, the answer is "door is open" with no probe. |
| `Sync.MismatchedActionScenario` | app.py:173-190 | "open" is not an action of the light: the pair is refused. |
| `Sync.NegativeRetryScenario` | app.py:132-136 | Starting from retry -2, a door query sends four probes, one more than `MAX_RETRY`. |
| `Backoff.DelayAt` | app.py:58-59 | The delay before attempt i, as the loop updates it (double, then cap at 60). It has no contract of its own; `Backoff.DelayIsCappedPower` and `Backoff.DelaySchedule` state its properties. |
| `Backoff.DelayIsCappedPower` | app.py:58-59 | The delay before attempt i is min(2^i, 60). |
| `Backoff.DelaySchedule` | app.py:46-60 | The delays are 1, 2, 4, 8, 16, 32 and then 60 forever. They never exceed 60 and never decrease. |
| `Backoff.Reconnect` | app.py:44-61 | At most 12 attempts, each preceded by its scheduled delay. Every attempt before the last one failed. The loop stops at the first success, and it reports failure only after 12 failed attempts. |
| `Agent.ShouldContinue` | app.py:204-211 | The graph routes to the tool node exactly when the last message carries tool calls, and ends otherwise. |
| `Bridge.Bridge.constructor` | app.py:39-42 | Both readings start at -1 (unknown) and nothing has been published. |
| `Bridge.Bridge.OnMessage` | app.py:63-68 | The store is updated as `Deliver` says. The call fails, and writes nothing, exactly when decoding the payload raises. |
| `Bridge.Bridge.Settle` | app.py:135 | A wait applies its messages in order, stopping at the first one that raises, and leaves the link as the wait says. |
| `Bridge.Bridge.DeviceState` | app.py:106-153 | The loop returns the reply text of `StateRun`, appends exactly its publishes, and leaves its store and link. |
| `Bridge.Bridge.Attempt` | app.py:119-148 | One call of `deviceState` up to its self-call. When it answers, it answers as `StateRun` does, with no publish. At -1 it publishes nothing and changes nothing. Otherwise it publishes one probe of the device and applies one wait to the store and the link, and it moves on to the remaining waits. In both cases the rest equals `StateRun` from the next attempt. |
| `Bridge.Bridge.Refresh` | app.py:134-135 | A refresh probe appends `"-1"` on the device's `_CTL` topic, followed by one wait. |
| `Bridge.Bridge.DeviceControl` | app.py:156-196 | The reply text, publishes, store and link are those of `ControlRun`. |
| `Bridge.Bridge.Actuate` | app.py:173-186 | The device's reading becomes -1 and its command is appended to the publishes. |
| `Bridge.Bridge.OnDisconnect` | app.py:44-61 | The link is down until an attempt succeeds. The delays and the final link are those `Reconnect` proves. |

## Left out

- MQTT connection setup (`connect_mqtt`, `on_connect`, `client.loop_start`) and the paho client itself are not modelled. `client.reconnect()` is a supplied success/failure outcome. `client.is_connected()` is the `connected` field, and a successful reconnect sets it to true.
- Wall-clock time is not modelled. `time.sleep` in `on_disconnect` becomes the list of delays slept. `time.sleep(WAIT_PUBLISH)` becomes a supplied `Wait`.
- The tools' self-calls are modelled as direct calls of the undecorated functions with the arguments as written. These are `deviceState(device, retry_count + 1)` at app.py:136 and app.py:148, and `deviceState(device)` at app.py:196. Under `@tool` (app.py:105, app.py:155) the name is bound to a LangChain tool object. Its `__call__` takes the second positional argument as callbacks, not as `retry_count`. Under `@tool` the `Literal[...]` annotations at app.py:106 and app.py:156 also become the tool's argument schema. So "Invalid device" and actions outside the four literals are probably reachable only by direct calls, not through the tool node; the model covers them as the function bodies handle them. That library code is not part of this model.
- `Backoff.Reconnect` and `Bridge.Bridge.OnDisconnect` model the body of `on_disconnect`, not paho's invocation of it. The client is built with callback API version 2 (app.py:88), whose disconnect callback receives five arguments. `on_disconnect` is declared with three (app.py:44). Whether paho can call it at all depends on library code that is not part of this model.
- The paho network thread runs concurrently with the tools. The model is sequential: messages arrive only during a wait.
- When `on_message` raises, paho's handling of the escaped exception is not modelled. The model stops delivering the rest of that wait's messages, and the store keeps what was written before.
- `on_message` lets the `ValueError` from `int()` escape on a payload that is not an integer. The model follows the code, not a reading where such payloads are caught and ignored.
- Python's `int()` also accepts underscores between digits, non-ASCII digits and Unicode whitespace, and `bytes.decode()` may fail on invalid UTF-8. `Decimal.Parse` covers only ASCII whitespace, an optional sign and ASCII digits. Payloads are already-decoded text.
- `Sync.StateRun` has no depth bound. With the self-calls read as direct calls, each probe-and-retry adds a Python frame. CPython's default recursion limit (1000) then makes `deviceState` raise `RecursionError` instead of replying, for retry counts near -1000 and below. The model does not capture this, so `Sync.QueryOnlyProbes`, `Sync.QueryGivesUp` and `Sync.QueryGivesUpWhileUnknown` promise a reply for every integer retry count.
- `Decimal.ParseShow` holds for every integer. CPython's `int()` and `str()` raise `ValueError` on more than 4300 digits, and that limit is not modelled.
- The "Unknown error" return at app.py:153 is unreachable, because a device that passes the key check is "light" or "door". It has no counterpart in the model.
- The inner `else` branches at app.py:179-180 and app.py:187-188 are unreachable, because the action has already been checked. They have no counterpart in the model.
- `Agent.ShouldContinue` requires a non-empty message list. `messages[-1]` raises on an empty one, and the graph never calls the router with none.
- The LLM and the agent graph (`ChatOllama`, `ToolNode`, `StateGraph`, `call_model`), the FastAPI/LangServe routes and the uvicorn server are foreign library code or HTTP glue. They are not part of this model.
- `print` logging, the random client id and `uuid` are not modelled.
- A retry count below -1 is not rejected by the code. `Sync.NegativeRetryScenario` shows that it then sends more than `MAX_RETRY` probes. The model keeps this behaviour and does not claim the `MAX_RETRY` bound for such counts.
