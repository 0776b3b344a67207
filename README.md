# tuya-local node: command queue and reconnection model

A Dafny model of the orchestration inside the `TuyaNode` of the Node-RED
node `tuya-local`: the command queue that `setDevice` drains, the
reconnection bookkeeping of the `disconnected`, `connected` and `error`
handlers and of `connectToDevice`, the teardown done by `close`, and the
state updates and message of the `data` handler.

The device library (tuyapi), Node-RED and the timers are not executed.
Every call the node makes into the device, every `setTimeout` and
`clearTimeout`, every wait of the drain and every message it sends is
appended to an effect log (`TuyaNode.log`); a timer stays in
`TuyaNode.timers` until it fires (`FireTimer`) or is cleared. Whether a
device call rejects is an oracle parameter `fails: set<nat>`, the
positions within the drain of the commands whose call rejects; the outcome of a discovery is
a parameter of `OnDiscovery`.

Files and modules:

- `types.dfy` (`Types`): payloads, values, timer jobs, messages, effects,
  configuration.
- `commands.dfy` (`Commands`): the classification chain of `setDevice`, the
  device call made per payload, and `DrainSpec`, the drain loop as a
  function of the queue and of the device's answers, with the FIFO,
  spacing, recovery and first-throw lemmas.
- `supervisor.dfy` (`Supervisor`): the retry decision of the `error`
  handler and lemmas over runs of errors (linear backoff, cap, monotone
  counter).
- `telemetry.dfy` (`Telemetry`): the message and the auto-off delay of the
  `data` handler.
- `node.dfy` (`Node`): class `TuyaNode`, whose fields are the closure
  variables of the node (`commandQueue`, `connectionRetries`, `set_timeout`,
  the `timeout` handle, `dev_info.available`) and whose methods are its
  functions and event handlers. `SetDevice` is a `while` loop over the
  queue field proved equal to `DrainSpec`.
- `scenarios.dfy` (`Scenarios`): clients that drive a fresh node through
  short event sequences and state the outcome from the contracts alone.

Points of the code's behaviour that are easy to miss, all kept by the model:

- The `connected` handler does not reset `connectionRetries`; the counter
  only grows, up to `MAX_RETRIES = 10`.
- Only an error whose text contains `ECONNREFUSED` drives the backoff; every
  other error is only reported, except that an error containing
  `Error from socket` also cancels the reconnect held in `timeout`.
- The "disconnect" input calls `device.disconnect()` directly and leaves
  `set_timeout` as it is, so the `disconnected` event that follows does
  schedule a reconnect (when `set_timeout` holds).
- A primitive payload that is neither one of the four tags nor a boolean is
  not ignored: `"dps" in p` throws, which aborts the drain and triggers the
  recovery `connectToDevice(3000, …)`.
- A throw does not abandon the queued commands: they stay in
  `commandQueue` and are drained by the next `setDevice`.
- Nothing cancels an earlier auto-off timer or an earlier reconnect timer
  whose handle was overwritten. (Nothing prevents two drains from
  overlapping either; see "Left out".)

## Model

| member | source | states |
|---|---|---|
| `Commands.Classify` | tuya-local.js:106-134 | the `in` test throws a TypeError exactly on the primitives that are neither one of the four tags nor a boolean, and exactly an object with neither `dps` nor `multiple` falls through every test unhandled |
| `Commands.ClassifyCharacterised` | tuya-local.js:106-134 | each action is characterised by the payloads that reach it: the four tags by string equality, every boolean to `set({set: b})`, an object with `dps` to `set(req)` unchanged (also when it has `multiple`), an object with `multiple` but no `dps` to `set({multiple: true, data: req.data})`, an object with neither to no action, and every other primitive to the TypeError of the `in` test |
| `Commands.Dispatch` | tuya-local.js:106-133 | a recognised payload makes exactly one call (device call or `connectToDevice(5, …)`), an ignored object or a throwing primitive none, and no call is a wait or the recovery request |
| `Commands.ThrowingActions` | tuya-local.js:31-150 | a dispatch aborts the drain only by the TypeError of the `in` test or by a rejected device call (`get`, `set`, `toggle`, `disconnect`), exactly when the device rejects it; the "connect" input never throws because `connectToDevice` catches its own errors, and an ignored object makes no call |
| `Commands.DrainSpec` | tuya-local.js:103-150 | the drain consumes at most the whole queue, consumes all of it when nothing throws, and at least one payload when it aborts |
| `Commands.DrainIsFifo` | tuya-local.js:98-104 | the device calls of a drain, waits and recovery removed, are those of the consumed payloads taken head first in enqueue order |
| `Commands.DrainSpacing` | tuya-local.js:136-137 | counts the waits: one 2000 ms wait per consumed command that does not throw, recognised or not, none for the one that throws |
| `Commands.DrainIsSpaced` | tuya-local.js:103-150 | each command's 2000 ms wait directly follows that command's own calls: a completed drain is exactly `Spaced` of the queue (calls, wait, calls, wait, …), an aborted one is `Spaced` of the payloads before the throwing one, then its calls, then the recovery request |
| `Commands.DrainRecovery` | tuya-local.js:139-150 | an aborted drain issues exactly one `connectToDevice(3000, …)`; a completed drain issues none |
| `Commands.DrainEndsWithRecovery` | tuya-local.js:139-150 | the recovery request of an aborted drain is its last effect: nothing follows the throw in the same drain |
| `Commands.DrainAbortsAtFirstThrow` | tuya-local.js:97-150 | an aborted drain stopped at the first payload that throws: the last consumed payload throws and none before it does |
| `Commands.DrainCompletesIffNoThrow` | tuya-local.js:103-138 | a drain completes exactly when no queued payload throws |
| `Supervisor.OnRefusal` | tuya-local.js:223-246 | a retry is scheduled exactly for a refusal below the cap; it increments the counter by one and waits 5000 ms times the new count; the counter stays within the cap |
| `Supervisor.RefusalsBackOffLinearly` | tuya-local.js:200-246 | n consecutive refusals from count r leave the counter at min(r + n, 10) and schedule delays 5000·(r+1), 5000·(r+2), … up to the cap, then nothing |
| `Supervisor.RetriesOnlyGrowToCap` | tuya-local.js:200-247 | over any run of errors the counter never decreases, never exceeds 10, and exactly one retry is scheduled per increment |
| `Supervisor.OtherErrorsKeepRetries` | tuya-local.js:223 | errors without `ECONNREFUSED` leave the counter unchanged and schedule nothing |
| `Telemetry.DataMessage` | tuya-local.js:253-277 | the message is filtered exactly when `filterCB` is non-empty; `dps` is key-renamed exactly when the schema is valid JSON and is otherwise unchanged; snapshot, command byte and other fields are carried over |
| `Node.TuyaNode.constructor` | tuya-local.js:10-201 | a new node has an empty queue, no retries, `set_timeout` true, no reconnect handle, no timers, unknown availability, and has issued the deploy `connectToDevice(5, …)` |
| `Node.TuyaNode.ConnectToDevice` | tuya-local.js:31-37 | a connection request starts one discovery with the given timeout |
| `Node.TuyaNode.OnDiscovery` | tuya-local.js:35-65 | a found device is connected to; a failed discovery schedules the same request after 5000 ms, with no limit and without touching the retry counter |
| `Node.TuyaNode.ClearReconnectTimer` | tuya-local.js:179-185 | the timer held in `timeout` is no longer pending; nothing changes while `timeout` was never assigned |
| `Node.TuyaNode.DisconnectDevice` | tuya-local.js:78-90 | `set_timeout` becomes `!deleted` and the device is told to disconnect |
| `Node.TuyaNode.Execute` | tuya-local.js:106-133 | one pass of the if/else chain makes the calls `Dispatch` gives and throws exactly as `Throws` says |
| `Node.TuyaNode.SetDevice` | tuya-local.js:96-151 | the request is appended at the tail; the effects are those of `DrainSpec` on the whole queue, and the queue left is its unconsumed suffix in order, empty when the drain completes |
| `Node.TuyaNode.Shift` | tuya-local.js:103-150 | one iteration of the drain removes the head of the queue, makes its calls, and then either waits 2000 ms or, when the pass throws, requests the recovery connection |
| `Node.TuyaNode.OnDisconnected` | tuya-local.js:156-170 | availability becomes false, one message is sent, and a 5000 ms reconnect is scheduled and held in `timeout` exactly when `set_timeout` holds |
| `Node.TuyaNode.OnConnected` | tuya-local.js:172-186 | the reconnect held in `timeout` is cancelled and that cancellation is the only effect (none while `timeout` was never assigned): no device call, no message; the retry counter is not reset |
| `Node.TuyaNode.OnError` | tuya-local.js:203-248 | a socket error cancels the reconnect in `timeout`; the counter and the scheduled retry follow `OnRefusal` |
| `Node.TuyaNode.OnData` | tuya-local.js:250-279 | availability becomes true; exactly when `timerOFF` is non-zero one auto-off timer of `timerOFF × 1000` ms is added per event, with earlier timers kept; one `DataMessage` is sent |
| `Node.TuyaNode.Close` | tuya-local.js:285-300 | for removal and redeploy alike, a connected device is disconnected with reconnects suppressed; otherwise nothing changes |
| `Node.TuyaNode.FireTimer` | tuya-local.js:61-269 | a pending timer leaves `timers` and runs its job: a reconnect issues its discovery, the auto-off runs `setDevice({dps: 20, set: false})`; a timer that is not pending does nothing |
| `Scenarios.ThreeCommandsInOrder` | tuya-local.js:103-137 | `true`, "toggle", `{dps: 5, set: false}` give three calls in input order, each followed by one 2000 ms wait, and an empty queue |
| `Scenarios.PrimitiveAbortsDrain` | tuya-local.js:127-149 | a number in the queue aborts the drain with one recovery request and leaves the payloads behind it queued |
| `Scenarios.ReconnectCancelledByConnected` | tuya-local.js:165-180 | a `disconnected` event schedules one reconnect at 5000 ms and a following `connected` event cancels it |
| `Scenarios.OverwrittenReconnectSurvives` | tuya-local.js:166-180 | after two `disconnected` events, `connected` cancels only the second reconnect and the first stays pending |
| `Scenarios.ThreeRefusals` | tuya-local.js:231-241 | three refusals schedule retries at 5000, 10000 and 15000 ms and leave the counter at 3 |
| `Scenarios.RetriesSurviveConnected` | tuya-local.js:172-232 | a `connected` event between two refusals leaves the counter at 2 |
| `Scenarios.CloseSuppressesReconnect` | tuya-local.js:285-298 | after `close` on a connected device, the `disconnected` event schedules no reconnect |
| `Scenarios.AutoOffTimersAccumulate` | tuya-local.js:260-270 | n data events with `timerOFF` set leave n auto-off timers pending |

## Left out

- The tuyapi device: foreign I/O. The calls `find`, `connect`, `get`, `set`, `toggle` and `disconnect` are recorded as effects, and their success or failure is a parameter; the answer of `isConnected()` is the `connected` parameter of `Close` and is not recorded; `device.socket` is only used for the error listener below.
- Real time, `setTimeout`, `clearTimeout` and `wait`: delays are recorded as numbers; a timer fires only when `FireTimer` is called.
- Overlapping drains: two `setDevice` calls can interleave at their `await` points; the model runs one drain per call to completion. A queue that is non-empty when `setDevice` starts stands for inputs pushed during such an overlap.
- The failure of a `connect` after a successful discovery, and a synchronous throw inside `connectToDevice` or `disconnectDevice`: both are only reported (status and log), so they change no modelled state.
- The socket `error` listener registered by the `connected` handler: it only reports.
- `node.status`, `log`, `warn`, `error` and the `input` wiring: host plumbing; `send` is kept as an effect.
- `keyRename`, `filterCommandByte`, `checkValidJSON`, `getHumanTimeStamp` (`lib/utils`) are not part of this model: renaming and filtering appear as the symbolic terms `KeyRenamed` and `Filtered`, and the verdict of `checkValidJSON` on the configured schema is a configuration field.
- Error texts: an error is a record of two flags, "contains `Error from socket`" and "contains `ECONNREFUSED`", instead of a substring search.
- JavaScript loose equality on non-primitive payloads: an array or an object whose string conversion equals a tag (such as `["toggle"]`) would match that tag in the source; the model treats every object by its keys only.
- `timerOFF` given as a string by the host's configuration would compare unequal to 0 even when it is `"0"`; the model takes `timerOFF` as an integer.
- Node.TuyaNode.SetDevice: the `JSON.stringify` of the queue logged at the top of the `try` is not modelled; every payload is taken to be serialisable. A payload it cannot serialise (a circular object, a BigInt) would make that line throw before any dispatch, so the source requests the recovery connection, keeps the payload queued and fails the same way on every later `setDevice`, a stuck queue the model does not show.
- The guard `"commandByte" !== null` of the data handler compares a string literal and is always true; the model has no guard there, so a data event with a null command byte is handled like any other.
- `dev_info` is one object shared by every message sent; later changes to `available` show through messages already sent. The model records each message with a snapshot of `dev_info`.
- The implicit globals `timeout` and `msg` are shared by every node instance in the runtime, so one node's `connected` event can clear another node's reconnect timer; the model has one node and keeps `timeout` per node.
