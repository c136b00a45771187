# X1 validator status checker: a Dafny model

This project models the core of a small watchdog for one blockchain validator.
Every check interval it asks the node's JSON-RPC `getHealth`, classifies the
answer as `healthy`, `healthy unknown`, `lagging` or `offline`, and decides
whether to send a Telegram alert. It keeps one WebSocket to the node and
reconnects with exponential backoff. It answers `/status` with a fresh
classification, three slot numbers, an uptime string and the connection flag.

The model has one module per concern:

- `Env`: the four status strings.
- `JsValues`: the JavaScript semantics the code relies on. This covers
  truthiness of environment strings, `${v}` rendering of unset values,
  `Math.floor`, the truncating `%`, and `String(n)` with a parser that reads it back.
- `Helper`: `getUptime`.
- `Health`: `getHealth`, as a total function from the RPC reply to a status object.
- `Telegram`: the request `sendTelegramMessage` would post, and its skip guard.
- `Monitor`: `monitorValidatorStatus`.
  - The pure step function `MonitorStep` and its runs `Run`.
  - The class `AlertMonitor`, which holds `lastValidatorStatus` and
    `lastAlertTime` and whose method is proved equal to `MonitorStep`.
- `Socket`: `connectWebSocket` and its handlers.
  - The backoff delay.
  - A step function over connection events with its invariant, and event-history lemmas.
  - The class `WebSocketManager`, whose fields are `ws` (its ready state), `isWebSocketConnected`,
    `wsReconnectAttempts`, `uptimeStart` and the last scheduled delay.
- `StatusEndpoint`: `getSlotWithCommitment` and `fetchSlots`, plus the `/status`
  response object. The object is a map from keys to values, and `a + b` plays the role of `{...a, ...b}`.

Network replies, the clock, and events from the socket library are all parameters.
This covers `Date.now()` and the helper's load-time `uptimeStart`. Each RPC call is replaced by
a datatype of what the call could produce: it threw, or it returned a body.

What the code does, and therefore what the model does:

- The first observation alerts only when it is lagging.
- A lagging status alerts on every cycle.
- The code has no slots-behind throttle, no reconnect attempt budget and no block-hash lookup.
- An RPC error whose message is not "Node is unhealthy" is lagging, even with zero slots behind.
- `numSlotsBehind` stays in the response when it is 0.
- The reported uptime is measured from the helper module's load time, not from the last connect.
- Monitoring cycles are taken one at a time, in order (see "## Left out" for overlapping cycles).

## Model

| member | source | states |
|---|---|---|
| Env.StatusNameInjective | env.js:9-12 | no two statuses share a string, so comparing status strings is comparing statuses |
| JsValues.FloorDiv | helper.js:16 | the quotient is the floor: `b*q <= a < b*(q+1)` |
| JsValues.Rem | helper.js:18-19 | JavaScript `%`: `a == b*trunc(a/b) + r`, with the remainder taking the sign of `a` |
| JsValues.IntToString | helper.js:20 | `String(i)` is the canonical numeral: digits with no leading zero, preceded by '-' exactly when `i` is negative, and it reads back to `i` |
| JsValues.NatToString | helper.js:20 | decimal digits, non-empty, no leading zero; the first digit is '0' only for 0 |
| JsValues.NatToStringRoundTrip | helper.js:20 | the digits of `n` have value `n` |
| Helper.ElapsedSeconds | helper.js:15-16 | whole seconds elapsed, floor of the milliseconds over 1000 |
| Helper.Parts | helper.js:15-19 | hours is the floor of total seconds over 3600; for a clock at or after the start, minutes and seconds lie in 0..59 and `h*3600+m*60+s` equals the total seconds |
| Helper.DecomposeSeconds | helper.js:17-19 | whole hours, leftover minutes and leftover seconds add back to the total |
| Helper.GetUptime | helper.js:14-21 | the string is exactly `String(hours) + "h " + String(minutes) + "m " + String(seconds) + "s"` of the computed components, and parses back to them |
| Helper.FormatRoundTrip | helper.js:20 | `"<h>h <m>m <s>s"` parses back to its components, so the format is unambiguous |
| Helper.ElapsedMonotone | helper.js:15-16 | a later clock reading never reports fewer elapsed seconds |
| Helper.ClockBeforeStart | helper.js:15-19 | a clock before the start gives negative hours and non-positive minutes and seconds, with no clamping |
| Helper.OneSecondBeforeStart | helper.js:15-19 | one second before the start yields -1h -1m -1s |
| Health.GetHealth | status.js:76-101 | offline iff the call threw; healthy iff the result is "ok"; otherwise an error gives lagging unless its message is exactly "Node is unhealthy", which gives healthy unknown with that message; no error gives healthy unknown with no message; lagging carries the error's message and `numSlotsBehind` or 0; only lagging has `numSlotsBehind` |
| Health.LaggingWithZeroSlots | status.js:88-95 | an error without a slot count is lagging with 0 slots behind |
| Health.OkResultOverridesError | status.js:84-88 | a result of "ok" wins over an error in the same body |
| Telegram.RequestUrlDeterminesToken | status.js:35 | for one API URL, two requests with the same URL carry the same rendered token |
| Telegram.SendAsWritten | status.js:30-33 | as written: skips iff the token and the chat id are both missing |
| Telegram.SendAsWrittenPostsWithoutChatId | status.js:30 | a token without a chat id still posts, with no chat id |
| Telegram.Send | status.js:30-33 | corrected variant (not what the code runs): posts iff both the token and the chat id are set |
| Telegram.SendAlwaysNamesChat | status.js:30-36 | every request the corrected guard lets through names a chat |
| Telegram.GuardsAgreeWhenBothOrNeither | status.js:30 | the two guards differ only when exactly one of the two values is set |
| Monitor.AlertText | status.js:110-125 | the alert text determines the status it reports; a lagging text ends with the node's message, or "undefined" |
| Monitor.AlertTextDeterminesStatus | status.js:107-126 | equal alert texts report equal statuses |
| Monitor.MonitorStep | status.js:103-131 | alerts iff (an earlier status is known and differs) or the status is lagging; at most one text, that of the current status; the new memory holds the current status; `lastAlertTime` becomes `now` exactly when it alerts |
| Monitor.FirstCycleAlertsOnlyWhenLagging | status.js:105 | from the empty memory only a lagging status alerts |
| Monitor.Run | status.js:133-135 | one alert slot per cycle of the interval |
| Monitor.RunAlertsExactlyWhen | status.js:105-126 | cycle i alerts iff its status differs from cycle i-1's (or from memory, for the first), or is lagging, and then with its own status's text |
| Monitor.RunFinalStatus | status.js:130 | after a run the memory holds the last cycle's status |
| Monitor.QuietRunKeepsAlertTime | status.js:107-128 | a run in which no cycle alerts leaves `lastAlertTime` unchanged |
| Monitor.RunLastAlertTime | status.js:107-128 | after a run `lastAlertTime` is the clock reading of the last alerting cycle |
| Monitor.SteadyStatusIsSilent | status.js:105 | repeating the remembered non-lagging status never alerts |
| Monitor.HealthyThenUnhealthy | status.js:84-130 | "ok" then "Node is unhealthy" from empty memory sends one alert, for the change |
| Monitor.LaggingRepeats | status.js:105-116 | the same lagging reply twice sends two alerts |
| Monitor.AlertMonitor.constructor | status.js:24-25 | starts with no status and `lastAlertTime` 0 |
| Monitor.AlertMonitor.MonitorValidatorStatus | status.js:103-131 | the new fields and the sent text are those of `MonitorStep` on the classified reply |
| Socket.Pow2Monotone | status.js:156 | `2^j <= 2^k` for `j <= k` |
| Socket.ReconnectDelay | status.js:156 | the delay lies in [5000, 30000] and is 30000 from three attempts on |
| Socket.DelaySchedule | status.js:156 | the first three delays are 5000, 10000 and 20000 |
| Socket.DelayMonotone | status.js:156 | more attempts never shorten the delay |
| Socket.Step | status.js:137-163 | every event preserves the invariant: the flag mirrors an open socket, an open socket has zero attempts, and a positive count matches the last delay |
| Socket.InitialInv | status.js:21-26 | the load-time state satisfies the invariant |
| Socket.ReplayWithoutOpen | status.js:153-163 | without an open event, attempts grow by the number of closes and `uptimeStart` is untouched |
| Socket.AttemptsCountClosesSinceLastOpen | status.js:146-158 | after any history, attempts equal the closes since the last open, and `uptimeStart` is that open's time |
| Socket.RetriesNeverStop | status.js:153-158 | after any number of failed reconnections the socket is dialing again, with every failure counted: there is no attempt budget |
| Socket.WebSocketManager.constructor | status.js:21-26 | no socket, disconnected, zero attempts, `uptimeStart` at load time |
| Socket.WebSocketManager.Connect | status.js:137-144 | no-op while open; otherwise dials a new socket and changes nothing else |
| Socket.WebSocketManager.OnOpen | status.js:146-151 | sets connected and open, resets attempts to 0, sets `uptimeStart := now` |
| Socket.WebSocketManager.OnClose | status.js:153-158 | clears connected, schedules `min(5000*2^k, 30000)` with k the count before the increment, then increments the count by 1 |
| Socket.WebSocketManager.OnError | status.js:160-163 | changes no state; sends the offline alert through the guard as written, so the request is made iff the token or the chat id is set, and it is `RequestFor` of that alert |
| StatusEndpoint.GetSlotWithCommitment | status.js:51-62 | null iff the call threw; otherwise the reply's `result`, undefined when absent |
| StatusEndpoint.FetchSlots | status.js:64-74 | each slot is null exactly when its own call failed, and depends on that call alone |
| StatusEndpoint.OneFailedFetch | status.js:64-74 | one failed call blanks only its own field |
| StatusEndpoint.HealthObject | status.js:171 | the status object carries `status`, plus `message` and `numSlotsBehind` exactly when set |
| StatusEndpoint.BuildResponse | status.js:170-176 | the response carries status, message and `numSlotsBehind` as classified (0 included), the three slots, the uptime, and `websocket` "connected" iff connected, "disconnected" otherwise |
| StatusEndpoint.PositiveLagSpreadIsRedundant | status.js:171-173 | removing the conditional `numSlotsBehind` spread leaves the response unchanged |
| StatusEndpoint.HandleStatus | status.js:166-180 | the response is `BuildResponse` of the classified reply, the fetched slots, the helper's uptime and the connection flag; in particular status offline iff the health call threw, `numSlotsBehind` present iff lagging, each slot null iff its call failed, the uptime parses back to the helper's components, and `websocket` "connected" iff the flag is set |
| StatusEndpoint.ReportedUptimeIgnoresSocketReset | helper.js:2-21 | the reported uptime is measured from the helper's load time; an open event's `uptimeStart` reset does not change it |

## Left out

- The express server, the `/status` routing, `listen`, `process.exit` and the startup message: these are HTTP plumbing.
- The axios calls. Each reply is a datatype parameter (threw, or a body). The handling of Telegram's reply only logs, so it is not modelled.
- `setInterval` and `setTimeout`. The close handler returns and records the delay it schedules. The timer's later `connectWebSocket` call is a `Connect` the caller makes. The interval runs only when both Telegram values are set (status.js:133-135); `Run` models cycles of that interval.
- Socket delivery. The model assumes one socket: every event acts on the module variables and on `ws`.
  - A stale socket's events after a new socket has been dialed are not modelled.
  - `CLOSING`, and the library's ordering of `error` before `close`, are not modelled.
- Overlapping monitoring cycles. `setInterval` (status.js:134) does not wait for a cycle to finish, and no axios call has a timeout. A cycle reads `lastValidatorStatus` after awaiting `getHealth` and writes it after awaiting the Telegram POST. So two overlapping cycles can both read the same old status and repeat an alert (healthy, then offline twice, gives two "offline" alerts). `Monitor.Run` and `Monitor.AlertMonitor.MonitorValidatorStatus` treat each cycle as atomic, in completion order, and do not capture that repetition.
- The corrected guard `Telegram.Send` is used by no operation: every caller of `sendTelegramMessage` in the model (the error handler) runs the guard as written.
- Logging (`logWithTimestamp`, `console.log`, `toISOString`): output only.
- env.js loading. Only the four status strings are used. Telegram configuration values are parameters.
- JavaScript numbers are unbounded integers here.
  - No floating point, no precision loss above 2^53, no `Infinity`.
  - No non-integer or non-numeric `numSlotsBehind` or slot result.
  - No non-string `message` or `result`, and no truthy non-object `error`.
- A lagging status whose error had no message holds `message: undefined`. The model omits the key. `res.json` drops it the same way, and the alert text renders "undefined".
- Monitor.AlertMonitor.MonitorValidatorStatus: returns the alert text handed to `sendTelegramMessage`, not the HTTP request. The interval only runs when both Telegram values are set, and then the request is `Telegram.RequestFor` of that text.

## Findings

| source | as written | input that shows it | evidently intended | confidence | as-written member | corrected member |
|---|---|---|---|---|---|---|
| status.js:30 | `!TELEGRAM_BOT_TOKEN && !TELEGRAM_CHAT_ID` skips only when both are missing | token set, chat id unset: the guard passes and the message is posted with no `chat_id` | skip when either is missing, as the guard's own log line ("Bot Token or Chat ID is missing") says | medium, not executed | Telegram.SendAsWritten, Telegram.SendAsWrittenPostsWithoutChatId | Telegram.Send |
