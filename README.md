# primus-multiplex, modelled in Dafny

A model of the channel multiplexing protocol of `primus-multiplex`: many
logical channels share one Primus connection. Each channel is addressed by an
`[type, id, name]` frame prefix, with type codes MESSAGE = 2, SUBSCRIBE = 3
and UNSUBSCRIBE = 4.

The model covers both halves of the library:

- **Client** (`lib/client/index.js`). It has the `Multiplex` object with its
  `channels` dictionary, the `uuid()` counter, the `channel(name)` factory and
  the `incoming` hook. The hook consumes every array payload and routes
  MESSAGE and UNSUBSCRIBE frames by id. It also has the client `Channel`: it
  subscribes on `open`, has `write`, and has an idempotent `end` that defers
  `close`.
- **Server** (`lib/server/channel.js`). It has the server `Channel`, with
  `write`, `end(data, fn)` and `destroy`.

Files:

- `wire.dfy` (module `Wire`): frame elements and the JavaScript coercions
  the code relies on. These are truthiness, `join('')` and property-key
  coercion. It also holds the shared frame encoder, decimal numerals, and
  the `Date.now() + '$' + counter` id format with its injectivity proof.
- `host.dfy` (module `Host`): what the library uses of its surroundings.
  - `Registry`: the `channels` dictionary, shared by reference between the
    `Multiplex` and every channel, as `spark.channels` is in the source.
  - `Spark`: the connection. Its `write` appends to `outbox`; it also holds
    its `open` listeners and its `channels` slot.
  - `Inbound`: the inbound packet, whose `data` is shifted in place.
  - `EventLoop`: an append-only log of emitted events, plus the
    `process.nextTick` queue, drained one task per `Tick`.
- `client.dfy` (module `Client`): `Dispatch`, the hook on values, with the
  lemmas about its cases. Also the classes `Channel` and `Multiplex`, whose
  methods are proved against `Dispatch` and the state they change.
- `server.dfy` (module `Server`): the server `Channel` and `EndArguments`,
  which is how `end(data, fn)` reads its arguments.
- `scenarios.dfy` (module `Scenarios`): whole runs over fresh objects. They
  cover subscribe on open, double `end` on both sides, `destroy`, and a
  MESSAGE or UNSUBSCRIBE sent by a server channel and routed by the client.

Some behaviours of the code a reader may not expect:

- The client consumes **every** array payload, whatever its first element.
- A SUBSCRIBE reaching the client is ignored.
- The client creates no mirror channels.
- The payload is rebuilt with `join('')`, so what is delivered is a string.
- A client's `close` on `end` is deferred; on an inbound UNSUBSCRIBE it is
  synchronous.
- On the server, `end` writes its closing MESSAGE even when the channel is no
  longer registered.
- `write(0)`, `write(false)`, `write("")` and `write(null)` all arrive as an
  empty string, because `packet` leaves a falsy `data` out of the frame.
- A channel only listens for later `open` events. One made after the
  connection opened writes no SUBSCRIBE until the next `open`.
- `end` does not remove the `open` listener. A channel ended before the
  connection opens still writes its SUBSCRIBE frame when it does.

## Model

| member | source | states |
|---|---|---|
| Wire.NatToDecimal | lib/client/index.js:247 | the numeral of a counter or clock reading is non-empty, all digits, with no leading zero |
| Wire.DecimalInjective | lib/client/index.js:247 | distinct numbers have distinct numerals |
| Wire.UuidInjective | lib/client/index.js:246-248 | an id `now + '$' + count` determines both its clock reading and its counter, because numerals hold no `'$'` |
| Wire.UuidDistinct | lib/client/index.js:246-248 | ids minted with different counter values differ whatever `Date.now()` returned |
| Wire.Truthy | lib/client/index.js:107 | only a present, non-`null` value can be truthy, and `0`, `""` and `false` are falsy (the same test is in lib/server/channel.js:86 and lib/server/channel.js:107) |
| Wire.Text | lib/client/index.js:165 | `join('')` renders a string as itself and `null` as the empty string, and a number or boolean as a non-empty string |
| Wire.Key | lib/client/index.js:167 | a string id is its own property key, a natural number's key is its decimal numeral, and `undefined` becomes the key `"undefined"` |
| Wire.UuidOf | lib/client/index.js:247 | the id has a `'$'` right after the clock reading's numeral |
| Wire.UuidShape | lib/client/index.js:247 | the `'$'` after the clock numeral is the only non-digit of an id |
| Wire.Increment | lib/client/index.js:247 | `ids++` adds one below 2^53 and leaves the counter at 2^53 once it gets there, because `2^53 + 1` rounds to `2^53` in a JavaScript number |
| Wire.Join | lib/client/index.js:165 | joining a single remaining element yields that element's string form |
| Wire.Encode | lib/client/index.js:106-108 | the frame starts with `[type, id, name]`; it has length 4 with `data` last exactly when `data` is truthy, and length 3 otherwise |
| Client.Channel.Packet | lib/client/index.js:105-109 | the client `packet(type, data)` gives that frame for the channel's own id and name |
| Server.Channel.Packet | lib/server/channel.js:84-88 | the server `packet(type, data)` gives that frame for the channel's own id and name |
| Host.Run | lib/server/channel.js:112-115 | a deferred task emits `close` first, then runs its callback if there is one, and nothing else |
| Host.EventLoop.Tick | lib/client/index.js:125-127 | one scheduler turn removes the oldest deferred task and appends what it emits; with nothing queued, nothing changes |
| Host.EventLoop.Defer | lib/server/channel.js:112 | `process.nextTick` appends one task at the end of the queue |
| Host.Spark.Write | lib/client/index.js:94 | `spark.write` appends exactly that packet and answers the host's result |
| Host.Spark.OnOpen | lib/client/index.js:59 | `spark.on('open', ...)` adds exactly one listener, for this channel, after the ones already bound |
| Host.EventLoop.Emit | lib/client/index.js:215 | `emit` appends exactly that one event to the log (also used at lib/client/index.js:231) |
| Host.Spark.Open | lib/client/index.js:59-61 | when the connection opens, each bound channel's listener writes that channel's SUBSCRIBE frame, in binding order, and nothing else is written |
| Host.Inbound.Shift | lib/client/index.js:162-164 | `shift()` yields the first element, or `undefined` on an empty array, and removes it |
| Host.Registry.constructor | lib/client/index.js:144 | a new registry is empty |
| Client.Dispatch | lib/client/index.js:159-180 | the hook passes a payload through exactly when it is not an array, and then leaves everything untouched. It only ever removes entries, at most one and only alongside one `close`. It emits at most one event, and only for a registered id. The payload is left holding what follows the three shifted elements |
| Client.UnknownIdIgnored | lib/client/index.js:167 | an array frame for an unregistered id is consumed with no event and no registry change |
| Client.UnsubscribeRemoves | lib/client/index.js:170-171 | UNSUBSCRIBE for a registered id removes exactly that id and emits one synchronous `close` |
| Client.MessageDelivers | lib/client/index.js:165-175 | MESSAGE for a registered id emits `data` with the remaining elements joined and leaves the registry unchanged |
| Client.OtherCodesIgnored | lib/client/index.js:169-177 | a SUBSCRIBE, an unknown code or a non-numeric first element is consumed with no effect |
| Client.MessageRoundTrip | lib/client/index.js:161-174 | a frame built by `packet(MESSAGE, d)` for a registered id delivers `d`'s string form when `d` is truthy, a non-empty string exactly, and the empty string when `d` is falsy, since `packet` dropped it |
| Client.UnsubscribeRoundTrip | lib/client/index.js:161-171 | a frame built by `packet(UNSUBSCRIBE)` removes its id and closes it if it was registered, and does nothing otherwise |
| Client.SubscribeIgnored | lib/client/index.js:169-176 | a SUBSCRIBE frame reaching the client changes nothing |
| Client.DispatchAsWritten | lib/client/index.js:167-175 | inherited-property lookup is modelled; away from `Object.prototype` names the hook behaves as `Dispatch` |
| Client.InheritedKeyThrows | lib/client/index.js:167-171 | `[4, "toString", name]` on an empty registry makes the hook as written throw, while own-property lookup drops it |
| Client.CounterSteps | lib/client/index.js:240-248 | the counter after `n` calls starts at `uuid.ids = 0` and each call applies one `ids++` (Wire.Increment) |
| Client.IssuedAppend | lib/client/index.js:246-248 | one more `uuid()` call appends its id, built from the current counter, to those already minted |
| Client.RepeatStopped | lib/client/index.js:246-248 | an earlier id equal to the next one was minted after the counter stopped at 2^53, at the same clock reading |
| Client.RepeatAfterStop | lib/client/index.js:246-248 | past 2^53 calls, an earlier call at the same clock reading has already minted the next id |
| Client.IssuedDistinct | lib/client/index.js:240-248 | two ids of successive `uuid()` calls are equal exactly when the counter had already stopped at 2^53 for the earlier one and both read the same clock value; all ids minted before that point are pairwise distinct |
| Client.NextIssued | lib/client/index.js:240-248 | the next id repeats an earlier one exactly when the counter has stopped at 2^53 and an earlier call past that point read the same clock value |
| Client.Multiplex.constructor | lib/client/index.js:141-146 | a new multiplexer has an empty registry and a zero counter |
| Client.Multiplex.Uuid | lib/client/index.js:246-248 | `uuid()` returns `now + '$' + ids` and steps the counter as `ids++` does; the id was issued before exactly when the counter has stopped at 2^53 and an earlier call past that point read the same clock value |
| Client.Multiplex.CreateChannel | lib/client/index.js:198-202 | `channel(name)` registers `escape(name)` under the id `uuid()` returns, points `primus.channels` at the registry and binds the channel's `open` listener. The id repeats an issued id exactly when `uuid()`'s does; below 2^53 calls it is new among all issued ids, hence among registered ones |
| Client.Multiplex.OnMessage | lib/client/index.js:213-217 | emits `data` only for a registered id |
| Client.Multiplex.OnUnsubscribe | lib/client/index.js:227-234 | a registered id is removed and `close` is emitted at once; an unregistered one changes nothing |
| Client.Multiplex.Incoming | lib/client/index.js:159-180 | the hook's answer, the new registry, the emitted events and the shifted payload are exactly those `Dispatch` gives |
| Client.Channel.constructor | lib/client/index.js:42-48 | the channel keeps its spark, id and name, takes `spark.channels` as its registry and binds itself |
| Client.Channel.Bind | lib/client/index.js:57-63 | adds exactly one `open` listener for this channel |
| Client.Channel.OnOpen | lib/client/index.js:72-76 | writes exactly one `[3, id, name]`, the step `Host.Spark.Open` takes for each bound channel |
| Client.Channel.Write | lib/client/index.js:92-95 | writes exactly one MESSAGE frame and returns what `spark.write` returns |
| Client.Channel.End | lib/client/index.js:119-130 | if registered, writes one `[4, id, name]`, removes the id and queues one deferred `close`; otherwise writes and queues nothing |
| Server.EndArguments | lib/server/channel.js:102-107 | a function passed as `data` becomes the callback and no data is written. Otherwise data is written exactly when truthy, and `fn` is run exactly when it is a function |
| Server.Channel.constructor | lib/server/channel.js:34-61 | the channel keeps its spark, id and name and takes `spark.channels` as its registry |
| Server.Channel.Write | lib/server/channel.js:71-74 | writes exactly one MESSAGE frame and returns what `spark.write` returns |
| Server.Channel.End | lib/server/channel.js:99-118 | writes the closing MESSAGE (if any) first, registered or not. Then, only if registered, it writes one `[4, id, name]`, deletes only this id and queues one task that emits `close` and then runs the callback |
| Server.Channel.Destroy | lib/server/channel.js:127-132 | is `end` with a callback that removes the channel's listeners after `close` |
| Scenarios.SubscribeOnOpen | lib/client/index.js:57-76 | a channel made before `open` writes nothing until then, and exactly one `[3, id, escape("ann")]` when the connection opens |
| Scenarios.TwoChannels | lib/client/index.js:198-248 | two channels made at the same clock reading get different ids and both are registered |
| Scenarios.ClientEndTwice | lib/client/index.js:119-130 | two `end()` calls write one UNSUBSCRIBE, unregister the channel at once, and emit one `close`, only after a tick |
| Scenarios.ServerEndTwice | lib/server/channel.js:99-118 | two `end(d, fn)` calls write the data twice but one UNSUBSCRIBE, and `close` then the callback run once |
| Scenarios.ServerEndWithCallbackOnly | lib/server/channel.js:102-105 | `end(fn)` writes no MESSAGE, one UNSUBSCRIBE, and runs `close` then `fn` |
| Scenarios.ServerDestroyTwice | lib/server/channel.js:127-132 | two `destroy()` calls write one UNSUBSCRIBE, emit `close` and remove the listeners once |
| Scenarios.MessageAcrossConnection | lib/client/index.js:159-175 | a non-empty string written by the server channel of the same id reaches the client channel as one `data` event and is not passed to the host |
| Scenarios.CloseAcrossConnection | lib/client/index.js:159-180 | a server `end` unregisters the client channel and emits `close` synchronously; a later MESSAGE for it is dropped with no event |
| Scenarios.EndedBeforeOpen | lib/client/index.js:57-76 | a channel ended before `open` writes its UNSUBSCRIBE and then, when the connection opens, its SUBSCRIBE |
| Scenarios.MadeAfterOpen | lib/client/index.js:57-76 | a channel made after `open` writes nothing until the next `open`, which writes its one SUBSCRIBE |
| Scenarios.HostTrafficPasses | lib/client/index.js:161-179 | a payload that is not an array passes through untouched and emits nothing |

## Left out

- Stream inheritance and listener bookkeeping (the `require('stream')`
  fallbacks and `__proto__` assignments). Emits are an append-only event log.
  `removeAllListeners` is logged as an event; the listener sets themselves
  are not modelled.
- Real scheduling. `process.nextTick` and the `setTimeout` fallback are a FIFO
  queue that `EventLoop.Tick` drains one task at a time.
- `Date.now()` is a natural-number parameter.
- `uuid.ids` is a JavaScript number. The model keeps only the effect of its
  rounding on `++`, which stops at 2^53 (Wire.Increment); the counter never
  grows past that value, so no other rounding applies to it.
- `escape(name)` is an arbitrary fixed function on strings, given to the
  `Multiplex`.
- Wire values are integers, strings, booleans and `null`. Floating-point
  numbers, objects, nested arrays and functions inside frames are not
  modelled, so neither is `join`'s or `String()`'s coercion of them.
- The registry maps each id to the name of the channel registered under it,
  standing in for the channel object. Events name the channel by id.
- Host.Spark.Open: the `open` listener each channel adds is its `onopen()`
  closure. It is recorded as the channel's id and name, and `Open` writes
  that channel's SUBSCRIBE frame itself, since the spark cannot hold the
  client channel objects without a cycle between modules.
- The Primus host API is left out: `primus.transform` registration, the
  `primus.channel` alias, `spark.on('open')` wiring and the transport behind
  `spark.write`. `spark.write`'s answer is a fixed `writeResult` of each
  `Spark`.
- The `mp` argument of the server channel is stored by the source but never
  used in it, so it is not modelled.
- The server code that creates a server channel on SUBSCRIBE is not part of
  this model. The scenarios build a server channel directly with the client
  channel's id and name.
- Client.Channel.End: the client `end` takes no arguments even though its
  comment mentions closing data, so there is no closing-data path.
- Client.Dispatch, Client.Multiplex.Incoming, Client.Multiplex.OnMessage,
  Client.Multiplex.OnUnsubscribe: all model `channels[id]` as an own-property
  lookup. Called directly, `onmessage("toString", d)` in the source finds a
  function and throws, where the model emits nothing. The first two return
  `false` silently on `[4, "toString", x]`, where the source throws. The
  source's `Object.prototype` hits are kept in Client.DispatchAsWritten (see
  Findings). Its list `InheritedKeys` is the set of names on a current
  engine's `Object.prototype`.
- Client.Channel.End: models `this.id in this.channels` as own-key
  membership. JavaScript's `in` also finds inherited names, so on an id such
  as `"toString"` the source writes UNSUBSCRIBE where the model writes
  nothing. Ids minted by `uuid()` are never such names.
- Wire.Text, Wire.Key: wire numbers are exact unbounded integers. A
  JavaScript number is a double, so rounding above 2^53 is not modelled, and
  neither is the exponent form `String()` gives from 10^21 up (`"1e+21"`).
- Server.Channel.End: models `this.id in this.channels` as own-key
  membership; JavaScript's `in` also finds inherited names such as
  `toString`. The constructor requires `spark.channels` to be set. The source
  accepts `undefined` there, and `end` then throws.

## Findings

| source | as written | input that shows it | evidently intended | confidence | as-written member | corrected member |
|---|---|---|---|---|---|---|
| lib/client/index.js:167-171 | `multiplex.channels` is a plain `{}`, so `channels[id]` also finds inherited properties such as `toString`. The lookup succeeds, and `onunsubscribe`/`onmessage` then call `emit` on a function, which throws a `TypeError` | the inbound frame `[4, "toString", "x"]` with no channels registered | a frame naming an unregistered id is dropped silently | high (not executed) | Client.InheritedKeyThrows | Client.UnknownIdIgnored |
