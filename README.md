# util.jsonp — a verified model of the JSONP loader

`util.jsonp` loads a script from a URL and hands the server's answer to a
callback. `makeRequest` defaults its options and chooses a global callback
name. It registers a live callback under that name on the global object and
builds the script URL. It then injects the script and returns a promise. Three
triggers race to settle that promise:

- the registered callback, when the script calls it;
- the script tag's `onerror`;
- the timeout.

Only the first one counts. Settling runs `clearRequest` once. `clearRequest`
replaces the callback by a no-op and cancels the timer. It also schedules the
tag removal (0 ms) and the deletion of the global name (500 ms).

The model has five modules:

- `JsValues` (`js_values.dfy`): the JavaScript values the loader inspects. It
  gives truthiness and property lookup. It gives `||` and `&&`, which return
  one of their operands, and `!`, which returns a boolean.
- `Strings` (`strings.dfy`): splitting a string on a separator, and the decimal
  rendering of a number. It proves the round trips of both.
- `JsonpRequest` (`jsonp_request.dfy`): the options, their defaults, the
  callback name, and the URL assembly.
- `JsonpResponse` (`jsonp_response.dfy`): the callback's choice between
  resolving and rejecting. The body is written with the source's own operators.
  The contract gives the same choice in declarative terms.
- `JsonpLoader` (`jsonp_loader.dfy`): the page as a state machine.
  - A `Process` holds the global callback slots (`Live(op)` or the no-op
    `Inert`) and one `Operation` per `makeRequest` call.
  - An `Operation` holds the promise state, the timer-armed flag, the
    tag-attached flag, the pending delayed clean-ups, and a count of
    `clearRequest` runs.
  - Every asynchronous happening is an `Event`, and `Step` gives its effect.
  - The invariant `Inv` is kept by every event and every run.
  - Class `Loader` holds the same state in fields. Each method performs one
    event in place and is proved equal to `Step`.

## Model

| member | source | states |
|---|---|---|
| `JsValues.Or` | src/modules/util/jsonp/util.jsonp.js:66-71 | `a \|\| b` yields `a` when `a` is truthy and `b` otherwise. The result is truthy exactly when either operand is. |
| `JsValues.And` | src/modules/util/jsonp/util.jsonp.js:67-71 | `a && b` yields `b` when `a` is truthy and `a` otherwise. The result is truthy exactly when both operands are. |
| `JsonpRequest.EffectiveCheck` | src/modules/util/jsonp/util.jsonp.js:44-45 | An `undefined` `checkResponse` turns checking on. Any other value is used for its truthiness. So checking is off exactly for `null`, `false`, `0` and `""`. |
| `JsonpRequest.EffectiveField` | src/modules/util/jsonp/util.jsonp.js:46 | The response field name is never empty. It is the option when that is given, else `'response'`. |
| `JsonpRequest.EffectiveTimeout` | src/modules/util/jsonp/util.jsonp.js:52 | The timeout is never 0. It is 30000 exactly when the option is absent, 0 or 30000. Otherwise it is the option. |
| `JsonpRequest.EffectiveParamName` | src/modules/util/jsonp/util.jsonp.js:80 | The callback parameter name is the option when given, else `'callback'`. |
| `JsonpRequest.CallbackName` | src/modules/util/jsonp/util.jsonp.js:62-63 | No name is registered exactly when `padding` is given. Otherwise the name is `paddingKey` if given, else the generated `prefix()+gen()`. |
| `JsonpRequest.Token` | src/modules/util/jsonp/util.jsonp.js:80 | The callback parameter's value is `padding` when given, else the registered callback name. |
| `JsonpRequest.AssembleUrl` | src/modules/util/jsonp/util.jsonp.js:79-81 | The URL starts with the base URL. Next comes `&` if the base already contains `?`, else `?`. The rest is the query. The result always contains `?`. |
| `JsonpRequest.BuildUrl` | src/modules/util/jsonp/util.jsonp.js:79-85 | `postprocessUrl`, when present, is applied once, to the complete assembled URL. Otherwise the assembled URL is used. |
| `JsonpRequest.QueryFields` | src/modules/util/jsonp/util.jsonp.js:47-81 | Provided neither the callback parameter name nor the token contains `&`: split on `&`, the query holds exactly: `paramName=token`, then `_=n` only if `noCache`, then the fields of the serialised `requestParams` only if they are given, in that order. |
| `JsonpRequest.CacheBusterField` | src/modules/util/jsonp/util.jsonp.js:81 | A cache-buster below 10000000 renders as 1 to 7 decimal digits. Reading those digits gives the number back. |
| `JsonpResponse.Classify` | src/modules/util/jsonp/util.jsonp.js:64-76 | With checking off, the raw response resolves, even with an `error` field. With checking on, it rejects exactly when the response is falsy, has a truthy `error`, or has a truthy data field with a truthy `error`. The reason is `true`, `res.error` or `res[field].error`, in that priority. Otherwise it resolves with `res[field]` when that is truthy, else with `res`. A rejection reason is always truthy. |
| `JsonpLoader.Settle` | src/modules/util/jsonp/util.jsonp.js:65-75 | A settled promise ignores further `resolve`/`reject` calls. A pending one takes the given outcome. |
| `JsonpLoader.RemovedName` | src/modules/util/jsonp/util.jsonp.js:101-104 | `clear` passes the callback name on only when it exists and is non-empty. |
| `JsonpLoader.NewOperation` | src/modules/util/jsonp/util.jsonp.js:41-60 | A new request records the defaulted options. It is pending, with its timer armed and its tag attached, and no clean-up has run or is scheduled. |
| `JsonpLoader.LoadStep` | src/modules/util/jsonp/util.jsonp.js:62-64 | `makeRequest` appends one request and keeps the earlier ones. With `padding` the registry is unchanged. Otherwise only the token's slot changes, and it becomes the new request's live callback. |
| `JsonpLoader.InvokeStep` | src/modules/util/jsonp/util.jsonp.js:64-76 | A call of `window[name](res)` changes no slot. When the slot holds a live callback, it settles only that callback's request with the classified response and leaves its timer alone. A no-op slot or a missing slot changes nothing. |
| `JsonpLoader.ScriptErrorStep` | src/modules/util/jsonp/util.jsonp.js:88-90 | `tag.onerror` settles only its own request with `{message:'scriptError'}`. It changes no slot and leaves the timer alone. |
| `JsonpLoader.TimeoutStep` | src/modules/util/jsonp/util.jsonp.js:53-55 | An armed timeout disarms itself and settles only its own request with `{message:'timeoutExceeded'}`. It changes no slot. A cleared timeout does nothing. |
| `JsonpLoader.ClearRequest` | src/modules/util/jsonp/util.jsonp.js:101-122 | `clearRequest` (`clear`, `removeCallback`'s first half, and the `clearTimeout` of line 58) keeps the promise's value and counts one more run. It cancels the timer and schedules the tag removal. When the name is truthy, that slot becomes the no-op and the deletion is scheduled; otherwise the registry is unchanged. No other request changes. |
| `JsonpLoader.ReactionsStep` | src/modules/util/jsonp/util.jsonp.js:92 | A queued `then` reaction runs `clearRequest` once and is then no longer queued. Without a queued reaction, nothing changes. |
| `JsonpLoader.TagRemovalStep` | src/modules/util/jsonp/util.jsonp.js:109-113 | The 0 ms timer detaches the tag and is then no longer due. It keeps the registry, the promise and the run count. When not due, it does nothing. |
| `JsonpLoader.CallbackDeletionStep` | src/modules/util/jsonp/util.jsonp.js:125-132 | The 500 ms timer removes exactly the request's own name from the registry and is then no longer due. It keeps the promise. When not due, it does nothing. |
| `JsonpLoader.StepInv` | src/modules/util/jsonp/util.jsonp.js:41-133 | Every event keeps the invariant. A pending request has its timer armed and its tag attached, and no clean-up has run. A settled one runs `clearRequest` at most once, and after that its timer is not armed. A live slot belongs to the request registered under that name. |
| `JsonpLoader.RunInv` | src/modules/util/jsonp/util.jsonp.js:88-92 | Any sequence of events keeps the invariant. So `clearRequest` runs at most once per request. |
| `JsonpLoader.StepKeepsOps` | src/modules/util/jsonp/util.jsonp.js:41-95 | Only a `makeRequest` call adds a request. No event removes one. |
| `JsonpLoader.SettledStaysSettled` | src/modules/util/jsonp/util.jsonp.js:53-92 | Once a request's promise is settled, no later events change its value. |
| `JsonpLoader.SettledBy` | src/modules/util/jsonp/util.jsonp.js:53-90 | Only three events settle a pending request. The live callback under its name settles it with the classified response. Its script's `onerror` rejects it with `{message:'scriptError'}`. Its timeout rejects it with `{message:'timeoutExceeded'}`. Settling queues the clean-up reaction. |
| `JsonpLoader.FirstTriggerDecides` | src/modules/util/jsonp/util.jsonp.js:53-92 | If a run settles a pending request, some event in the run found it still pending. The final value is the one that first event gave. |
| `JsonpLoader.TimeoutRejects` | src/modules/util/jsonp/util.jsonp.js:53-55 | A timeout on a pending request rejects it with `{message:'timeoutExceeded'}` and disarms the timer. |
| `JsonpLoader.CleanupEffects` | src/modules/util/jsonp/util.jsonp.js:56-60 | `clearRequest` on a settled request runs once and cancels the timer. It keeps the promise's value and schedules the tag removal. When the name is truthy, it puts the no-op in that slot and schedules the deletion; otherwise the registry is untouched. Running the reaction again does nothing. |
| `JsonpLoader.NoTriggerAfterCleanup` | src/modules/util/jsonp/util.jsonp.js:56-60 | After `clearRequest`, a timeout or a script error changes nothing. |
| `JsonpLoader.InertCallIsNoop` | src/modules/util/jsonp/util.jsonp.js:120-124 | Calling a slot that holds the no-op, or a name with no slot, changes nothing. |
| `JsonpLoader.TagRemovalIdempotent` | src/modules/util/jsonp/util.jsonp.js:105-113 | The 0 ms timer detaches the tag. It leaves the registry and the promise alone. Running it again is harmless. |
| `JsonpLoader.DeletionRemovesOnlyOwnName` | src/modules/util/jsonp/util.jsonp.js:125-132 | After the 500 ms timer, the request's name has no slot. Every other slot is unchanged. Running it again is harmless. |
| `JsonpLoader.StepFrame` | src/modules/util/jsonp/util.jsonp.js:101-133 | An event changes at most the one request it targets and at most the one registry name it touches. A callback call reaches only the request registered under that very name, so concurrent requests with distinct names do not interfere. |
| `JsonpLoader.Loader.MakeRequest` | src/modules/util/jsonp/util.jsonp.js:41-95 | Appends a pending request and registers its callback unless `padding` is given, exactly as `Step` does for `Load`. Returns the request's number and `BuildUrl`'s URL. |
| `JsonpLoader.Loader.CallGlobal` | src/modules/util/jsonp/util.jsonp.js:64-76 | A call of `window[name](res)` is performed in place as `Step` gives it, and the invariant is kept. |
| `JsonpLoader.Loader.OnScriptError` | src/modules/util/jsonp/util.jsonp.js:88-90 | `tag.onerror` is performed in place as `Step` gives it, and the invariant is kept. |
| `JsonpLoader.Loader.OnTimeout` | src/modules/util/jsonp/util.jsonp.js:53-55 | The timeout firing is performed in place as `Step` gives it, and the invariant is kept. |
| `JsonpLoader.Loader.OnSettled` | src/modules/util/jsonp/util.jsonp.js:56-60 | The `then(clearRequest, clearRequest)` reaction is performed in place as `Step` gives it, and the invariant is kept. |
| `JsonpLoader.Loader.OnTagTimer` | src/modules/util/jsonp/util.jsonp.js:109-113 | The 0 ms tag removal is performed in place as `Step` gives it, and the invariant is kept. |
| `JsonpLoader.Loader.OnDeleteTimer` | src/modules/util/jsonp/util.jsonp.js:125-132 | The 500 ms callback deletion is performed in place as `Step` gives it, and the invariant is kept. |

## Left out

- The `jsonp.handler` interception hook (src/modules/util/jsonp/util.jsonp.js:34-36) hands control to arbitrary outside code. Only the direct `makeRequest` path is modelled.
- Script injection (`utilScript.create`) and `tag.parentNode.removeChild` are DOM calls. The tag is an "attached" flag, and its `onerror` is an event.
- `querystring.stringify`, `utilId.prefix()/gen()`, `postprocessUrl` and `utilScript.create` are assumed to return normally, so a `Load` event always completes. In the source, a throw leaves `makeRequest` before line 92, so `clearRequest` never runs. A throw from `stringify` (line 48) comes before anything is set up. A throw from `prefix()/gen()` (line 63) leaves the timer armed; it later rejects a promise nobody holds. A throw from `postprocessUrl` (line 84) or `utilScript.create` (line 87) also leaves the live callback registered, and it is never replaced by the no-op or deleted. These leaks are not represented.
- There is no clock. The timeout and the 0 ms and 500 ms timers are events that the environment may deliver in any order. The effective `timeout` is recorded but never counted down.
- `ym.vow`: only the settle-once state of the deferred is modelled. The asynchronous `then` reaction is one event. A thenable passed to `resolve` is not adopted.
- `querystring.stringify`, `utilId.prefix()/gen()` and `Math.random()` are foreign. They become parameters: the serialiser `stringify`, the generated name `generated`, and the cache-buster `salt`. The range of `salt` is used only by `CacheBusterField`.
- JavaScript values: numbers are integers, so there is no NaN and no fractions. Functions are not values, and arrays are not distinguished from objects. Only an object's own fields are looked up, not properties of primitives (such as a string's `length`) or inherited ones.
- Options: an absent string option is the empty string, which is also falsy. Non-string values that the source would convert to strings by concatenation are not modelled. `noCache` is its truthiness.
- Deleting a global name cannot fail in the model, so the swallowed exception has no counterpart. The host that refuses `delete` leaves the name set to `undefined`, and the model treats that as an absent slot.
- A script that calls a name with no slot gets a `TypeError` inside its own code. That error never reaches the loader and is not modelled.
- Names are not required to be unique. A later `makeRequest` with the same name takes over the slot, as in the source. `StepFrame` states which request a call reaches.
- src/modules/system/supports/graphics/graphics.js (browser feature detection) is not part of this model.
