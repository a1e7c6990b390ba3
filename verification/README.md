# Event-shaping helpers of a reactive state container

The store lets each module declare the event streams that feed its state
transition function. Modules build those streams with a small set of
helpers in `src/rx-ext.js`:

- `isFSA` decides whether a value already looks like a tagged event (a
  "flux standard action"): a truthy value with a truthy `type` or a truthy
  `error` property.
- `filterAction(t)` keeps the events whose `type` is `t`.
- `mapAction(t)` re-tags events. A tagged event is copied with its `type`
  overwritten. Any other value is wrapped as `{ type: t, payload: value }`.
- `pluckPayload(...keys)` reads `payload`, then each further key.
- `fromPromise` builds the per-request stream used by `flatAjax` and
  `switchAjax`. A rejected request becomes the ordinary event
  `{ error: true, payload: err }`, so the stream does not end with an error.

This Dafny project models these helpers as pure functions.

- `js_value.dfy` (module `JsValue`) holds the part of JavaScript's value
  model that the helpers observe:
  - values: `undefined`, `null`, booleans, numbers, strings and plain objects;
  - truthiness;
  - property reads, which throw a TypeError on `undefined` and `null`;
  - `||`, which returns one of its operands.
- `rx_ext.dfy` (module `RxExt`) holds the helpers. Each stream operator takes
  the finite sequence of values its upstream emits. An operator whose
  callback throws ends its output with an error after the values emitted so
  far. A `Trace` records both the values and whether the stream errored.
- `rx_ext_laws.dfy` (module `RxExtLaws`) relates the helpers to each other:
  - re-tagging composes, and the last tag wins;
  - `filterAction` is idempotent and keeps every event `mapAction` produced;
  - `pluckPayload()` undoes the wrapping done by `mapAction`;
  - a converted request error is still an error event after re-tagging.
- `rx_ext_examples.dfy` (module `RxExtExamples`) states, and proves, what
  the helpers give on the event streams built in the store's test scenarios.

`pluck` follows the stream library's version 5, the version this code is
written against: `Observable.fromPromise` and patching operators onto
`Observable.prototype` are version 5 interfaces. In that version, `pluck`
stops and answers `undefined` at the first key that reads as `undefined`,
and it throws when it reads a property of `null`.

## Model

| member | source | states |
|---|---|---|
| `JsValue.Prop` | src/rx-ext.js:18 | reading a property throws exactly on `undefined`/`null`; a property an object has reads as its value, a missing one as `undefined`; a primitive yields nothing but `undefined` |
| `JsValue.Or` | src/rx-ext.js:4 | `a \|\| b` is truthy iff either operand is, and returns one of the two operands |
| `RxExt.IsFSA` | src/rx-ext.js:3-5 | the value `isFSA` returns is truthy exactly when the input is an object with a truthy `type` or a truthy `error` property; no primitive is ever recognised |
| `RxExt.AsAction` | src/rx-ext.js:23-28 | the result is always an object with `type === t`; for a tagged input it has the input's keys plus `type`, and every other field is unchanged; for any other input it has exactly the keys `type` and `payload`, and `payload` is the input; for a non-empty `t` the result is itself recognised as tagged |
| `RxExt.MapAction` | src/rx-ext.js:21-30 | one-to-one: the output has the input's length, and output `i` is the re-tagging of input `i` alone |
| `RxExt.FilterAction` | src/rx-ext.js:17-19 | the stream errors iff some input is `undefined`/`null`; every kept value has `type === t` |
| `RxExtLaws.FilterActionSelects` | src/rx-ext.js:17-19 | the output is a subsequence of the input, so order is kept; when the stream does not error, it holds every occurrence of each value whose type is `t` and no other value |
| `RxExtLaws.FilterActionStopsAtNullish` | src/rx-ext.js:18 | the first `undefined`/`null` ends the stream with an error, after exactly the matching values before it |
| `RxExtLaws.FilterActionConcat` | src/rx-ext.js:17-19 | filtering works value by value: filtering `a + b` is filtering `a`, then filtering `b`, unless the stream already errored in `a`, in which case the result is that of `a` alone |
| `RxExtLaws.FilterActionCons` | src/rx-ext.js:18 | one filtering step on a readable value: it is kept iff its type is `t` |
| `RxExtLaws.FilterActionKeepsMatching` | src/rx-ext.js:17-19 | a stream whose every value has type `t` passes `filterAction(t)` unchanged and without error |
| `RxExtLaws.FilterActionIdempotent` | src/rx-ext.js:17-19 | filtering the output of `filterAction(t)` again changes nothing |
| `RxExtLaws.RetagComposes` | src/rx-ext.js:3-5 | after tagging with a non-empty type, tagging again with `t2` gives the same result as tagging with `t2` alone |
| `RxExtLaws.MapActionTwice` | src/rx-ext.js:21-30 | `mapAction(t1)` then `mapAction(t2)` equals `mapAction(t2)` when `t1` is non-empty |
| `RxExtLaws.MapActionIdempotent` | src/rx-ext.js:21-30 | `mapAction(t)` is idempotent for a non-empty `t` |
| `RxExtLaws.EmptyTypeWrapsTwice` | src/rx-ext.js:3-5 | with the empty type, idempotence fails: the wrapper `{type: "", payload: 1}` is not recognised as tagged and gets wrapped again |
| `RxExtLaws.MapActionConcat` | src/rx-ext.js:21-30 | `mapAction` commutes with concatenation of streams |
| `RxExtLaws.FilterAfterMapActionKeepsAll` | src/rx-ext.js:17-30 | `filterAction(t)` after `mapAction(t)` drops nothing and cannot error |
| `RxExtLaws.FilterAfterMapActionOtherType` | src/rx-ext.js:17-30 | `filterAction(u)` after `mapAction(t)` with `u != t` drops everything |
| `RxExt.Pluck` | src/rx-ext.js:33 | with no keys, the result is the value itself; with one key, it is that single property read; it can throw only when there is a key to read |
| `RxExtLaws.PluckAppend` | src/rx-ext.js:33 | plucking the path `a + b` is plucking `a` and then `b`, except that an `undefined` reached along a non-empty `a` stops the walk; a throw propagates |
| `RxExt.PluckPayload` | src/rx-ext.js:32-34 | values come out in input order; each is the input's `payload`-then-keys read; when the stream errors, it does so at the first input whose read throws, and only then |
| `RxExtLaws.PluckPayloadNoKeys` | src/rx-ext.js:32-34 | with no keys, and no `undefined`/`null` input, the output is each input's `payload` and the stream does not error |
| `RxExtLaws.PluckPayloadThenKeys` | src/rx-ext.js:33 | for a value with a defined `payload`, `pluckPayload(...keys)` equals reading `keys` from that payload |
| `RxExtLaws.PluckPayloadAfterMapAction` | src/rx-ext.js:21-34 | after `mapAction(t)`, `pluckPayload()` never errors; it yields each wrapped value itself, and each tagged event's own `payload` |
| `RxExtLaws.WrapThenPluckRoundTrip` | src/rx-ext.js:21-34 | for untagged values, `pluckPayload()` after `mapAction(t)` gives back the input stream exactly |
| `RxExt.ErrorEvent` | src/rx-ext.js:13 | the converted error has exactly the keys `error` and `payload`; `error` is `true` and `payload` is the rejection reason; the event is recognised as tagged |
| `RxExt.Response` | src/rx-ext.js:9-13 | a resolved request yields its response unchanged; a rejected request yields a value recognised as tagged, with `error: true`, the rejection reason as `payload`, and no `type` |
| `RxExt.FromPromise` | src/rx-ext.js:7-15 | the request stream never ends with an error; uncancelled, it emits exactly one value, the response or the rejection's error event; a value from `cancel$` before settlement makes it emit nothing; an error from `cancel$` before settlement is converted into one error event carrying that error |
| `RxExt.FlatAjaxInOrder` | src/rx-ext.js:36-38 | when each request settles before the next one starts, there is one output per request, in order, and the stream never errors: a failed request does not silence it |
| `RxExtLaws.ErrorEventRetagged` | src/rx-ext.js:13-25 | re-tagging a converted error with `t` keeps `error: true` and the original reason as payload, and only adds `type` |
| `RxExtLaws.RejectedRequestThroughMapAction` | src/rx-ext.js:7-30 | a rejected request followed by `mapAction(t)` yields exactly one event `{type: t, error: true, payload: err}` |
| `RxExtExamples.FooFlowKeepsFoo` | test/createStore-spec.js:14-18 | a `FOO` filter passes the `FOO` dispatch and drops the `BAR` one |
| `RxExtExamples.BarSideEffect` | test/createStore-spec.js:163-172 | payloads 40 and 42 are plucked, then wrapped as `BAR_1`/`BAR_2` events that carry the numbers |
| `RxExtExamples.PeakyEffectWrapsString` | test/createStore-spec.js:334-345 | in module 60, the string `'Arthur'` becomes the payload of a `PEAKY_EFFECT_60` event |
| `RxExtExamples.SideEffectWrapsObject` | test/createStore-spec.js:642-646 | the untagged object `{result: 420}` is wrapped whole as the payload of a `SIDE_EFFECT` event |

## Left out

- The store (`createStore`) is not part of this model: its implementation is not among the source files. This covers module wiring, state accumulation, the multicast state views, middleware, `hydrate` and `clearState`.
- `mapPayload`, used by the tests, is not defined in `src/rx-ext.js`. It is not part of this model.
- The stream library's timing, subscription lifecycle and `share()` multicasting are not modelled. Every operator is a function of the finite sequence of values its upstream emits.
- An error raised upstream of an operator passes through that operator unchanged. The model does not represent it, because each operator takes only the values its upstream emitted.
- Installing the operators on `Observable.prototype` (src/rx-ext.js:17, 21, 32, 36, 40) is a module-load side effect. The operators are modelled as free functions instead.
- RxExt.FlatAjaxInOrder: models `flatAjax` only when every request settles, uncancelled, before the source emits again. Interleaved requests, `flatMap` versus `switchMap` (`switchAjax`, src/rx-ext.js:40-42) and their cancellation are not modelled.
- RxExt.FromPromise: `takeUntil(cancel$)` is reduced to one input saying what `cancel$` did before the request settled: nothing, emitted a value, or failed with an error. What `cancel$` does after settlement is not modelled, because it has no effect on a stream that has already completed. An `apiOperation` that throws synchronously instead of returning a promise is not modelled.
- The operators' type argument is modelled as a string. The source accepts any value, but every caller passes a string.
- Numbers are integers. NaN, fractions and `-0` are not represented. The only numeric fact the helpers use is that `0` is falsy.
- Arrays, functions and symbols are not represented. Built-in and inherited properties are not represented either, such as a string's `length` or indexed characters. A property read on any non-object value gives `undefined`.
- Objects are finite maps, so the order of keys that `{ ...payload, type }` produces is not modelled.
