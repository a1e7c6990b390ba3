/** The event-shaping helpers that the store's module wiring uses: recognising
    a tagged event (a "flux standard action"), re-tagging values as events,
    filtering events by type, extracting payloads, and turning a request into
    a stream that emits its response or an error event.

    Each stream operator is modelled on the finite sequence of values its
    upstream emits before completing. An operator whose callback reads a
    property of `undefined` or `null` throws a TypeError, which ends the
    downstream stream with an error after the values emitted so far: a
    `Trace` records both. */
module RxExt {
  import opened JsValue

  /** What a finite stream emitted, and whether it ended with a TypeError
      (`threw`) rather than completing normally. */
  datatype Trace = Trace(values: seq<Value>, threw: bool)

  /** `isFSA(data)`: `data && (data.type || data.error)`, returning the
      operand JavaScript returns. It is truthy exactly for an object with a
      truthy `type` or a truthy `error` property. */
  function IsFSA(data: Value): (r: Value)
    ensures Truthy(r) <==>
      data.Obj? &&
      (("type" in data.fields && Truthy(data.fields["type"])) ||
       ("error" in data.fields && Truthy(data.fields["error"])))
  {
    if !Truthy(data) then data else Or(Get(data, "type"), Get(data, "error"))
  }

  /** `if (isFSA(v))`: the value already looks like a tagged event. */
  predicate LooksLikeFSA(v: Value) {
    Truthy(IsFSA(v))
  }

  /** The callback of `mapAction(t)`: a tagged event is copied with its
      `type` overwritten (`{ ...v, type }`); any other value becomes the
      payload of a fresh event `{ type, payload: v }`. */
  function AsAction(v: Value, t: string): (r: Value)
    ensures r.Obj? && "type" in r.fields && r.fields["type"] == Str(t)
    ensures LooksLikeFSA(v) ==>
      v.Obj? && r.fields.Keys == v.fields.Keys + {"type"} &&
      forall k :: k in v.fields && k != "type" ==> r.fields[k] == v.fields[k]
    ensures !LooksLikeFSA(v) ==>
      r.fields.Keys == {"type", "payload"} && r.fields["payload"] == v
    ensures t != "" ==> LooksLikeFSA(r)
  {
    if LooksLikeFSA(v) then Obj(v.fields["type" := Str(t)])
    else Obj(map["type" := Str(t), "payload" := v])
  }

  /** `mapAction(t)`: one output event per input value, in order. */
  function MapAction(xs: seq<Value>, t: string): (r: seq<Value>)
    ensures |r| == |xs|
    ensures forall i :: 0 <= i < |xs| ==> r[i] == AsAction(xs[i], t)
  {
    if xs == [] then [] else [AsAction(xs[0], t)] + MapAction(xs[1..], t)
  }

  /** The predicate of `filterAction(t)`, `pl.type === t`, on a value whose
      property read does not throw. */
  predicate HasType(v: Value, t: string) {
    !Nullish(v) && Get(v, "type") == Str(t)
  }

  /** `a` is a subsequence of `b`: `a` is `b` with some elements removed. */
  predicate IsSubseq(a: seq<Value>, b: seq<Value>) {
    a == [] || (b != [] && ((a[0] == b[0] && IsSubseq(a[1..], b[1..])) || IsSubseq(a, b[1..])))
  }

  /** `filterAction(t)`: keeps the values whose `type` is `t`, in order; the
      first `undefined` or `null` value makes the read `pl.type` throw. */
  function FilterAction(xs: seq<Value>, t: string): (r: Trace)
    ensures r.threw <==> exists i :: 0 <= i < |xs| && Nullish(xs[i])
    ensures forall i :: 0 <= i < |r.values| ==> HasType(r.values[i], t)
  {
    if xs == [] then Trace([], false)
    else
      match Prop(xs[0], "type")
      case TypeError => Trace([], true)
      case Ok(ty) =>
        var rest := FilterAction(xs[1..], t);
        if ty == Str(t) then Trace([xs[0]] + rest.values, rest.threw) else rest
  }

  /** `pluck(k1, …, kn)` as the stream library defines it: read each key in
      turn, answer `undefined` as soon as a read gives `undefined`, and throw
      when a read is attempted on `null` or `undefined`. */
  function Pluck(v: Value, keys: seq<string>): (r: Outcome<Value>)
    ensures keys == [] ==> r == Ok(v)
    ensures |keys| == 1 ==> r == Prop(v, keys[0])
    ensures r.TypeError? ==> keys != []
  {
    if keys == [] then Ok(v)
    else
      match Prop(v, keys[0])
      case TypeError => TypeError
      case Ok(p) => if p == Undefined then Ok(Undefined) else Pluck(p, keys[1..])
  }

  /** `pluckPayload(...keys)`: `pluck('payload', ...keys)` on every value, in
      order, until a read throws. */
  function PluckPayload(xs: seq<Value>, keys: seq<string>): (r: Trace)
    ensures !r.threw ==> |r.values| == |xs|
    ensures r.threw ==> |r.values| < |xs| && Pluck(xs[|r.values|], ["payload"] + keys).TypeError?
    ensures forall i :: 0 <= i < |r.values| ==> Pluck(xs[i], ["payload"] + keys) == Ok(r.values[i])
  {
    if xs == [] then Trace([], false)
    else
      match Pluck(xs[0], ["payload"] + keys)
      case TypeError => Trace([], true)
      case Ok(p) =>
        var rest := PluckPayload(xs[1..], keys);
        Trace([p] + rest.values, rest.threw)
  }

  /** How the promise returned by a request operation settles. */
  datatype Settled = Resolved(response: Value) | Rejected(reason: Value)

  /** The event a rejected request is converted to: `{ error: true, payload: err }`. */
  function ErrorEvent(err: Value): (r: Value)
    ensures r.Obj? && r.fields.Keys == {"error", "payload"}
    ensures r.fields["error"] == Bool(true) && r.fields["payload"] == err
    ensures LooksLikeFSA(r)
  {
    Obj(map["error" := Bool(true), "payload" := err])
  }

  /** The single value a settled, uncancelled request emits: the response
      itself, or for a rejection an error event that carries the reason,
      is recognised as tagged and has no `type` yet. */
  function Response(outcome: Settled): (r: Value)
    ensures outcome.Resolved? ==> r == outcome.response
    ensures outcome.Rejected? ==>
      LooksLikeFSA(r) && Get(r, "error") == Bool(true) &&
      Get(r, "payload") == outcome.reason && Get(r, "type") == Undefined
  {
    match outcome
    case Resolved(v) => v
    case Rejected(err) => ErrorEvent(err)
  }

  /** What the cancellation stream `cancel$` does before the request's
      promise settles: nothing (also when no `cancel$` is given, or when it
      completes silently), emit a value, or fail with an error. */
  datatype Cancel = NotCancelled | CancelEmits | CancelFails(error: Value)

  /** The stream `fromPromise(apiOperation, cancel$)(data)` builds for one
      request whose promise settles as `outcome`. A value from `cancel$`
      makes `takeUntil` complete the stream with nothing emitted; an error
      from `cancel$` passes through `takeUntil` and is converted by the same
      `catch` as a rejection. The stream never ends with an error. */
  function FromPromise(outcome: Settled, cancel: Cancel): (r: Trace)
    ensures !r.threw
    ensures cancel.NotCancelled? ==> r.values == [Response(outcome)]
    ensures cancel.CancelEmits? ==> r.values == []
    ensures cancel.CancelFails? ==> r.values == [ErrorEvent(cancel.error)]
  {
    match cancel
    case CancelEmits => Trace([], false)
    case CancelFails(e) => Trace([ErrorEvent(e)], false)
    case NotCancelled =>
      match outcome
      case Resolved(v) => Trace([v], false)
      case Rejected(err) => Trace([ErrorEvent(err)], false)
  }

  /** `flatAjax` over a source whose every request settles, uncancelled,
      before the source emits again: the per-request streams are
      concatenated in order. */
  function FlatAjaxInOrder(outcomes: seq<Settled>): (r: Trace)
    ensures !r.threw
    ensures |r.values| == |outcomes|
    ensures forall i :: 0 <= i < |outcomes| ==> r.values[i] == Response(outcomes[i])
  {
    if outcomes == [] then Trace([], false)
    else
      var first := FromPromise(outcomes[0], NotCancelled);
      var rest := FlatAjaxInOrder(outcomes[1..]);
      Trace(first.values + rest.values, first.threw || rest.threw)
  }
}
