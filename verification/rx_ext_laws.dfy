/** Laws relating the event-shaping helpers to each other: re-tagging
    composes, filtering is idempotent and keeps every re-tagged event, a
    failed property read ends a filtered stream at the offending value,
    payload extraction undoes wrapping, and a converted request error stays
    an error event when re-tagged. */
module RxExtLaws {
  import opened JsValue
  import opened RxExt

  /** Re-tagging with a non-empty type and then with `t2` is re-tagging with
      `t2` alone: the last tag wins and nothing else changes. */
  lemma RetagComposes(v: Value, t1: string, t2: string)
    requires t1 != ""
    ensures AsAction(AsAction(v, t1), t2) == AsAction(v, t2)
  {
    var once := AsAction(v, t1);
    assert LooksLikeFSA(once);
    if LooksLikeFSA(v) {
      assert once.fields["type" := Str(t2)] == v.fields["type" := Str(t2)];
    } else {
      assert once.fields["type" := Str(t2)] == map["type" := Str(t2), "payload" := v];
    }
  }

  /** `mapAction(t1)` followed by `mapAction(t2)` is `mapAction(t2)`. */
  lemma MapActionTwice(xs: seq<Value>, t1: string, t2: string)
    requires t1 != ""
    ensures MapAction(MapAction(xs, t1), t2) == MapAction(xs, t2)
  {
    forall i | 0 <= i < |xs|
      ensures MapAction(MapAction(xs, t1), t2)[i] == MapAction(xs, t2)[i]
    {
      RetagComposes(xs[i], t1, t2);
    }
  }

  /** `mapAction(t)` is idempotent for a non-empty type. */
  lemma MapActionIdempotent(xs: seq<Value>, t: string)
    requires t != ""
    ensures MapAction(MapAction(xs, t), t) == MapAction(xs, t)
  {
    MapActionTwice(xs, t, t);
  }

  /** With the empty type the wrapper event is not itself recognised as
      tagged, so a second `mapAction("")` wraps it again. */
  lemma EmptyTypeWrapsTwice()
    ensures AsAction(AsAction(Num(1), ""), "") != AsAction(Num(1), "")
  {
    var once := AsAction(Num(1), "");
    assert !LooksLikeFSA(once);
    assert AsAction(once, "").fields["payload"] == once;
  }

  /** `mapAction(t)` commutes with concatenation: each output event depends
      on its own input value only. */
  lemma MapActionConcat(a: seq<Value>, b: seq<Value>, t: string)
    ensures MapAction(a + b, t) == MapAction(a, t) + MapAction(b, t)
  {
    var l, r := MapAction(a + b, t), MapAction(a, t) + MapAction(b, t);
    forall i | 0 <= i < |a + b| ensures l[i] == r[i] {
      if i < |a| { assert (a + b)[i] == a[i]; } else { assert (a + b)[i] == b[i - |a|]; }
    }
  }

  /** A stream whose every value has type `t` passes `filterAction(t)`
      unchanged. */
  lemma {:induction false} FilterActionKeepsMatching(ys: seq<Value>, t: string)
    requires forall i :: 0 <= i < |ys| ==> HasType(ys[i], t)
    ensures FilterAction(ys, t) == Trace(ys, false)
  {
    if ys != [] {
      FilterActionKeepsMatching(ys[1..], t);
      assert ys == [ys[0]] + ys[1..];
    }
  }

  /** `filterAction(t)` is idempotent: filtering its output again changes
      nothing and cannot throw. */
  lemma FilterActionIdempotent(xs: seq<Value>, t: string)
    ensures FilterAction(FilterAction(xs, t).values, t) == Trace(FilterAction(xs, t).values, false)
  {
    FilterActionKeepsMatching(FilterAction(xs, t).values, t);
  }

  /** `filterAction(t)` after `mapAction(t)` drops nothing. */
  lemma FilterAfterMapActionKeepsAll(xs: seq<Value>, t: string)
    ensures FilterAction(MapAction(xs, t), t) == Trace(MapAction(xs, t), false)
  {
    FilterActionKeepsMatching(MapAction(xs, t), t);
  }

  /** `filterAction(u)` after `mapAction(t)` with `u != t` drops everything. */
  lemma {:induction false} FilterAfterMapActionOtherType(xs: seq<Value>, t: string, u: string)
    requires t != u
    ensures FilterAction(MapAction(xs, t), u) == Trace([], false)
  {
    if xs != [] {
      FilterAfterMapActionOtherType(xs[1..], t, u);
      assert MapAction(xs, t)[1..] == MapAction(xs[1..], t);
    }
  }

  /** One step of `filterAction(t)` on a value whose `type` can be read. */
  lemma FilterActionCons(x: Value, xs: seq<Value>, t: string)
    requires !Nullish(x)
    ensures FilterAction([x] + xs, t) ==
      if HasType(x, t) then Trace([x] + FilterAction(xs, t).values, FilterAction(xs, t).threw)
      else FilterAction(xs, t)
  {
    assert ([x] + xs)[0] == x && ([x] + xs)[1..] == xs;
  }

  /** What `filterAction(t)` keeps on a stream it does not abort: its output
      is a subsequence of the input holding every occurrence of each value
      whose type is `t`, and nothing else. */
  lemma {:induction false} FilterActionSelects(xs: seq<Value>, t: string)
    ensures IsSubseq(FilterAction(xs, t).values, xs)
    ensures !FilterAction(xs, t).threw ==>
      forall v :: multiset(FilterAction(xs, t).values)[v] ==
        if HasType(v, t) then multiset(xs)[v] else 0
  {
    if xs != [] {
      var x, rest := xs[0], xs[1..];
      assert xs == [x] + rest;
      FilterActionSelects(rest, t);
      if !Nullish(x) {
        FilterActionCons(x, rest, t);
        var fr := FilterAction(rest, t);
        if HasType(x, t) {
          assert ([x] + fr.values)[0] == x && ([x] + fr.values)[1..] == fr.values;
        } else if fr.values != [] {
          SubseqDropFirst(fr.values, x, rest);
        }
      }
    }
  }

  /** A subsequence of `rest` is a subsequence of `[x] + rest`. */
  lemma SubseqDropFirst(a: seq<Value>, x: Value, rest: seq<Value>)
    requires a != [] && IsSubseq(a, rest)
    ensures IsSubseq(a, [x] + rest)
  {
    assert ([x] + rest)[1..] == rest;
  }

  /** Filtering a concatenation is filtering each part, the decision on a
      value depending on that value alone, except that a stream already
      ended by an error in `a` never reaches `b`. */
  lemma {:induction false} FilterActionConcat(a: seq<Value>, b: seq<Value>, t: string)
    ensures FilterAction(a + b, t) ==
      if FilterAction(a, t).threw then FilterAction(a, t)
      else Trace(FilterAction(a, t).values + FilterAction(b, t).values, FilterAction(b, t).threw)
  {
    if a != [] {
      var x, rest := a[0], a[1..];
      assert a + b == [x] + (rest + b);
      assert a == [x] + rest;
      if Nullish(x) {
        assert FilterAction(a + b, t) == Trace([], true) == FilterAction(a, t);
        return;
      }
      FilterActionCons(x, rest + b, t);
      FilterActionCons(x, rest, t);
      FilterActionConcat(rest, b, t);
      var fr, fb := FilterAction(rest, t), FilterAction(b, t);
      if HasType(x, t) {
        assert [x] + (fr.values + fb.values) == ([x] + fr.values) + fb.values;
      }
    } else {
      assert a + b == b;
    }
  }

  /** The first `undefined` or `null` value ends `filterAction(t)` with a
      TypeError, after exactly the matching values that precede it. */
  lemma FilterActionStopsAtNullish(xs: seq<Value>, t: string, n: nat)
    requires n < |xs| && Nullish(xs[n])
    requires forall i :: 0 <= i < n ==> !Nullish(xs[i])
    ensures FilterAction(xs, t) == Trace(FilterAction(xs[..n], t).values, true)
  {
    assert xs == xs[..n] + xs[n..];
    FilterActionConcat(xs[..n], xs[n..], t);
  }

  /** Plucking the path `a + b` is plucking `a` and then `b` from its
      result, except that an `undefined` reached along a non-empty `a` stops
      the walk. */
  lemma {:induction false} PluckAppend(v: Value, a: seq<string>, b: seq<string>)
    ensures Pluck(v, a + b) ==
      match Pluck(v, a)
      case TypeError => TypeError
      case Ok(p) => if a != [] && p == Undefined then Ok(Undefined) else Pluck(p, b)
  {
    if a != [] {
      assert (a + b)[0] == a[0] && (a + b)[1..] == a[1..] + b;
      match Prop(v, a[0])
      case TypeError =>
        assert Pluck(v, a) == TypeError && Pluck(v, a + b) == TypeError;
      case Ok(p) =>
        if p == Undefined {
          assert Pluck(v, a) == Ok(Undefined) && Pluck(v, a + b) == Ok(Undefined);
        } else {
          assert Pluck(v, a) == Pluck(p, a[1..]) && Pluck(v, a + b) == Pluck(p, a[1..] + b);
          PluckAppend(p, a[1..], b);
        }
    } else {
      assert a + b == b;
    }
  }

  /** `pluckPayload()` with no keys reads each value's `payload`. */
  lemma {:induction false} PluckPayloadNoKeys(xs: seq<Value>)
    requires forall i :: 0 <= i < |xs| ==> !Nullish(xs[i])
    ensures !PluckPayload(xs, []).threw
    ensures forall i :: 0 <= i < |xs| ==> PluckPayload(xs, []).values[i] == Get(xs[i], "payload")
  {
    var r := PluckPayload(xs, []);
    forall i | 0 <= i < |xs| ensures r.values[i] == Get(xs[i], "payload") {
      assert Pluck(xs[i], ["payload"] + []) == Prop(xs[i], "payload");
    }
  }

  /** `pluckPayload(...keys)` is `pluckPayload()` followed by `pluck(...keys)`
      on every value whose payload is defined. */
  lemma PluckPayloadThenKeys(v: Value, keys: seq<string>)
    requires !Nullish(v) && Get(v, "payload") != Undefined
    ensures Pluck(v, ["payload"] + keys) == Pluck(Get(v, "payload"), keys)
  {
    PluckAppend(v, ["payload"], keys);
  }

  /** `pluckPayload()` undoes `mapAction(t)`: a wrapped value comes back as
      itself, a re-tagged event gives back its own payload. */
  lemma {:induction false} PluckPayloadAfterMapAction(xs: seq<Value>, t: string)
    ensures !PluckPayload(MapAction(xs, t), []).threw
    ensures forall i :: 0 <= i < |xs| ==>
      PluckPayload(MapAction(xs, t), []).values[i] ==
        if LooksLikeFSA(xs[i]) then Get(xs[i], "payload") else xs[i]
  {
    var ys := MapAction(xs, t);
    forall i | 0 <= i < |ys| ensures !Nullish(ys[i]) { }
    PluckPayloadNoKeys(ys);
    forall i | 0 <= i < |xs|
      ensures Get(ys[i], "payload") == if LooksLikeFSA(xs[i]) then Get(xs[i], "payload") else xs[i]
    {
      if LooksLikeFSA(xs[i]) && "payload" !in xs[i].fields {
        assert "payload" !in ys[i].fields;
      }
    }
  }

  /** Round trip: values that are not already tagged come back unchanged
      from `mapAction(t)` followed by `pluckPayload()`. */
  lemma WrapThenPluckRoundTrip(xs: seq<Value>, t: string)
    requires forall i :: 0 <= i < |xs| ==> !LooksLikeFSA(xs[i])
    ensures PluckPayload(MapAction(xs, t), []) == Trace(xs, false)
  {
    PluckPayloadAfterMapAction(xs, t);
  }

  /** A converted request error re-tagged with `t` keeps `error: true` and
      the original reason as payload; only `type` is added. */
  lemma ErrorEventRetagged(err: Value, t: string)
    ensures AsAction(ErrorEvent(err), t) ==
      Obj(map["error" := Bool(true), "payload" := err, "type" := Str(t)])
  {
    var e := ErrorEvent(err);
    assert e.fields["type" := Str(t)] == map["error" := Bool(true), "payload" := err, "type" := Str(t)];
  }

  /** A rejected request, converted and then passed through `mapAction(t)`,
      yields exactly one error event of type `t`. */
  lemma RejectedRequestThroughMapAction(err: Value, t: string)
    ensures MapAction(FromPromise(Rejected(err), NotCancelled).values, t) ==
      [Obj(map["error" := Bool(true), "payload" := err, "type" := Str(t)])]
  {
    ErrorEventRetagged(err, t);
  }
}
