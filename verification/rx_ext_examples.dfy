/** The helpers on the concrete event streams that the store's own test
    scenarios build with them. */
module RxExtExamples {
  import opened JsValue
  import opened RxExt

  /** `{ type: t, payload: p }` */
  function Event(t: string, p: Value): (r: Value)
    ensures LooksLikeFSA(r) <==> t != ""
  {
    Obj(map["type" := Str(t), "payload" := p])
  }

  /** A flow keeping `FOO` events sees the `FOO` dispatch and not the `BAR`
      one. */
  lemma FooFlowKeepsFoo()
    ensures FilterAction([Obj(map["type" := Str("@test/FOO")]), Obj(map["type" := Str("@test/BAR")])], "@test/FOO")
      == Trace([Obj(map["type" := Str("@test/FOO")])], false)
  {
    var foo, bar := Obj(map["type" := Str("@test/FOO")]), Obj(map["type" := Str("@test/BAR")]);
    assert [foo, bar][1..] == [bar];
    assert [bar][1..] == [];
  }

  /** The `BAR` side effect: the payloads 40 and 42 are plucked, and after the
      flow's own `<= 41` / `> 41` split they are wrapped as `BAR_1` and
      `BAR_2` events carrying the numbers themselves. */
  lemma BarSideEffect()
    ensures PluckPayload([Event("@test/BAR", Num(40)), Event("@test/BAR", Num(42))], [])
      == Trace([Num(40), Num(42)], false)
    ensures MapAction([Num(40)], "BAR_1") == [Event("BAR_1", Num(40))]
    ensures MapAction([Num(42)], "BAR_2") == [Event("BAR_2", Num(42))]
  {
    var xs := [Event("@test/BAR", Num(40)), Event("@test/BAR", Num(42))];
    assert xs[1..] == [Event("@test/BAR", Num(42))];
    assert Pluck(xs[0], ["payload"] + []) == Ok(Num(40));
    assert Pluck(xs[1], ["payload"] + []) == Ok(Num(42));
  }

  /** In module 60 the string `'Arthur'` is wrapped as the payload of a
      `PEAKY_EFFECT_60` event. */
  lemma PeakyEffectWrapsString()
    ensures MapAction([Str("Arthur")], "PEAKY_EFFECT_60") == [Event("PEAKY_EFFECT_60", Str("Arthur"))]
  {
  }

  /** A computed state slice `{ result: 420 }` is not a tagged event, so
      `mapAction('SIDE_EFFECT')` wraps it whole as the payload. */
  lemma SideEffectWrapsObject()
    ensures AsAction(Obj(map["result" := Num(420)]), "SIDE_EFFECT")
      == Event("SIDE_EFFECT", Obj(map["result" := Num(420)]))
  {
  }
}
