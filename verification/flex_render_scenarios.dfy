/**
  Whole runs of a `FlexRenderComponentRef`: a ref is created for a spec,
  the cell's spec changes, and the component's inputs and the output
  subscriptions are observed afterwards.
 */
module FlexRenderScenarios {
  import opened Js
  import opened FlexRender

  /** Creating a ref for a component whose `name` member is an
      `OutputEmitterRef`, and binding that output by name, subscribes the
      emitter with the first token. */
  method Mount(spec: Spec, name: string) returns (ref: FlexRenderComponentRef)
    requires name in spec.allowedOutputNames
    ensures fresh(ref) && ref.Valid()
    ensures ref.componentData == spec && ref.instance == map[name := Emitter(0)]
    ensures ref.inputDiffer == spec.inputs && ref.outputDiffer == spec.outputs
    ensures ref.outputSubscribers == map[name := 0] && ref.activeTokens == {0} && ref.nextToken == 1
    ensures ref.appliedInputs == map[] && ref.inputLog == []
  {
    ref := new FlexRenderComponentRef(spec, map[name := Emitter(0)]);
    ref.SetOutput(Str(name));
  }

  /** A cell update that changes input `b`, keeps input `a` and swaps the
      callback under output `name`. Exactly one write reaches the component,
      `setInput(b, vb')`; `a` is not written. */
  method ChangedInputOnly(a: string, b: string, va: Value, vb: Value, vb': Value, name: string, f1: nat, f2: nat)
    returns (written: seq<InputWrite>)
    requires a != b && vb != vb'
    ensures written == [InputWrite(b, vb')]
  {
    var spec1 := Spec(1, map[a := va, b := vb], map[name := Fn(f1)], {a, b}, {name});
    var spec2 := spec1.(inputs := map[a := va, b := vb'], outputs := map[name := Fn(f2)]);
    var ref := Mount(spec1, name);
    ghost var calls := ref.Update(spec2);
    OnlyOneChanges(a, b, va, vb, vb');
    SingleWrite(map[], ref.appliedInputs, b, vb', calls);
    written := ref.inputLog;
  }

  /** Of two inputs, only the one whose value changed is to be written. */
  lemma OnlyOneChanges(a: string, b: string, va: Value, vb: Value, vb': Value)
    requires a != b && vb != vb'
    ensures Restrict(InputDelta(map[a := va, b := vb], map[a := va, b := vb']), {a, b}) == map[b := vb']
  {
    var delta := InputDelta(map[a := va, b := vb], map[a := va, b := vb']);
    assert a !in delta;
    assert delta.Keys == {b};
  }

  /** A batch of one write is issued by exactly that call. */
  lemma SingleWrite(applied0: map<string, Value>, applied: map<string, Value>, k: string, v: Value,
                    calls: seq<InputWrite>)
    requires Issued(applied0, applied, map[k := v], calls)
    ensures calls == [InputWrite(k, v)]
  {
    assert calls == [] + [calls[0]];
    assert Replay(calls) == map[calls[0].key := calls[0].value];
    assert k in Replay(calls);
  }

  /** In the same kind of update the subscription made at creation is neither
      released nor renewed when its callback is swapped. */
  method SwappedCallbackKeepsSubscription(name: string, f1: nat, f2: nat)
    returns (table: map<string, Token>, live: set<Token>)
    ensures table == map[name := 0] && live == {0}
  {
    var spec1 := Spec(1, map[], map[name := Fn(f1)], {}, {name});
    var spec2 := spec1.(outputs := map[name := Fn(f2)]);
    var ref := Mount(spec1, name);
    ghost var calls := ref.Update(spec2);
    CallbackOutputsOnlyRelease(map[name := Emitter(0)], {name}, spec1.outputs, spec2.outputs,
                               map[name := 0], {0}, 1, ref.outputSubscribers, ref.activeTokens, ref.nextToken);
    assert spec1.outputs.Keys - spec2.outputs.Keys == {};
    table, live := ref.outputSubscribers, ref.activeTokens;
  }

  /** Calling `update` a second time with the same spec reaches nothing: no
      input is written and the subscriptions stay as the first call left them,
      whatever the two specs and the instance are. */
  method UpdateAgainIsSilent(spec1: Spec, spec2: Spec, instance: map<string, Member>)
    returns (written: seq<InputWrite>, tableBefore: map<string, Token>, tableAfter: map<string, Token>,
             liveBefore: set<Token>, liveAfter: set<Token>)
    ensures written == []
    ensures tableAfter == tableBefore && liveAfter == liveBefore
  {
    var ref := new FlexRenderComponentRef(spec1, instance);
    ghost var first := ref.Update(spec2);
    tableBefore, liveBefore := ref.outputSubscribers, ref.activeTokens;
    ghost var next0 := ref.nextToken;
    var logBefore := ref.inputLog;
    ghost var second := ref.Update(spec2);
    if ref.componentData == spec2 {
      SameInputsNoWrites(spec2.inputs, spec2.allowedInputNames);
      SameOutputsNoChange(instance, spec2.allowedOutputNames, spec2.outputs, tableBefore, liveBefore, next0,
                          ref.outputSubscribers, ref.activeTokens, ref.nextToken);
    }
    written := ref.inputLog[|logBefore|..];
    tableAfter, liveAfter := ref.outputSubscribers, ref.activeTokens;
  }

  /** An output added by `update` is never subscribed, although its key is
      allowed and names a live emitter: the callback is what gets checked
      against the allow-list. Binding the same outputs with `setOutputs`,
      which passes the key, does subscribe it. */
  method AddedOutputIsNotSubscribed(name: string, f: nat)
    returns (afterUpdate: map<string, Token>, afterSetOutputs: map<string, Token>)
    ensures afterUpdate == map[]
    ensures afterSetOutputs.Keys == {name}
  {
    var spec1 := Spec(1, map[], map[], {}, {name});
    var spec2 := spec1.(outputs := map[name := Fn(f)]);
    var instance := map[name := Emitter(0)];
    var ref := new FlexRenderComponentRef(spec1, instance);
    ghost var calls := ref.Update(spec2);
    CallbackOutputsOnlyRelease(instance, {name}, spec1.outputs, spec2.outputs,
                               map[], {}, 0, ref.outputSubscribers, ref.activeTokens, ref.nextToken);
    afterUpdate := ref.outputSubscribers;
    assert SubscribableKeys(instance, {name}, {name}) == {name};
    ref.SetOutputs(spec2.outputs);
    afterSetOutputs := ref.outputSubscribers;
  }

  /** Binding two emitter outputs with `setOutputs` gives them different
      subscriptions, so unsubscribing one leaves the other subscribed. */
  method UnsubscribeOneKeepsOther(p: string, q: string, fp: nat, fq: nat)
    returns (table: map<string, Token>, qLive: bool)
    requires p != q
    ensures table.Keys == {q}
    ensures qLive
  {
    var spec := Spec(1, map[], map[], {}, {p, q});
    var ref := new FlexRenderComponentRef(spec, map[p := Emitter(0), q := Emitter(1)]);
    ref.SetOutputs(map[p := Fn(fp), q := Fn(fq)]);
    assert SubscribableKeys(ref.instance, {p, q}, {p, q}) == {p, q};
    assert ref.outputSubscribers[q] in ref.activeTokens by {
      TokenRangeBounds(0, ref.nextToken, ref.outputSubscribers[q]);
    }
    ref.UnsubscribeOutput(p);
    table := ref.outputSubscribers;
    qLive := table[q] in ref.activeTokens;
  }

  /** An output removed by `update` is unsubscribed but keeps its entry in
      `outputSubscribers`; only destroying the ref empties the table. */
  method RemovedOutputStaysInTable(name: string, f: nat)
    returns (afterUpdate: map<string, Token>, liveAfterUpdate: set<Token>, afterDestroy: map<string, Token>)
    ensures afterUpdate == map[name := 0] && liveAfterUpdate == {}
    ensures afterDestroy == map[]
  {
    var spec1 := Spec(1, map[], map[name := Fn(f)], {}, {name});
    var spec2 := spec1.(outputs := map[]);
    var ref := Mount(spec1, name);
    ghost var calls := ref.Update(spec2);
    CallbackOutputsOnlyRelease(map[name := Emitter(0)], {name}, spec1.outputs, spec2.outputs,
                               map[name := 0], {0}, 1, ref.outputSubscribers, ref.activeTokens, ref.nextToken);
    assert spec1.outputs.Keys - spec2.outputs.Keys == {name};
    assert TokensUnder(map[name := 0], {name}) == {0};
    afterUpdate, liveAfterUpdate := ref.outputSubscribers, ref.activeTokens;
    ref.Destroy();
    afterDestroy := ref.outputSubscribers;
  }
}
